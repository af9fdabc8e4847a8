/**
  The client's classes in the shape of the program: fields that the procedures update in
  place. Each method is one undisturbed call and does exactly what `ClientAlone` says of it.
 */
module ClientObjects {
  import opened Wrappers
  import opened Text
  import opened TraceContextCodec
  import opened WireFrame
  import P = ClientProtocol
  import A = ClientAlone

  class Session {
    const id: P.RequestId
    const caller: SpanContext   // what the connect handler captures
    var request: string
    var response: string
    var ec: P.ErrorCode
    var wasCancelled: bool

    ghost const no: P.Sid       // the number of the session in the order of creation
    ghost var parts: P.Request  // what the request was written from
    ghost var drawn: Option<SpanContext>  // what the completed connect hands to the handlers

    constructor (id: P.RequestId, caller: SpanContext, request: string, ghost no: P.Sid, ghost parts: P.Request)
      ensures this.id == id && this.no == no && this.request == request && this.parts == parts
      ensures Value() == P.Session(id, caller, parts, "", P.Success, None, false, None)
    {
      this.id, this.caller, this.request := id, caller, request;
      response, ec, wasCancelled := "", P.Success, false;
      this.no, this.parts, drawn := no, parts, None;
    }

    ghost function Value(): P.Session
      reads this
    {
      P.Session(id, caller, parts, response, ec, drawn, wasCancelled, None)
    }
  }

  ghost function Values(sessions: seq<Session>): seq<P.Session>
    reads sessions
  {
    seq(|sessions|, i requires 0 <= i < |sessions| reads sessions => sessions[i].Value())
  }

  /** The map in terms of session numbers, which never change. */
  ghost function Numbers(sessions: map<P.RequestId, Session>): map<P.RequestId, P.Sid> {
    map id | id in sessions :: sessions[id].no
  }

  lemma NumbersWithout(sessions: map<P.RequestId, Session>, id: P.RequestId)
    ensures Numbers(sessions - {id}) == Numbers(sessions) - {id}
    ensures id !in sessions ==> sessions - {id} == sessions
  {
  }

  lemma NumbersWith(sessions: map<P.RequestId, Session>, id: P.RequestId, session: Session)
    ensures Numbers(sessions[id := session]) == Numbers(sessions)[id := session.no]
  {
  }

  class AsyncTcpClient {
    var activeSessions: map<P.RequestId, Session>
    var work: bool
    var stopped: bool
    const ioThreads: nat

    ghost var sessions: seq<Session>    // all that were ever created
    ghost var pending: multiset<P.PendingOp>  // the operations that the event loop has been given
    ghost var events: seq<P.Event>

    constructor (ioThreads: nat)
      ensures Valid() && View() == P.Init(ioThreads)
    {
      this.ioThreads := ioThreads;
      activeSessions := map[];
      work, stopped := true, false;
      sessions, pending, events := [], multiset{}, [];
    }

    ghost predicate Owns(session: Session)
      reads this
    {
      session.no < |sessions| && sessions[session.no] == session
    }

    ghost predicate Valid()
      reads this, sessions
    {
      && (forall i :: 0 <= i < |sessions| ==> sessions[i].no == i && sessions[i].request == sessions[i].parts.Line())
      && (forall id :: id in activeSessions ==> Owns(activeSessions[id]))
    }

    ghost function View(): P.State
      reads this, sessions
    {
      P.State(ioThreads, Values(sessions), Numbers(activeSessions), None, pending, map[], work, stopped, events)
    }

    method WriteRequest(duration: nat, active: SpanContext) returns (request: string)
      ensures request == P.Request(duration, active).Line()
      ensures request == "EMULATE_LONG_CALC_OP -" + Decimal(duration) + "-" + TraceInfo(active) + "-\n"
    {
      var contextSer := ExtractTraceInfoFromActiveSpan(active);
      request := COMMAND;
      request := request + "-" + Decimal(duration) + "-" + contextSer + "-\n";
    }

    /** A new session, which is in no map yet. */
    method CreateSession(requestId: P.RequestId, duration: nat, active: SpanContext) returns (session: Session)
      requires Valid()
      modifies this`sessions
      ensures Valid() && fresh(session) && Owns(session) && session.no == |old(sessions)| && |sessions| == |old(sessions)| + 1
      ensures session.request == "EMULATE_LONG_CALC_OP -" + Decimal(duration) + "-" + TraceInfo(active) + "-\n"
      ensures View() == old(View()).(sessions := old(View()).sessions + [P.NewSession(requestId, duration, active)])
    {
      var request := WriteRequest(duration, active);
      ghost var before := Values(sessions);
      session := new Session(requestId, active, request, |sessions|, P.Request(duration, active));
      sessions := sessions + [session];
      assert Values(sessions) == before + [session.Value()];
    }

    method EmulateLongComputationOp(duration: nat, requestId: P.RequestId, active: SpanContext)
      requires Valid()
      modifies this
      ensures Valid() && View() == A.Started(old(View()), requestId, duration, active)
      ensures |sessions| == |old(sessions)| + 1
      ensures sessions[|old(sessions)|].request == "EMULATE_LONG_CALC_OP -" + Decimal(duration) + "-" + TraceInfo(active) + "-\n"
    {
      var session := CreateSession(requestId, duration, active);
      NumbersWith(activeSessions, requestId, session);
      activeSessions := activeSessions[requestId := session];
      events := events + [P.Inserted(session.no)];
      pending := pending + multiset{P.PendingOp(session.no, P.Connect)};
    }

    /** Gives the work object up; with nothing pending the I/O threads are done, and it returns. */
    method Close()
      requires Valid() && work && !stopped && pending == multiset{}
      modifies this`work, this`stopped
      ensures Valid() && !work && stopped && View() == old(View()).(work := false, stopped := true)
      ensures P.Enabled(old(View()), P.ResetWork)
      ensures P.Enabled(P.Apply(old(View()), P.ResetWork), P.StopIo)
      ensures View() == P.Apply(P.Apply(old(View()), P.ResetWork), P.StopIo)
    {
      work := false;
      stopped := true;
    }

    /** One session's fields are one element of the view. */
    twostate lemma OnlySession(session: Session)
      requires old(Valid()) && old(Owns(session)) && sessions == old(sessions)
      requires forall i :: 0 <= i < |sessions| && sessions[i] != session ==> unchanged(sessions[i])
      ensures Values(sessions) == old(Values(sessions))[session.no := session.Value()]
    {
    }

    method CancelRequest(requestId: P.RequestId)
      requires Valid()
      modifies this`events, if requestId in activeSessions then {activeSessions[requestId]} else {}
      ensures Valid() && View() == A.Cancelled(old(View()), requestId)
    {
      if requestId in activeSessions {
        var session := activeSessions[requestId];
        events := events + [P.Found(session.no)];
        session.wasCancelled := true;
        OnlySession(session);
      }
    }

    method EraseEntry(session: Session)
      requires Valid() && Owns(session)
      modifies this`activeSessions, this`events
      ensures Valid()
      ensures View() == A.Log(old(View()).(active := old(View()).active - {session.id}), P.Erased(session.no))
    {
      NumbersWithout(activeSessions, session.id);
      if session.id in activeSessions {
        activeSessions := activeSessions - {session.id};
      }
      events := events + [P.Erased(session.no)];
    }

    /** Takes the session out of the map and makes out what its callback is told. */
    method OnRequestComplete(session: Session) returns (ec: P.ErrorCode)
      requires Valid() && Owns(session)
      modifies this`activeSessions, this`events
      ensures Valid() && View() == A.Concluded(old(View()), session.no)
      ensures ec == session.Value().Verdict()
    {
      EraseEntry(session);
      if session.ec == P.Success && session.wasCancelled {
        ec := P.OperationAborted;
      } else {
        ec := session.ec;
      }
      events := events + [P.Called(session.no, session.id, session.response, ec)];
    }

    ghost predicate Pending(session: Session, op: P.Operation)
      reads this
    {
      Owns(session) && P.PendingOp(session.no, op) in pending
    }

    /** The event loop delivers the end of an operation to its handler. */
    ghost method Complete(session: Session, c: P.Completion)
      requires Valid() && Pending(session, c.Op())
      modifies this`pending, this`events
      ensures Valid()
      ensures View() == A.Log(old(View()).(queue := old(pending) - multiset{P.PendingOp(session.no, c.Op())}),
                              P.Completed(session.no, c.Op(), c.ec, c.Text(), c.Drawn()))
    {
      pending := pending - multiset{P.PendingOp(session.no, c.Op())};
      events := events + [P.Completed(session.no, c.Op(), c.ec, c.Text(), c.Drawn())];
    }

    /** What the connect and the write handler do with an error. */
    method FailRequest(session: Session, ec: P.ErrorCode) returns (code: P.ErrorCode)
      requires Valid() && Owns(session)
      modifies this`activeSessions, this`events, session
      ensures Valid()
      ensures View() == A.Concluded(A.Put(old(View()), session.no, old(session.Value()).(ec := ec)), session.no)
    {
      session.ec := ec;
      OnlySession(session);
      code := OnRequestComplete(session);
    }

    method ConnectHandler(session: Session, ec: P.ErrorCode, drawn: SpanContext)
      requires Valid() && Pending(session, P.Connect)
      modifies this, session
      ensures Valid() && View() == A.Handled(old(View()), session.no, P.Connected(ec, drawn))
      ensures ec == P.Success && !session.wasCancelled ==>
        session.request == "EMULATE_LONG_CALC_OP -11-" + TraceInfo(P.StartedUnder(session.caller, drawn)) + "-\n"
    {
      Complete(session, P.Connected(ec, drawn));
      if ec != P.Success {
        var code := FailRequest(session, ec);
        return;
      }
      session.drawn := Some(drawn);
      OnlySession(session);
      if session.wasCancelled {
        var code := OnRequestComplete(session);
        return;
      }
      SendRequest(session, drawn);
    }

    /** Starts the handler's span under the captured context and writes its line. */
    method SendRequest(session: Session, drawn: SpanContext)
      requires Valid() && Owns(session) && !session.wasCancelled
      modifies this`pending, session`request, session`parts
      ensures Valid() && View() == A.Resumed(old(View()), session.no, P.AfterConnect(drawn))
      ensures session.request == "EMULATE_LONG_CALC_OP -11-" + TraceInfo(P.StartedUnder(session.caller, drawn)) + "-\n"
    {
      ReplaceRequest(session, P.StartedUnder(session.caller, drawn));
      pending := pending + multiset{P.PendingOp(session.no, P.Write)};
    }

    method ReplaceRequest(session: Session, span: SpanContext)
      requires Valid() && Owns(session)
      modifies session`request, session`parts
      ensures Valid() && session.wasCancelled == old(session.wasCancelled)
      ensures View() == A.Put(old(View()), session.no, old(session.Value()).(request := P.Request(SENT_DURATION, span)))
      ensures session.request == "EMULATE_LONG_CALC_OP -11-" + TraceInfo(span) + "-\n"
    {
      session.request := WriteRequest(SENT_DURATION, span);
      LineText(SENT_DURATION, TraceInfo(span));
      session.parts := P.Request(SENT_DURATION, span);
      OnlySession(session);
    }

    method WriteHandler(session: Session, ec: P.ErrorCode)
      requires Valid() && Pending(session, P.Write)
      modifies this, session
      ensures Valid() && View() == A.Handled(old(View()), session.no, P.Written(ec))
    {
      Complete(session, P.Written(ec));
      if ec != P.Success {
        var code := FailRequest(session, ec);
        return;
      }
      assert A.Put(View(), session.no, session.Value()) == View();
      StartRead(session);
    }

    method StartRead(session: Session)
      requires Valid() && Owns(session)
      modifies this`activeSessions, this`events, this`pending
      ensures Valid() && View() == A.Resumed(old(View()), session.no, P.AfterWrite)
    {
      if session.wasCancelled {
        var code := OnRequestComplete(session);
        return;
      }
      assert A.Put(View(), session.no, session.Value()) == View();
      pending := pending + multiset{P.PendingOp(session.no, P.Read)};
    }

    method ReadHandler(session: Session, ec: P.ErrorCode, line: string)
      requires Valid() && Pending(session, P.Read)
      modifies this, session
      ensures Valid() && View() == A.Handled(old(View()), session.no, P.Received(ec, line))
    {
      Complete(session, P.Received(ec, line));
      StoreResult(session, ec, line);
      var code := OnRequestComplete(session);
    }

    /** The error, or else the line, of a read. */
    method StoreResult(session: Session, ec: P.ErrorCode, line: string)
      requires Valid() && Owns(session)
      modifies session`ec, session`response
      ensures Valid()
      ensures var x := old(session.Value());
              View() == A.Put(old(View()), session.no, if ec != P.Success then x.(ec := ec) else x.(response := line))
    {
      if ec != P.Success {
        session.ec := ec;
      } else {
        session.response := line;
      }
      OnlySession(session);
    }
  }
}
