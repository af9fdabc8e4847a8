/** Well-nested programs of scopes, as C++ destructors make them, leave both stacks as they found them. */
module SpanPrograms {
  import opened Wrappers
  import opened SpanThread
  import opened SpanRuns

  /**
    The statements of a block on one thread.
    `Scope` declares a span, runs `body`, ends the span explicitly if `explicit`, runs
    `rest`, and leaves the scope, which runs the destructor; `Alias` does the same with a
    handle from `GetActiveSpan`. Both go on with `next` after the scope.
   */
  datatype Block =
    | Done
    | Scope(filter: FilterClass, origin: Origin, ids: ValidContext, body: Block, explicit: bool, rest: Block, next: Block)
    | Alias(body: Block, explicit: bool, rest: Block, next: Block)

  function Handles(b: Block): nat {
    if b.Done? then 0 else 1 + Handles(b.body) + Handles(b.rest) + Handles(b.next)
  }

  function EndIf(explicit: bool, t: ThreadId, h: HandleId): seq<Action> {
    if explicit then [End(t, h, [])] else []
  }

  /** What happens between the declaration of the handle and the end of its scope. */
  function Inside(body: seq<Action>, explicit: bool, rest: seq<Action>, t: ThreadId, h: HandleId): seq<Action> {
    body + EndIf(explicit, t, h) + rest + [Drop(t, h, [])]
  }

  /** A whole scope and what follows it. */
  function ScopeActions(
    first: Action, body: seq<Action>, explicit: bool, rest: seq<Action>, next: seq<Action>, t: ThreadId, h: HandleId): seq<Action>
  {
    [first] + Inside(body, explicit, rest, t, h) + next
  }

  function First(b: Block, t: ThreadId, h: HandleId): Action
    requires !b.Done?
  {
    match b
    case Scope(filter, origin, ids, _, _, _, _) => Create(t, h, filter, origin, ids)
    case Alias(_, _, _, _) => GetActive(t, h)
  }

  /** The actions of a block; `h` is the first free handle name. */
  function Actions(b: Block, t: ThreadId, h: HandleId): seq<Action> {
    if b.Done? then []
    else
      var mid := h + 1 + Handles(b.body);
      var free := mid + Handles(b.rest);
      ScopeActions(First(b, t, h), Actions(b.body, t, h + 1), b.explicit, Actions(b.rest, t, mid), Actions(b.next, t, free), t, h)
  }

  predicate CanExec(s: State, actions: seq<Action>)
    decreases |actions|
  {
    actions == [] || (Enabled(s, actions[0]) && CanExec(Apply(s, actions[0]), actions[1..]))
  }

  function Exec(s: State, actions: seq<Action>): State
    requires CanExec(s, actions)
    decreases |actions|
  {
    if actions == [] then s else Exec(Apply(s, actions[0]), actions[1..])
  }

  lemma {:induction false} ExecConcat(s: State, first: seq<Action>, second: seq<Action>)
    requires CanExec(s, first) && CanExec(Exec(s, first), second)
    ensures CanExec(s, first + second) && Exec(s, first + second) == Exec(Exec(s, first), second)
    decreases |first|
  {
    if first == [] {
      assert first + second == second;
    } else {
      ExecConcat(Apply(s, first[0]), first[1..], second);
      assert (first + second)[1..] == first[1..] + second;
    }
  }

  lemma ExecOne(s: State, a: Action)
    requires Enabled(s, a)
    ensures CanExec(s, [a]) && Exec(s, [a]) == Apply(s, a)
  {
  }

  /** Handle names from `h` on are free. */
  ghost predicate Ready(s: State, h: HandleId) {
    s.fault.None? && forall g :: g in s.handles ==> g < h
  }

  /** Everything but one thread's stacks, and every handle below `h`, is as before, and new spans are over. */
  ghost predicate Keeps(s: State, s': State, t: ThreadId, h: HandleId, free: HandleId) {
    && Ready(s', free) && s'.config == s.config
    && (forall u :: u != t ==> Thread(s', u) == Thread(s, u))
    && |Thread(s', t).spans| >= |Thread(s, t).spans|
    && (forall no :: 0 <= no < |Thread(s, t).spans| ==> Thread(s', t).spans[no] == Thread(s, t).spans[no])
    && (forall g :: g < h ==> (g in s'.handles <==> g in s.handles) && (g in s.handles ==> s'.handles[g] == s.handles[g]))
  }

  ghost predicate NoneLeft(s: State, s': State, t: ThreadId, besides: Option<SpanNo>) {
    forall no :: |Thread(s, t).spans| <= no < |Thread(s', t).spans| && besides != Some(no) ==> !Thread(s', t).spans[no].live
  }

  ghost predicate SameStacks(s: State, s': State, t: ThreadId) {
    Thread(s', t).stack == Thread(s, t).stack && Thread(s', t).contexts == Thread(s, t).contexts
  }

  ghost predicate Restores(s: State, s': State, t: ThreadId, h: HandleId, free: HandleId) {
    Keeps(s, s', t, h, free) && NoneLeft(s, s', t, None) && SameStacks(s, s', t)
  }

  /** The span that the handle owns is open on top of both stacks. */
  ghost predicate OpenOnTop(s: State, s': State, t: ThreadId, h: HandleId) {
    var no := |Thread(s, t).spans|;
    && h in s'.handles && s'.handles[h] == Handle(Some(Ref(t, no)), true)
    && no < |Thread(s', t).spans| && Thread(s', t).spans[no].live
    && Thread(s', t).stack == Thread(s, t).stack + [no] && Thread(s', t).contexts == Thread(s, t).contexts + [no]
  }

  /** Within the scope of handle `h`: its span is open on top of both stacks, or the handle does nothing. */
  ghost predicate InScope(s: State, s': State, t: ThreadId, h: HandleId, free: HandleId, open: bool) {
    && Keeps(s, s', t, h, free) && h < free
    && if open then OpenOnTop(s, s', t, h) && NoneLeft(s, s', t, Some(|Thread(s, t).spans|))
       else NoneLeft(s, s', t, None) && SameStacks(s, s', t) && !Potent(s', h)
  }

  lemma RestoresTrans(s: State, mid: State, s': State, t: ThreadId, h: HandleId, free: HandleId, free': HandleId)
    requires Restores(s, mid, t, h, free) && Restores(mid, s', t, free, free') && h <= free
    ensures Restores(s, s', t, h, free')
  {
  }

  lemma ScopeGoesOn(s: State, mid: State, s': State, t: ThreadId, h: HandleId, free: HandleId, free': HandleId, open: bool)
    requires InScope(s, mid, t, h, free, open) && Restores(mid, s', t, free, free') && free <= free'
    ensures InScope(s, s', t, h, free', open)
  {
  }

  lemma ExplicitEnd(s: State, mid: State, t: ThreadId, h: HandleId, free: HandleId, open: bool)
    requires InScope(s, mid, t, h, free, open)
    ensures InScope(s, EndHandle(mid, t, h, []), t, h, free, false)
  {
    if open {
      var no, x, y := |Thread(s, t).spans|, Thread(s, t), Thread(mid, t);
      var s' := EndHandle(mid, t, h, []);
      CloseTop(y, x.stack, x.contexts, no);
      assert s' == SetHandle(SetThread(mid, t, Close(y, no, [])), h, Handle(None, true));
      assert Thread(s', t) == Close(y, no, []);
      assert forall u :: u != t ==> Thread(s', u) == Thread(mid, u);
    } else {
      assert EndHandle(mid, t, h, []) == mid;
    }
  }

  /** Ending the span on top of both stacks pops exactly it. */
  lemma CloseTop(y: ThreadState, stack: seq<SpanNo>, contexts: seq<SpanNo>, no: SpanNo)
    requires no < |y.spans| && y.stack == stack + [no] && y.contexts == contexts + [no]
    ensures var z := Close(y, no, []);
            && z.stack == stack && z.contexts == contexts && |z.spans| == |y.spans|
            && !z.spans[no].live && forall m :: 0 <= m < |y.spans| && m != no ==> z.spans[m] == y.spans[m]
  {
  }

  lemma LeaveScope(s: State, mid: State, t: ThreadId, h: HandleId, free: HandleId, open: bool)
    requires InScope(s, mid, t, h, free, open)
    ensures Restores(s, Apply(mid, Drop(t, h, [])), t, h, free)
  {
    ExplicitEnd(s, mid, t, h, free, open);
  }

  lemma EnterScope(s: State, a: Action)
    requires (a.Create? || a.GetActive?) && Ready(s, a.handle) && Enabled(s, a)
    ensures InScope(s, Apply(s, a), a.thread, a.handle, a.handle + 1, a.Create? && CreatesSpan(s, a))
  {
  }

  /** The inside of a scope, composed of its parts. */
  lemma InsideExec(s1: State, s2: State, s4: State, body: seq<Action>, explicit: bool, rest: seq<Action>, t: ThreadId, h: HandleId)
    requires CanExec(s1, body) && Exec(s1, body) == s2 && s2.fault.None?
    requires var s3 := if explicit then EndHandle(s2, t, h, []) else s2; CanExec(s3, rest) && Exec(s3, rest) == s4
    requires s4.fault.None?
    ensures var inside := Inside(body, explicit, rest, t, h);
            CanExec(s1, inside) && Exec(s1, inside) == Apply(s4, Drop(t, h, []))
  {
    if explicit {
      ExecOne(s2, End(t, h, []));
    }
    ExecConcat(s1, body, EndIf(explicit, t, h));
    ExecConcat(s1, body + EndIf(explicit, t, h), rest);
    ExecOne(s4, Drop(t, h, []));
    ExecConcat(s1, body + EndIf(explicit, t, h) + rest, [Drop(t, h, [])]);
  }

  /** The actions can run, and restore the stacks. */
  ghost predicate Runs(s: State, actions: seq<Action>, t: ThreadId, h: HandleId, free: HandleId) {
    CanExec(s, actions) && Restores(s, Exec(s, actions), t, h, free)
  }

  lemma RunsThen(s: State, first: seq<Action>, second: seq<Action>, t: ThreadId, h: HandleId, mid: HandleId, free: HandleId)
    requires h <= mid && Runs(s, first, t, h, mid) && Runs(Exec(s, first), second, t, mid, free)
    ensures Runs(s, first + second, t, h, free)
  {
    ExecConcat(s, first, second);
    RestoresTrans(s, Exec(s, first), Exec(Exec(s, first), second), t, h, mid, free);
  }

  /** The state in which the rest of a scope starts. */
  function AfterBody(s2: State, explicit: bool, t: ThreadId, h: HandleId): State {
    if explicit then EndHandle(s2, t, h, []) else s2
  }

  lemma BodyDone(s: State, a: Action, body: seq<Action>, mid: HandleId, explicit: bool) returns (open: bool)
    requires (a.Create? || a.GetActive?) && Ready(s, a.handle) && Enabled(s, a) && a.handle + 1 <= mid
    requires Runs(Apply(s, a), body, a.thread, a.handle + 1, mid)
    ensures InScope(s, AfterBody(Exec(Apply(s, a), body), explicit, a.thread, a.handle), a.thread, a.handle, mid, open)
  {
    var s2 := Exec(Apply(s, a), body);
    open := a.Create? && CreatesSpan(s, a);
    EnterScope(s, a);
    ScopeGoesOn(s, Apply(s, a), s2, a.thread, a.handle, a.handle + 1, mid, open);
    if explicit {
      ExplicitEnd(s, s2, a.thread, a.handle, mid, open);
      open := false;
    }
  }

  /** One scope that is entered by `a`, with what its parts do given. */
  lemma ScopeRuns(s: State, a: Action, body: seq<Action>, mid: HandleId, explicit: bool, rest: seq<Action>, free: HandleId)
    requires (a.Create? || a.GetActive?) && Ready(s, a.handle) && Enabled(s, a) && a.handle + 1 <= mid <= free
    requires Runs(Apply(s, a), body, a.thread, a.handle + 1, mid)
    requires Exec(Apply(s, a), body).fault.None?
    requires Runs(AfterBody(Exec(Apply(s, a), body), explicit, a.thread, a.handle), rest, a.thread, mid, free)
    ensures Runs(s, [a] + Inside(body, explicit, rest, a.thread, a.handle), a.thread, a.handle, free)
  {
    var t, h, s1 := a.thread, a.handle, Apply(s, a);
    var s2 := Exec(s1, body);
    var s3 := AfterBody(s2, explicit, t, h);
    var s4 := Exec(s3, rest);
    var open := BodyDone(s, a, body, mid, explicit);
    ScopeGoesOn(s, s3, s4, t, h, mid, free, open);
    LeaveScope(s, s4, t, h, free, open);
    InsideExec(s1, s2, s4, body, explicit, rest, t, h);
    ExecOne(s, a);
    ExecConcat(s, [a], Inside(body, explicit, rest, t, h));
  }

  lemma RestReady(s: State, a: Action, body: seq<Action>, mid: HandleId, explicit: bool)
    requires (a.Create? || a.GetActive?) && Ready(s, a.handle) && Enabled(s, a) && a.handle + 1 <= mid
    requires Runs(Apply(s, a), body, a.thread, a.handle + 1, mid)
    ensures Ready(AfterBody(Exec(Apply(s, a), body), explicit, a.thread, a.handle), mid)
  {
    var open := BodyDone(s, a, body, mid, explicit);
  }

  lemma NextReady(s: State, a: Action, body: seq<Action>, mid: HandleId, explicit: bool, rest: seq<Action>, free: HandleId)
    requires (a.Create? || a.GetActive?) && Ready(s, a.handle) && Enabled(s, a) && a.handle + 1 <= mid <= free
    requires Runs(Apply(s, a), body, a.thread, a.handle + 1, mid)
    requires Runs(AfterBody(Exec(Apply(s, a), body), explicit, a.thread, a.handle), rest, a.thread, mid, free)
    ensures var scope := [a] + Inside(body, explicit, rest, a.thread, a.handle);
            CanExec(s, scope) && Ready(Exec(s, scope), free)
  {
    ScopeRuns(s, a, body, mid, explicit, rest, free);
  }

  /** The actions restore the stacks from every state whose handle names are free from `h` on. */
  ghost predicate AlwaysRuns(actions: seq<Action>, t: ThreadId, h: HandleId, free: HandleId) {
    h <= free && forall s :: Ready(s, h) ==> Runs(s, actions, t, h, free)
  }

  lemma ScopeAlwaysRuns(
    s: State, a: Action, t: ThreadId, h: HandleId, body: seq<Action>, mid: HandleId, explicit: bool, rest: seq<Action>,
    free: HandleId, next: seq<Action>, last: HandleId)
    requires (a.Create? || a.GetActive?) && a.thread == t && a.handle == h && Ready(s, h) && Enabled(s, a)
    requires AlwaysRuns(body, t, h + 1, mid) && AlwaysRuns(rest, t, mid, free) && AlwaysRuns(next, t, free, last)
    ensures Runs(s, ScopeActions(a, body, explicit, rest, next, t, h), t, h, last)
  {
    var scope := [a] + Inside(body, explicit, rest, t, h);
    EnterScope(s, a);
    assert Ready(Apply(s, a), h + 1);
    RestReady(s, a, body, mid, explicit);
    NextReady(s, a, body, mid, explicit, rest, free);
    ScopeRuns(s, a, body, mid, explicit, rest, free);
    RunsThen(s, scope, next, t, h, free, last);
  }

  lemma FirstEnabled(s: State, b: Block, t: ThreadId, h: HandleId)
    requires !b.Done? && Ready(s, h)
    ensures var a := First(b, t, h); (a.Create? || a.GetActive?) && a.thread == t && a.handle == h && Enabled(s, a)
  {
  }

  /** One scope and what follows it, from any state in which the handle names are free. */
  lemma ScopeFromAnywhere(
    b: Block, t: ThreadId, h: HandleId, body: seq<Action>, mid: HandleId, rest: seq<Action>, free: HandleId,
    next: seq<Action>, last: HandleId)
    requires !b.Done? && AlwaysRuns(body, t, h + 1, mid) && AlwaysRuns(rest, t, mid, free)
    requires AlwaysRuns(next, t, free, last)
    ensures AlwaysRuns(ScopeActions(First(b, t, h), body, b.explicit, rest, next, t, h), t, h, last)
  {
    forall s | Ready(s, h)
      ensures Runs(s, ScopeActions(First(b, t, h), body, b.explicit, rest, next, t, h), t, h, last)
    {
      FirstEnabled(s, b, t, h);
      ScopeAlwaysRuns(s, First(b, t, h), t, h, body, mid, b.explicit, rest, free, next, last);
    }
  }

  /**
    Any well-nested program leaves both stacks of its thread exactly as they were, every
    span it created ended, and the other threads and all older handles untouched: with
    disabled and undecodable spans, explicit ends before the destructor, and aliases that
    are ended or dropped anywhere.
   */
  lemma {:induction false} ProgramsRestoreStacks(b: Block, t: ThreadId, h: HandleId)
    ensures AlwaysRuns(Actions(b, t, h), t, h, h + Handles(b))
    decreases b
  {
    if !b.Done? {
      var mid := h + 1 + Handles(b.body);
      var free := mid + Handles(b.rest);
      ProgramsRestoreStacks(b.body, t, h + 1);
      ProgramsRestoreStacks(b.rest, t, mid);
      ProgramsRestoreStacks(b.next, t, free);
      ScopeFromAnywhere(b, t, h, Actions(b.body, t, h + 1), mid, Actions(b.rest, t, mid), free,
                        Actions(b.next, t, free), h + Handles(b));
    }
  }
}
