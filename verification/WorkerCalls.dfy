/**
 The handler calls of a run: a failed task blocks the queue until it succeeds, is
 retried with everything it has absorbed so far, and never before its delay is over.
 */
module WorkerCalls {
  import opened Sequences
  import opened BindingContexts
  import opened Tasks
  import opened Backoff
  import opened WorkerMachine
  import opened WorkerLedger

  /** How often the task has failed in these calls. */
  function Fails(calls: seq<Call>, id: string): (n: nat)
  {
    if calls == [] then 0
    else var last := calls[|calls| - 1];
      Fails(calls[..|calls| - 1], id) + if last.id == id && last.status == Fail then 1 else 0
  }

  lemma FailsSnoc(calls: seq<Call>, c: Call, id: string)
    ensures Fails(calls + [c], id) == Fails(calls, id) + if c.id == id && c.status == Fail then 1 else 0
  {
    assert (calls + [c])[..|calls|] == calls;
  }

  lemma {:induction false} FailsOfUnknown(calls: seq<Call>, id: string)
    requires forall i :: 0 <= i < |calls| ==> calls[i].id != id
    ensures Fails(calls, id) == 0
  {
    if calls != [] {
      FailsOfUnknown(calls[..|calls| - 1], id);
    }
  }

  // ---------- Invariants ----------

  /** When the worker may call the handler again, at the earliest. */
  function EarliestCall(s: State): nat {
    match s.worker
    case Waiting(d) => s.clock + d
    case Sleeping(u) => u
    case Taken(_, since) => since
    case Scanned(_, _, since) => since
    case Running(_, since) => since
    case Appending(_, _, _, d) => s.clock + d
    case Pushing(_, d) => s.clock + d
    case Stopped => s.clock
  }

  /** The failure counters are exact, and only queued tasks were ever handled. */
  ghost predicate CountersInv(s: State) {
    && (forall i :: 0 <= i < |s.items| ==> s.items[i].failures == Fails(s.calls, s.items[i].id))
    && (forall j :: 0 <= j < |s.calls| ==> s.calls[j].id in s.seen)
  }

  /** An unsuccessful last call leaves its task, with all it absorbed, at the head. */
  ghost predicate HeadInv(s: State) {
    s.calls != [] ==>
      var c := s.calls[|s.calls| - 1];
      && (c.status != Success ==>
            && !s.worker.Appending? && !s.worker.Pushing?
            && s.items != [] && s.blocks != [] && s.items[0].id == c.id && c.merged <= s.blocks[0])
      && (!s.worker.Stopped? ==> c.ended + c.delay <= EarliestCall(s))
  }

  /** What the successful calls were about, in order. */
  function Successes(calls: seq<Call>): (r: seq<seq<Task>>)
  {
    if calls == [] then []
    else var last := calls[|calls| - 1];
      Successes(calls[..|calls| - 1]) + if last.status == Success then [last.merged] else []
  }

  /** The finished blocks are the successfully handled ones. */
  ghost predicate FinishedInv(s: State) {
    && (s.worker.Appending? ==> s.blocks != [])
    && Successes(s.calls) == s.finished + if s.worker.Appending? then [s.blocks[0]] else []
  }

  ghost predicate DoneInv(s: State) {
    forall j :: 0 <= j < |s.calls| && s.calls[j].status == Success ==>
      if s.worker.Appending? && s.worker.id == s.calls[j].id then j == |s.calls| - 1
      else forall i :: 0 <= i < |s.items| ==> s.items[i].id != s.calls[j].id
  }

  /** One call on its own: what the hook received and how the delay came about. */
  ghost predicate GoodCall(before: seq<Call>, c: Call) {
    && OneHook(c.merged) && c.merged[0].id == c.id
    && c.contexts == Folded(c.merged)
    && c.failures == Fails(before, c.id)
    && c.started <= c.ended
  }

  /** A failure without a delay of the handler's own backs off exponentially. */
  ghost predicate BacksOff(c: Call) {
    && IsRandomMs(c.rnd)
    && (c.status == Fail && c.requestedDelay == 0 ==>
        c.delay == CalculateDelay(DELAY_ON_FAILED_TASK, c.failures, c.rnd))
  }

  ghost predicate DelaysInv(s: State) {
    forall j :: 0 <= j < |s.calls| ==> BacksOff(s.calls[j])
  }

  /** A call and the one before it. */
  ghost predicate GoodSuccession(prev: Call, next: Call) {
    && (prev.status != Success ==> next.id == prev.id && prev.merged <= next.merged)
    && prev.ended + prev.delay <= next.started
  }

  ghost predicate LogInv(calls: seq<Call>) {
    && (forall j :: 0 <= j < |calls| ==> GoodCall(calls[..j], calls[j]))
    && (forall j :: 0 <= j < |calls| - 1 ==> GoodSuccession(calls[j], calls[j + 1]))
    && (forall i, j :: 0 <= i < j < |calls| && calls[i].status == Success ==> calls[j].id != calls[i].id)
  }

  ghost predicate StartedInv(s: State) {
    match s.worker
    case Taken(_, since) => since <= s.clock
    case Scanned(_, _, since) => since <= s.clock
    case Running(_, since) => since <= s.clock
    case _ => true
  }

  // ---------- Steps that return no call ----------

  /** Apart from removing or pushing, a step leaves the head in place and only adds to its block. */
  lemma HeadStays(cfg: Config, s: State, l: Label)
    requires Inv(s) && Enabled(s, l) && !l.RemoveHead? && !l.PushHead? && !l.Return? && s.items != []
    ensures var s' := Step(cfg, s, l);
      && s'.items != [] && s'.blocks != []
      && s'.items[0].id == s.items[0].id && s.blocks[0] <= s'.blocks[0]
  {
    hide IsBlockOf;
    if l.FilterQueue? {
      FilterShape(s);
      FilterBlocks(s);
      var n := 1 + |s.worker.others|;
      assert s.blocks[..n] == [s.blocks[0]] + s.blocks[1..n];
      FlattenAppend([s.blocks[0]], s.blocks[1..n]);
      FlattenOne(s.blocks[0]);
    }
  }

  lemma CallsUnchanged(cfg: Config, s: State, l: Label)
    requires Enabled(s, l) && !l.Return?
    ensures Step(cfg, s, l).calls == s.calls
    ensures s.seen <= Step(cfg, s, l).seen
  {
  }

  /** Time only postpones the next call. */
  lemma EarliestCallGrows(cfg: Config, s: State, l: Label)
    requires Enabled(s, l) && !l.Return? && StartedInv(s) && !l.Halt? && !s.worker.Stopped?
    ensures EarliestCall(s) <= EarliestCall(Step(cfg, s, l)) && !Step(cfg, s, l).worker.Stopped?
  {
  }

  lemma HeadKept(cfg: Config, s: State, l: Label)
    requires Inv(s) && HeadInv(s) && StartedInv(s) && Enabled(s, l) && !l.Return?
    ensures HeadInv(Step(cfg, s, l))
  {
    CallsUnchanged(cfg, s, l);
    if s.calls != [] {
      if !l.Halt? && !s.worker.Stopped? {
        EarliestCallGrows(cfg, s, l);
      }
      StoppedStays(cfg, s, l);
      if s.calls[|s.calls| - 1].status != Success {
        HeadStays(cfg, s, l);
        NotFinishing(cfg, s, l);
      }
    }
  }

  lemma StoppedStays(cfg: Config, s: State, l: Label)
    requires Enabled(s, l)
    ensures l.Halt? || s.worker.Stopped? ==> Step(cfg, s, l).worker.Stopped?
  {
  }

  lemma NotFinishing(cfg: Config, s: State, l: Label)
    requires Enabled(s, l) && !l.Return? && !s.worker.Appending? && !s.worker.Pushing?
    ensures !Step(cfg, s, l).worker.Appending? && !Step(cfg, s, l).worker.Pushing?
  {
  }

  /** Ids only enter a queue fresh, and failure counters change with a returned call only. */
  ghost predicate OldOrFresh(s: State, t: Task) {
    (t.id !in s.seen && t.failures == 0)
    || exists j :: 0 <= j < |s.items| && s.items[j].id == t.id && s.items[j].failures == t.failures
  }

  lemma AddedIsFresh(s: State, t: Task)
    requires t.id !in s.seen && t.failures == 0
    ensures forall i :: 0 <= i < |AddLast(s, t).items| ==> OldOrFresh(s, AddLast(s, t).items[i])
    ensures forall i :: 0 <= i < |AddFirst(s, t).items| ==> OldOrFresh(s, AddFirst(s, t).items[i])
  {
    assert OldOrFresh(s, t);
    forall i | 0 <= i < |s.items| ensures OldOrFresh(s, s.items[i]) {
    }
  }

  lemma MergedIsOld(s: State, n: nat, t: Task)
    requires 0 < n <= |s.items| && t.id == s.items[0].id && t.failures == s.items[0].failures
    ensures forall x :: x in [t] + s.items[n..] ==> OldOrFresh(s, x)
  {
  }

  lemma FilteredIsOld(s: State)
    requires Inv(s) && s.worker.Scanned?
    ensures forall i :: 0 <= i < |StepFilter(s).items| ==> OldOrFresh(s, StepFilter(s).items[i])
  {
    hide IsBlockOf;
    FilterShape(s);
    MergedIsOld(s, 1 + |s.worker.others|, StepFilter(s).items[0]);
  }

  lemma RemainingIsOld(s: State)
    requires Inv(s) && s.worker.Appending?
    ensures forall i :: 0 <= i < |StepRemove(s).items| ==> OldOrFresh(s, StepRemove(s).items[i])
  {
    hide IsBlockOf;
    RemoveShape(s);
    forall i | 0 <= i < |StepRemove(s).items| ensures OldOrFresh(s, StepRemove(s).items[i]) {
      assert StepRemove(s).items[i] == s.items[1 + i];
    }
  }

  lemma SameItemsAreOld(s: State, s': State)
    requires s'.items == s.items
    ensures forall i :: 0 <= i < |s'.items| ==> OldOrFresh(s, s'.items[i])
  {
  }

  lemma ItemsOldOrFresh(cfg: Config, s: State, l: Label)
    requires Inv(s) && Enabled(s, l) && !l.Return?
    ensures var s' := Step(cfg, s, l); forall i :: 0 <= i < |s'.items| ==> OldOrFresh(s, s'.items[i])
  {
    hide IsBlockOf;
    if l.Arrive? {
      AddedIsFresh(s, l.task);
    } else if l.FilterQueue? {
      FilteredIsOld(s);
    } else if l.RemoveHead? {
      RemainingIsOld(s);
    } else if l.AppendTail? {
      assert Pending(s.worker)[0] == s.worker.tails[0];
      AddedIsFresh(s, s.worker.tails[0]);
    } else if l.PushHead? {
      assert Pending(s.worker)[0] == s.worker.heads[0];
      AddedIsFresh(s, s.worker.heads[0]);
    } else {
      SameItemsAreOld(s, Step(cfg, s, l));
    }
  }

  lemma CountersKept(cfg: Config, s: State, l: Label)
    requires Inv(s) && CountersInv(s) && Enabled(s, l) && !l.Return?
    ensures CountersInv(Step(cfg, s, l))
  {
    hide IsBlockOf;
    CallsUnchanged(cfg, s, l);
    ItemsOldOrFresh(cfg, s, l);
    var s' := Step(cfg, s, l);
    forall i | 0 <= i < |s'.items| ensures s'.items[i].failures == Fails(s'.calls, s'.items[i].id) {
      var t := s'.items[i];
      assert OldOrFresh(s, t);
      if t.id !in s.seen {
        FailsOfUnknown(s.calls, t.id);
      }
    }
  }

  /** The head is removed, so its id is gone. */
  lemma DoneWhenRemoved(s: State)
    requires Inv(s) && DoneInv(s) && Enabled(s, RemoveHead)
    ensures DoneInv(StepRemove(s))
  {
    hide IsBlockOf;
    RemoveShape(s);
    var s' := StepRemove(s);
    assert s'.items == s.items[1..] && s'.calls == s.calls;
    assert forall i :: 0 <= i < |s'.items| ==> s'.items[i] == s.items[1 + i];
  }

  lemma DoneKept(cfg: Config, s: State, l: Label)
    requires Inv(s) && CountersInv(s) && DoneInv(s) && Enabled(s, l) && !l.Return?
    ensures DoneInv(Step(cfg, s, l))
  {
    hide Inv;
    if l.RemoveHead? {
      DoneWhenRemoved(s);
    } else {
      CallsUnchanged(cfg, s, l);
      ItemsOldOrFresh(cfg, s, l);
      var s' := Step(cfg, s, l);
      forall i | 0 <= i < |s'.items| ensures OldOrFresh(s, s'.items[i]) {}
    }
  }

  lemma FinishedKept(cfg: Config, s: State, l: Label)
    requires Inv(s) && FinishedInv(s) && Enabled(s, l) && !l.Return?
    ensures FinishedInv(Step(cfg, s, l))
  {
    hide IsBlockOf;
    CallsUnchanged(cfg, s, l);
    if l.RemoveHead? {
      RemoveShape(s);
    }
  }

  // ---------- A returning call ----------

  lemma ReturnFinished(s: State, r: TaskResult, rnd: int, d: nat)
    requires Inv(s) && FinishedInv(s) && s.worker.Running?
    ensures FinishedInv(ReturnWith(s, r, rnd, d))
  {
    hide IsBlockOf;
    var s' := ReturnWith(s, r, rnd, d);
    assert s'.calls[..|s.calls|] == s.calls;
  }

  /** The record that a returning handler leaves behind. */
  function NewCall(s: State, r: TaskResult, rnd: int, d: nat): Call
    requires s.worker.Running? && s.items != [] && s.blocks != []
  {
    Call(s.worker.id, Contexts(s.items[0]), s.blocks[0], s.items[0].failures, r.status,
         r.delayBeforeNextTask, rnd, s.worker.since, s.clock, d)
  }

  lemma NewCallIsGood(s: State, r: TaskResult, rnd: int, d: nat)
    requires Inv(s) && CountersInv(s) && StartedInv(s) && s.worker.Running?
    ensures GoodCall(s.calls, NewCall(s, r, rnd, d))
  {
    assert IsBlockOf(s.blocks[0], s.items[0]);
  }

  lemma NewCallSucceeds(s: State, r: TaskResult, rnd: int, d: nat)
    requires Inv(s) && DoneInv(s) && HeadInv(s) && s.worker.Running?
    ensures var c := NewCall(s, r, rnd, d);
      && (s.calls != [] ==> GoodSuccession(s.calls[|s.calls| - 1], c))
      && forall i :: 0 <= i < |s.calls| && s.calls[i].status == Success ==> c.id != s.calls[i].id
  {
  }

  lemma LogSnoc(calls: seq<Call>, c: Call)
    requires LogInv(calls) && GoodCall(calls, c)
    requires calls != [] ==> GoodSuccession(calls[|calls| - 1], c)
    requires forall i :: 0 <= i < |calls| && calls[i].status == Success ==> c.id != calls[i].id
    ensures LogInv(calls + [c])
  {
    hide GoodCall, GoodSuccession;
    var all := calls + [c];
    assert all[..|calls|] == calls;
    forall j | 0 <= j < |all| ensures GoodCall(all[..j], all[j]) {
      if j < |calls| {
        assert all[..j] == calls[..j];
      }
    }
  }

  lemma ReturnLogged(s: State, r: TaskResult, rnd: int, d: nat)
    requires Inv(s) && CountersInv(s) && DoneInv(s) && HeadInv(s) && LogInv(s.calls) && StartedInv(s)
    requires s.worker.Running?
    ensures LogInv(ReturnWith(s, r, rnd, d).calls)
  {
    NewCallIsGood(s, r, rnd, d);
    NewCallSucceeds(s, r, rnd, d);
    LogSnoc(s.calls, NewCall(s, r, rnd, d));
  }

  lemma ReturnDelays(s: State, r: TaskResult, rnd: int)
    requires DelaysInv(s) && s.worker.Running? && IsRandomMs(rnd)
    ensures DelaysInv(StepReturn(s, r, rnd))
  {
  }

  lemma ReturnCounted(s: State, r: TaskResult, rnd: int, d: nat)
    requires Inv(s) && CountersInv(s) && s.worker.Running?
    ensures CountersInv(ReturnWith(s, r, rnd, d))
  {
    hide Fails;
    hide IsBlockOf;
    var s' := ReturnWith(s, r, rnd, d);
    var c := s'.calls[|s.calls|];
    assert s'.calls == s.calls + [c];
    forall i | 0 <= i < |s'.items| ensures s'.items[i].failures == Fails(s'.calls, s'.items[i].id) {
      FailsSnoc(s.calls, c, s.items[i].id);
      if i > 0 {
        assert s'.items[i] == s.items[i];
      }
    }
  }

  lemma ReturnHeaded(s: State, r: TaskResult, rnd: int, d: nat)
    requires s.items != [] && s.blocks != [] && s.worker.Running? && s.items[0].id == s.worker.id
    ensures HeadInv(ReturnWith(s, r, rnd, d)) && StartedInv(ReturnWith(s, r, rnd, d))
  {
  }

  lemma ReturnDone(s: State, r: TaskResult, rnd: int, d: nat)
    requires s.items != [] && s.blocks != [] && s.worker.Running? && s.items[0].id == s.worker.id
    requires DistinctIds(s.items) && DoneInv(s)
    ensures DoneInv(ReturnWith(s, r, rnd, d))
  {
    var s' := ReturnWith(s, r, rnd, d);
    forall i | 0 <= i < |s'.items| ensures s'.items[i].id == s.items[i].id {
    }
    forall j | 0 <= j < |s.calls| && s.calls[j].status == Success
      ensures s'.calls[j] == s.calls[j] && forall i :: 0 <= i < |s'.items| ==> s'.items[i].id != s.calls[j].id
    {
    }
  }

  // ---------- Whole runs ----------

  ghost predicate CallsInv(s: State) {
    CountersInv(s) && HeadInv(s) && DoneInv(s) && LogInv(s.calls) && StartedInv(s) && DelaysInv(s) && FinishedInv(s)
  }

  lemma StepKeepsCalls(cfg: Config, s: State, l: Label)
    requires Inv(s) && CallsInv(s) && Enabled(s, l)
    ensures CallsInv(Step(cfg, s, l))
  {
    hide CountersInv;
    hide DoneInv;
    hide LogInv;
    hide FinishedInv;
    hide HeadInv;
    hide IsBlockOf;
    if l.Return? {
      var d := NextDelay(l.result, s.items[0].failures, l.rnd);
      ReturnLogged(s, l.result, l.rnd, d);
      ReturnCounted(s, l.result, l.rnd, d);
      ReturnHeaded(s, l.result, l.rnd, d);
      ReturnDone(s, l.result, l.rnd, d);
      ReturnDelays(s, l.result, l.rnd);
      ReturnFinished(s, l.result, l.rnd, d);
    } else {
      CallsUnchanged(cfg, s, l);
      CountersKept(cfg, s, l);
      HeadKept(cfg, s, l);
      DoneKept(cfg, s, l);
      FinishedKept(cfg, s, l);
    }
  }

  lemma {:induction false} RunKeepsCalls(cfg: Config, s: State, run: seq<Label>)
    requires Inv(s) && CallsInv(s) && Executable(cfg, s, run)
    ensures CallsInv(Execute(cfg, s, run))
    decreases |run|
  {
    if run != [] {
      StepKeepsInv(cfg, s, run[0]);
      StepKeepsCalls(cfg, s, run[0]);
      RunKeepsCalls(cfg, Step(cfg, s, run[0]), run[1..]);
    }
  }

  lemma RunIsLogged(cfg: Config, items: seq<Task>, run: seq<Label>)
    requires ValidStart(items) && Executable(cfg, Start(items), run)
    ensures CallsInv(Execute(cfg, Start(items), run)) && Inv(Execute(cfg, Start(items), run))
  {
    hide IsBlockOf;
    StartIsGood(items);
    RunKeepsCalls(cfg, Start(items), run);
    RunKeepsInv(cfg, Start(items), run);
  }

  /** In any run: until a call of a task succeeds, the handler gets this task again and
      again, and once it has succeeded, never again. */
  lemma HeadBlocksQueue(cfg: Config, items: seq<Task>, run: seq<Label>, i: nat, j: nat)
    requires ValidStart(items) && Executable(cfg, Start(items), run)
    requires i < j < |Execute(cfg, Start(items), run).calls|
    ensures var calls := Execute(cfg, Start(items), run).calls;
      && ((forall k :: i <= k < j ==> calls[k].status != Success) ==> calls[j].id == calls[i].id)
      && (calls[i].status == Success ==> calls[j].id != calls[i].id)
  {
    RunIsLogged(cfg, items, run);
    var calls := Execute(cfg, Start(items), run).calls;
    if forall k :: i <= k < j ==> calls[k].status != Success {
      RetriesStay(calls, i, j);
    }
  }

  lemma {:induction false} RetriesStay(calls: seq<Call>, i: nat, j: nat)
    requires LogInv(calls) && i <= j < |calls|
    requires forall k :: i <= k < j ==> calls[k].status != Success
    ensures calls[j].id == calls[i].id && calls[i].merged <= calls[j].merged
    decreases j - i
  {
    if i < j {
      RetriesStay(calls, i, j - 1);
      assert GoodSuccession(calls[j - 1], calls[j - 1 + 1]);
    }
  }

  lemma {:induction false} FailsGrow(calls: seq<Call>, id: string, i: nat, j: nat)
    requires i <= j <= |calls|
    ensures Fails(calls[..i], id) <= Fails(calls[..j], id)
    ensures i < j && calls[i].id == id && calls[i].status == Fail ==> Fails(calls[..i], id) < Fails(calls[..j], id)
    decreases j - i
  {
    if i < j {
      FailsGrow(calls, id, i, j - 1);
      assert calls[..j] == calls[..j - 1] + [calls[j - 1]];
      FailsSnoc(calls[..j - 1], calls[j - 1], id);
    }
  }

  /** Everything absorbed on the way reaches the hook: on each call it receives the original
      contexts of the merged tasks, compacted once, however often the task failed and absorbed
      newcomers before. A task that absorbed nothing is passed on unchanged. */
  lemma HookSeesAllAbsorbed(cfg: Config, items: seq<Task>, run: seq<Label>, i: nat, j: nat)
    requires ValidStart(items) && Executable(cfg, Start(items), run)
    requires i <= j < |Execute(cfg, Start(items), run).calls|
    ensures var calls := Execute(cfg, Start(items), run).calls;
      && OneHook(calls[j].merged) && calls[j].merged[0].id == calls[j].id
      && calls[j].contexts == (if |calls[j].merged| == 1 then Contexts(calls[j].merged[0])
                               else Compact(AllContexts(calls[j].merged)))
      && ((forall k :: i <= k < j ==> calls[k].status != Success) ==> calls[i].merged <= calls[j].merged)
  {
    RunIsLogged(cfg, items, run);
    var calls := Execute(cfg, Start(items), run).calls;
    assert GoodCall(calls[..j], calls[j]);
    if forall k :: i <= k < j ==> calls[k].status != Success {
      RetriesStay(calls, i, j);
    }
  }

  /** The worker sleeps at least the chosen delay before it calls the handler again. */
  lemma DelayIsRespected(cfg: Config, items: seq<Task>, run: seq<Label>, i: nat)
    requires ValidStart(items) && Executable(cfg, Start(items), run)
    requires i < |Execute(cfg, Start(items), run).calls| - 1
    ensures var calls := Execute(cfg, Start(items), run).calls;
      calls[i].ended + calls[i].delay <= calls[i + 1].started
  {
    RunIsLogged(cfg, items, run);
    var calls := Execute(cfg, Start(items), run).calls;
    assert GoodSuccession(calls[i], calls[i + 1]);
  }

  /** Over the consecutive failures of one task, for every random choice, the delays start
      from 5s, never shrink, and from the seventh failure on are exactly 32s. */
  lemma RetriesBackOff(cfg: Config, items: seq<Task>, run: seq<Label>, i: nat, j: nat)
    requires ValidStart(items) && Executable(cfg, Start(items), run)
    requires i < j < |Execute(cfg, Start(items), run).calls|
    requires var calls := Execute(cfg, Start(items), run).calls;
      && (forall k :: i <= k < j ==> calls[k].status != Success)
      && calls[i].status == Fail && calls[i].requestedDelay == 0
      && calls[j].status == Fail && calls[j].requestedDelay == 0
    ensures var calls := Execute(cfg, Start(items), run).calls;
      && DELAY_ON_FAILED_TASK <= calls[i].delay <= calls[j].delay <= MAX_DELAY
      && (Fails(calls[..j], calls[j].id) >= 6 ==> calls[j].delay == MAX_DELAY)
  {
    RunIsLogged(cfg, items, run);
    var calls := Execute(cfg, Start(items), run).calls;
    RetriesStay(calls, i, j);
    FailsGrow(calls, calls[i].id, i, j);
    assert GoodCall(calls[..i], calls[i]) && GoodCall(calls[..j], calls[j]);
    assert BacksOff(calls[i]) && BacksOff(calls[j]);
    NextRetryWaitsLonger(DELAY_ON_FAILED_TASK, calls[i].failures, calls[j].failures, calls[i].rnd, calls[j].rnd);
    DelayRange(DELAY_ON_FAILED_TASK, calls[i].failures, calls[i].rnd);
    DelayRange(DELAY_ON_FAILED_TASK, calls[j].failures, calls[j].rnd);
  }

  /** Without head tasks, the successful calls take the tasks strictly in order of arrival:
      unfolding what each of them merged, followed by what is unfinished, gives back the
      arrivals. */
  lemma HookServesInArrivalOrder(cfg: Config, items: seq<Task>, run: seq<Label>)
    requires ValidStart(items) && Executable(cfg, Start(items), run) && NoHeadTasks(run)
    ensures var s := Execute(cfg, Start(items), run);
      && (s.worker.Appending? ==> s.blocks != [])
      && s.queued == Flatten(Successes(s.calls)) + Flatten(if s.worker.Appending? then s.blocks[1..] else s.blocks)
  {
    hide Execute, Executable, ValidStart, NoHeadTasks, Inv, LogInv;
    RunIsLogged(cfg, items, run);
    ServedInArrivalOrder(cfg, items, run);
    var s := Execute(cfg, Start(items), run);
    if s.worker.Appending? {
      FlattenSnoc(s.finished, s.blocks[0]);
    } else {
      assert Successes(s.calls) == s.finished;
    }
  }

  /** On an empty queue the worker looks again after three seconds. */
  lemma EmptyQueueIsPolled(cfg: Config, s: State, elapsed: nat)
    requires s.worker == Waiting(0) && s.items == []
    ensures Enabled(s, Doze) && !Enabled(s, Take)
    ensures var dozing := Step(cfg, s, Doze);
      var later := Step(cfg, dozing, Tick(elapsed));
      (Enabled(later, Wake) <==> elapsed >= 3_000_000_000) && !Enabled(later, Take)
  {
  }
}
