/**
 The main queue under the operator's own handlers: startup hooks run first, monitors are
 enabled next, and a hook sees its Synchronization contexts before any Event context.
 */
module MainQueueOrder {
  import opened Sequences
  import opened BindingContexts
  import opened Tasks
  import opened WorkerMachine
  import opened WorkerLedger

  // ---------- What tasks are about ----------

  predicate IsStartup(t: Task) {
    t.kind == HookRun && t.meta.Some? && t.meta.value.bindingType == OnStartup
  }

  predicate IsEnable(t: Task) {
    t.kind == EnableKubernetesBindings && t.meta.Some?
  }

  predicate Carries(t: Task, kind: KubeEventType) {
    t.kind == HookRun && t.meta.Some? && exists c :: c in Contexts(t) && c.kubeType == kind
  }

  predicate SameHook(a: Task, b: Task) {
    a.meta.Some? && b.meta.Some? && a.meta.value.hookName == b.meta.value.hookName
  }

  /** `a` may stand before `b` in the main queue. */
  predicate MayPrecede(a: Task, b: Task) {
    && (IsStartup(b) ==> IsStartup(a))
    && (SameHook(a, b) && Carries(a, Event) ==> !Carries(b, Synchronization) && !IsEnable(b))
    && (SameHook(a, b) && IsEnable(a) ==> !IsEnable(b))
  }

  // ---------- The operator as the environment of the queue ----------

  /** A task made from a kubernetes or schedule event. It may arrive at any moment: monitors are
      started while the handler of the enabling task is still running, so their events can come
      before its Synchronization tasks are in the queue. */
  predicate IsEventTask(cfg: Config, t: Task) {
    && t.kind == HookRun && t.meta.Some? && t.queueName == cfg.queueName
    && t.meta.value.bindingType != OnStartup
    && !Carries(t, Synchronization)
  }

  /** A task that runs the hook with the objects existing when its monitor was created. */
  predicate IsSynchronizationTask(hook: string, t: Task) {
    && t.kind == HookRun && t.meta.Some? && t.meta.value.hookName == hook
    && t.meta.value.bindingType == OnKubernetesEvent
    && forall c :: c in Contexts(t) ==> c.kubeType == Synchronization
  }

  /** The results that the operator's task handler can return for `t`. */
  predicate HandlerReturns(t: Task, r: TaskResult) {
    && r.tailTasks == []
    && match t.kind
       case HookRun => r.status in {Success, Fail} && r.headTasks == []
       case EnableKubernetesBindings =>
         && t.meta.Some?
         && r.status in {Success, Fail}
         && (r.status == Fail ==> r.headTasks == [])
         && forall x :: x in r.headTasks ==> IsSynchronizationTask(t.meta.value.hookName, x)
       case EnableScheduleBindings => r.status == Success && r.headTasks == []
       case OtherKind => r.status == NoStatus && r.headTasks == []
  }

  predicate OperatorLabel(cfg: Config, s: State, l: Label) {
    match l
    case Arrive(t) => IsEventTask(cfg, t)
    case Return(r, _) => s.items != [] && HandlerReturns(s.items[0], r)
    case _ => true
  }

  predicate OperatorRun(cfg: Config, s: State, run: seq<Label>)
    requires Executable(cfg, s, run)
    decreases |run|
  {
    run == [] || (OperatorLabel(cfg, s, run[0]) && OperatorRun(cfg, Step(cfg, s, run[0]), run[1..]))
  }

  // ---------- Invariant ----------

  ghost predicate Ordered(items: seq<Task>) {
    && (forall i, j :: 0 <= i < j < |items| ==> MayPrecede(items[i], items[j]))
    && (forall i :: 0 <= i < |items| ==> SynchronizationFirst(Contexts(items[i])))
  }

  /** Tasks about to be pushed to the head are Synchronization tasks of the hook just enabled. */
  ghost predicate PendingInv(s: State) {
    && (s.worker.Scanned? ==> s.items != [] && s.items[0].kind == HookRun)
    && (s.worker.Appending? ==>
          && s.worker.tails == [] && s.items != []
          && (s.worker.heads != [] ==> IsEnable(s.items[0]))
          && forall x :: x in s.worker.heads ==> IsSynchronizationTask(s.items[0].meta.value.hookName, x))
    && (s.worker.Pushing? ==>
          && (forall x :: x in s.worker.heads ==> x.meta.Some? && IsSynchronizationTask(x.meta.value.hookName, x))
          && (s.worker.heads != [] ==> forall i :: 0 <= i < |s.items| ==> !IsStartup(s.items[i])))
  }

  /** A call of the hook with contexts of this kind. */
  ghost predicate CallCarries(c: Call, hook: string, kind: KubeEventType) {
    && c.merged != []
    && c.merged[0].kind == HookRun && c.merged[0].meta.Some? && c.merged[0].meta.value.hookName == hook
    && exists x :: x in c.contexts && x.kubeType == kind
  }

  /** The hook has succeeded on a call with an Event context. */
  ghost predicate EventServed(calls: seq<Call>, hook: string) {
    exists j :: 0 <= j < |calls| && calls[j].status == Success && CallCarries(calls[j], hook, Event)
  }

  ghost predicate ComesTooLate(calls: seq<Call>, t: Task) {
    t.meta.Some? && EventServed(calls, t.meta.value.hookName) && (Carries(t, Synchronization) || IsEnable(t))
  }

  /** Nothing that must come before a hook's events is left once an event was served. */
  ghost predicate ServedInv(s: State) {
    && (forall i :: (if s.worker.Appending? then 1 else 0) <= i < |s.items| ==> !ComesTooLate(s.calls, s.items[i]))
    && (forall x :: x in Pending(s.worker) && x.meta.Some? ==> !EventServed(s.calls, x.meta.value.hookName))
  }

  ghost predicate HistoryInv(calls: seq<Call>) {
    forall i, j, hook :: 0 <= i < j < |calls| && calls[i].status == Success && CallCarries(calls[i], hook, Event) ==>
      !CallCarries(calls[j], hook, Synchronization)
  }

  ghost predicate OrderInv(s: State) {
    Ordered(s.items) && PendingInv(s)
  }

  // ---------- Steps ----------

  lemma AppendKeepsOrder(cfg: Config, s: State, t: Task)
    requires OrderInv(s) && IsEventTask(cfg, t)
    ensures OrderInv(AddLast(s, t))
  {
    var items := s.items + [t];
    assert SynchronizationFirst(Contexts(t)) by {
      forall j | 0 <= j < |Contexts(t)| ensures Contexts(t)[j].kubeType != Synchronization {
        assert Contexts(t)[j] in Contexts(t);
      }
    }
    forall i, j | 0 <= i < j < |items| ensures MayPrecede(items[i], items[j]) {
    }
  }

  lemma PushKeepsOrder(cfg: Config, s: State)
    requires OrderInv(s) && Enabled(s, PushHead)
    ensures OrderInv(Step(cfg, s, PushHead))
  {
    var t := s.worker.heads[0];
    assert IsSynchronizationTask(t.meta.value.hookName, t);
    assert SynchronizationFirst(Contexts(t)) by {
      forall i | 0 <= i < |Contexts(t)| ensures Contexts(t)[i].kubeType != Event {
        assert Contexts(t)[i] in Contexts(t);
      }
    }
    var items := [t] + s.items;
    forall i, j | 0 <= i < j < |items| ensures MayPrecede(items[i], items[j]) {
      if i > 0 {
        assert items[i] == s.items[i - 1] && items[j] == s.items[j - 1];
      }
    }
    var s' := Step(cfg, s, PushHead);
    forall x | x in s'.worker.heads ensures x in s.worker.heads {
    }
  }

  lemma {:induction false} InSomeTask(ts: seq<Task>, c: BindingContext)
    requires c in AllContexts(ts)
    ensures exists k :: 0 <= k < |ts| && c in Contexts(ts[k])
  {
    if c in Contexts(ts[0]) {
    } else {
      InSomeTask(ts[1..], c);
      var k :| 0 <= k < |ts[1..]| && c in Contexts(ts[1..][k]);
      assert c in Contexts(ts[k + 1]);
    }
  }

  /** Tasks of one hook in an admissible order have their contexts in an admissible order. */
  lemma {:induction false} JoinKeepsOrder(ts: seq<Task>)
    requires Ordered(ts)
    requires forall i :: 0 <= i < |ts| ==> ts[i].kind == HookRun && ts[i].meta.Some? && SameHook(ts[0], ts[i])
    ensures SynchronizationFirst(AllContexts(ts))
  {
    if ts != [] {
      var rest := ts[1..];
      forall i, j | 0 <= i < j < |rest| ensures MayPrecede(rest[i], rest[j]) {
        assert MayPrecede(ts[i + 1], ts[j + 1]);
      }
      forall i | 0 <= i < |rest| ensures SynchronizationFirst(Contexts(rest[i])) && SameHook(rest[0], rest[i]) {
        assert rest[i] == ts[i + 1];
      }
      JoinKeepsOrder(rest);
      var a, b := Contexts(ts[0]), AllContexts(rest);
      var all: seq<BindingContext> := a + b;
      assert AllContexts(ts) == all;
      forall i, j | 0 <= i < j < |all| && all[i].kubeType == Event ensures all[j].kubeType != Synchronization {
        if i < |a| <= j {
          var c := b[j - |a|];
          InSomeTask(rest, c);
          var k :| 0 <= k < |rest| && c in Contexts(rest[k]);
          assert a[i] in a && Carries(ts[0], Event) && MayPrecede(ts[0], ts[k + 1]);
        }
      }
    }
  }

  /** The first `n` tasks, merged into the first of them. */
  function Merger(items: seq<Task>, n: nat): Task
    requires 1 <= n <= |items|
  {
    WithContexts(items[0], Compact(AllContexts(items[..n])))
  }

  ghost predicate FirstAreAlike(items: seq<Task>, n: nat) {
    && 1 <= n <= |items|
    && items[0].kind == HookRun && items[0].meta.Some?
    && forall i :: 0 <= i < n ==> SameHookAndKind(items[0], items[i])
  }

  lemma MergerCarries(items: seq<Task>, n: nat, kind: KubeEventType)
    requires FirstAreAlike(items, n) && Carries(Merger(items, n), kind)
    ensures exists i :: 0 <= i < n && Carries(items[i], kind)
  {
    var ts := items[..n];
    CompactKeepsOrder(AllContexts(ts));
    var c :| c in Contexts(Merger(items, n)) && c.kubeType == kind;
    InSomeTask(ts, c);
    var i :| 0 <= i < n && c in Contexts(ts[i]);
    assert Carries(items[i], kind);
  }

  lemma MergerIsOrdered(items: seq<Task>, n: nat)
    requires Ordered(items) && FirstAreAlike(items, n)
    ensures SynchronizationFirst(Contexts(Merger(items, n)))
  {
    var ts := items[..n];
    forall i, j | 0 <= i < j < |ts| ensures MayPrecede(ts[i], ts[j]) {
      assert MayPrecede(items[i], items[j]);
    }
    JoinKeepsOrder(ts);
    CompactKeepsOrder(AllContexts(ts));
  }

  lemma MergerMayPrecede(items: seq<Task>, n: nat, j: nat)
    requires Ordered(items) && FirstAreAlike(items, n) && n <= j < |items|
    ensures MayPrecede(Merger(items, n), items[j])
  {
    assert MayPrecede(items[0], items[j]);
    if Carries(Merger(items, n), Event) {
      MergerCarries(items, n, Event);
      var i :| 0 <= i < n && Carries(items[i], Event);
      assert MayPrecede(items[i], items[j]);
    }
  }

  lemma DropKeepsOrder(items: seq<Task>, n: nat)
    requires Ordered(items) && n <= |items|
    ensures Ordered(items[n..])
  {
    var rest := items[n..];
    forall i, j | 0 <= i < j < |rest| ensures MayPrecede(rest[i], rest[j]) {
      assert rest[i] == items[n + i] && rest[j] == items[n + j];
    }
    forall i | 0 <= i < |rest| ensures SynchronizationFirst(Contexts(rest[i])) {
      assert rest[i] == items[n + i];
    }
  }

  lemma ConsKeepsOrder(t: Task, items: seq<Task>)
    requires Ordered(items) && SynchronizationFirst(Contexts(t))
    requires forall j :: 0 <= j < |items| ==> MayPrecede(t, items[j])
    ensures Ordered([t] + items)
  {
    var q := [t] + items;
    forall i, j | 0 <= i < j < |q| ensures MayPrecede(q[i], q[j]) {
      assert q[j] == items[j - 1];
      if i > 0 {
        assert q[i] == items[i - 1];
      }
    }
  }

  /** Replacing the first tasks of a queue by their merger. */
  lemma MergeKeepsOrder(items: seq<Task>, n: nat)
    requires Ordered(items) && FirstAreAlike(items, n)
    ensures Ordered([Merger(items, n)] + items[n..])
  {
    MergerIsOrdered(items, n);
    DropKeepsOrder(items, n);
    forall j | 0 <= j < |items[n..]| ensures MayPrecede(Merger(items, n), items[n..][j]) {
      MergerMayPrecede(items, n, n + j);
    }
    ConsKeepsOrder(Merger(items, n), items[n..]);
  }

  lemma MergedAreAlike(s: State)
    requires IsScanned(s) && s.items[0].kind == HookRun && s.items[0].meta.Some?
    requires forall j :: 0 <= j < |s.worker.others| ==> SameHookAndKind(s.items[0], s.worker.others[j])
    ensures FirstAreAlike(s.items, 1 + |s.worker.others|)
    ensures HeadMerged(s) == [Merger(s.items, 1 + |s.worker.others|)] + s.items[1 + |s.worker.others|..]
  {
    var n := 1 + |s.worker.others|;
    var t := s.items[0];
    assert s.items[..n] == [t] + s.worker.others;
    assert AllContexts(s.items[..n]) == Contexts(t) + AllContexts(s.worker.others);
    forall i | 0 <= i < n ensures SameHookAndKind(t, s.items[i]) {
      if i > 0 {
        assert s.items[i] == s.worker.others[i - 1];
      }
    }
  }

  lemma FilterKeepsOrder(s: State)
    requires Inv(s) && OrderInv(s) && s.worker.Scanned?
    ensures OrderInv(StepFilter(s))
  {
    hide IsBlockOf;
    var s' := StepFilter(s);
    var n := 1 + |s.worker.others|;
    FilterShape(s);
    assert SameHookAndKind(s.items[0], s.worker.others[0]);
    MergedAreAlike(s);
    MergeKeepsOrder(s.items, n);
  }

  lemma RemoveKeepsOrder(s: State)
    requires Inv(s) && OrderInv(s) && Enabled(s, RemoveHead)
    ensures OrderInv(StepRemove(s))
  {
    hide IsBlockOf;
    RemoveShape(s);
    var items := s.items[1..];
    DropKeepsOrder(s.items, 1);
    if s.worker.heads != [] {
      forall i | 0 <= i < |items| ensures !IsStartup(items[i]) {
        assert MayPrecede(s.items[0], s.items[i + 1]);
      }
    }
  }

  lemma RetriedIsTheSame(t: Task, n: nat)
    ensures var t' := t.(failures := n);
      && Contexts(t') == Contexts(t) && IsStartup(t') == IsStartup(t) && IsEnable(t') == IsEnable(t)
      && (forall k :: Carries(t', k) == Carries(t, k))
      && (forall x :: (MayPrecede(t', x) == MayPrecede(t, x)) && (MayPrecede(x, t') == MayPrecede(x, t)))
  {
    var t' := t.(failures := n);
    forall k ensures Carries(t', k) == Carries(t, k) {
      assert Contexts(t') == Contexts(t);
    }
    forall x ensures (MayPrecede(t', x) == MayPrecede(t, x)) && (MayPrecede(x, t') == MayPrecede(x, t)) {
      assert SameHook(t', x) == SameHook(t, x) && SameHook(x, t') == SameHook(x, t);
    }
  }

  lemma RetryKeepsOrder(items: seq<Task>, n: nat)
    requires Ordered(items) && items != []
    ensures Ordered([items[0].(failures := n)] + items[1..])
  {
    RetriedIsTheSame(items[0], n);
    var q := [items[0].(failures := n)] + items[1..];
    forall i, j | 0 <= i < j < |q| ensures MayPrecede(q[i], q[j]) {
      assert MayPrecede(items[i], items[j]);
    }
  }

  lemma ReturnKeepsPending(s: State, r: TaskResult, rnd: int, d: nat)
    requires s.items != [] && s.blocks != [] && s.worker.Running? && HandlerReturns(s.items[0], r)
    ensures PendingInv(ReturnWith(s, r, rnd, d))
    ensures ReturnWith(s, r, rnd, d).items ==
      if r.status == Fail then [s.items[0].(failures := s.items[0].failures + 1)] + s.items[1..] else s.items
  {
  }

  lemma ReturnKeepsOrder(s: State, r: TaskResult, rnd: int, d: nat)
    requires Inv(s) && OrderInv(s) && s.worker.Running? && HandlerReturns(s.items[0], r)
    ensures OrderInv(ReturnWith(s, r, rnd, d))
  {
    hide IsBlockOf;
    ReturnKeepsPending(s, r, rnd, d);
    RetryKeepsOrder(s.items, s.items[0].failures + 1);
  }

  lemma ScanKeepsOrder(cfg: Config, s: State)
    requires OrderInv(s) && s.worker.Taken?
    ensures OrderInv(StepScan(cfg, s))
  {
  }

  lemma StepKeepsOrder(cfg: Config, s: State, l: Label)
    requires Inv(s) && OrderInv(s) && Enabled(s, l) && OperatorLabel(cfg, s, l)
    ensures OrderInv(Step(cfg, s, l))
  {
    hide IsBlockOf;
    if l.Arrive? {
      AppendKeepsOrder(cfg, s, l.task);
    } else if l.PushHead? {
      PushKeepsOrder(cfg, s);
    } else if l.FilterQueue? {
      FilterKeepsOrder(s);
    } else if l.RemoveHead? {
      RemoveKeepsOrder(s);
    } else if l.Return? {
      ReturnKeepsOrder(s, l.result, l.rnd, NextDelay(l.result, s.items[0].failures, l.rnd));
    } else if l.ScanQueue? {
      ScanKeepsOrder(cfg, s);
    }
  }

  // ---------- The history of calls ----------

  lemma MergerIsInTime(calls: seq<Call>, items: seq<Task>, n: nat)
    requires FirstAreAlike(items, n)
    requires forall i :: 0 <= i < n ==> !ComesTooLate(calls, items[i])
    ensures !ComesTooLate(calls, Merger(items, n))
  {
    if Carries(Merger(items, n), Synchronization) {
      MergerCarries(items, n, Synchronization);
      var i :| 0 <= i < n && Carries(items[i], Synchronization);
      assert SameHookAndKind(items[0], items[i]) && !ComesTooLate(calls, items[i]);
    }
  }

  lemma FilterServes(s: State)
    requires Inv(s) && OrderInv(s) && ServedInv(s) && s.worker.Scanned?
    ensures ServedInv(StepFilter(s))
  {
    hide IsBlockOf;
    var n := 1 + |s.worker.others|;
    var s' := StepFilter(s);
    FilterShape(s);
    assert SameHookAndKind(s.items[0], s.worker.others[0]);
    MergedAreAlike(s);
    MergerIsInTime(s.calls, s.items, n);
    forall i | 1 <= i < |s'.items| ensures !ComesTooLate(s'.calls, s'.items[i]) {
      assert s'.items[i] == s'.items[1..][i - 1] == s.items[n + i - 1];
    }
  }

  lemma NewCallServes(calls: seq<Call>, c: Call, hook: string)
    requires EventServed(calls + [c], hook)
    ensures EventServed(calls, hook) || (c.status == Success && CallCarries(c, hook, Event))
  {
    var all := calls + [c];
    var j :| 0 <= j < |all| && all[j].status == Success && CallCarries(all[j], hook, Event);
    if j < |calls| {
      assert calls[j] == all[j];
    }
  }

  lemma CallIsOfHead(t: Task, c: Call, hook: string, kind: KubeEventType)
    requires IsBlockOf(c.merged, t) && c.contexts == Contexts(t) && CallCarries(c, hook, kind)
    ensures t.kind == HookRun && t.meta.Some? && t.meta.value.hookName == hook && Carries(t, kind)
  {
  }

  /** The call which the returning handler adds is one of the head. */
  lemma ReturnCalls(s: State, r: TaskResult, rnd: int, d: nat)
    requires Inv(s) && s.worker.Running?
    ensures var s' := ReturnWith(s, r, rnd, d);
      && |s'.calls| == |s.calls| + 1 && s'.calls == s.calls + [s'.calls[|s.calls|]]
      && s'.calls[|s.calls|].status == r.status
      && forall hook :: CallCarries(s'.calls[|s.calls|], hook, Event) ==>
           && s.items[0].kind == HookRun && s.items[0].meta.Some?
           && hook == s.items[0].meta.value.hookName && Carries(s.items[0], Event)
  {
    hide IsBlockOf, CallCarries;
    var t, c := s.items[0], ReturnWith(s, r, rnd, d).calls[|s.calls|];
    assert IsBlockOf(s.blocks[0], t) && c.merged == s.blocks[0] && c.contexts == Contexts(t);
    forall hook | CallCarries(c, hook, Event)
      ensures t.kind == HookRun && t.meta.Some? && hook == t.meta.value.hookName && Carries(t, Event)
    {
      CallIsOfHead(t, c, hook, Event);
    }
  }

  /** A task which may follow the head does not come too late for the head's call. */
  lemma NotTooLate(calls: seq<Call>, c: Call, t: Task, x: Task)
    requires !ComesTooLate(calls, x) && (c.status == Success ==> MayPrecede(t, x))
    requires forall hook :: CallCarries(c, hook, Event) ==>
        t.meta.Some? && hook == t.meta.value.hookName && Carries(t, Event)
    ensures !ComesTooLate(calls + [c], x)
  {
    hide CallCarries, EventServed;
    if x.meta.Some? && EventServed(calls + [c], x.meta.value.hookName) {
      NewCallServes(calls, c, x.meta.value.hookName);
    }
  }

  lemma ReturnServesItems(s: State, r: TaskResult, rnd: int, d: nat)
    requires Inv(s) && OrderInv(s) && ServedInv(s) && s.worker.Running?
    ensures var s' := ReturnWith(s, r, rnd, d);
      forall i :: (if r.status == Success then 1 else 0) <= i < |s'.items| ==> !ComesTooLate(s'.calls, s'.items[i])
  {
    hide IsBlockOf, CallCarries, ComesTooLate, MayPrecede, Carries;
    ReturnCalls(s, r, rnd, d);
    var t, s' := s.items[0], ReturnWith(s, r, rnd, d);
    forall i | (if r.status == Success then 1 else 0) <= i < |s'.items| ensures !ComesTooLate(s'.calls, s'.items[i]) {
      var x := s.items[i];
      assert !ComesTooLate(s.calls, x);
      NotTooLate(s.calls, s'.calls[|s.calls|], t, x);
      if i == 0 {
        RetriedComesNoLater(s'.calls, t, t.failures + 1);
      }
    }
  }

  lemma RetriedComesNoLater(calls: seq<Call>, t: Task, n: nat)
    ensures ComesTooLate(calls, t.(failures := n)) <==> ComesTooLate(calls, t)
  {
    RetriedIsTheSame(t, n);
  }

  lemma ReturnServesPending(s: State, r: TaskResult, rnd: int, d: nat)
    requires Inv(s) && OrderInv(s) && ServedInv(s) && s.worker.Running? && HandlerReturns(s.items[0], r)
    ensures var s' := ReturnWith(s, r, rnd, d);
      forall x :: x in Pending(s'.worker) && x.meta.Some? ==> !EventServed(s'.calls, x.meta.value.hookName)
  {
    hide IsBlockOf, CallCarries, EventServed, MayPrecede, Carries;
    ReturnCalls(s, r, rnd, d);
    var t, s' := s.items[0], ReturnWith(s, r, rnd, d);
    forall x | x in Pending(s'.worker) && x.meta.Some? ensures !EventServed(s'.calls, x.meta.value.hookName) {
      assert IsEnable(t) && IsSynchronizationTask(t.meta.value.hookName, x);
      assert !ComesTooLate(s.calls, t);
      if EventServed(s'.calls, x.meta.value.hookName) {
        NewCallServes(s.calls, s'.calls[|s.calls|], x.meta.value.hookName);
      }
    }
  }

  lemma ReturnServes(s: State, r: TaskResult, rnd: int, d: nat)
    requires Inv(s) && OrderInv(s) && ServedInv(s) && s.worker.Running? && HandlerReturns(s.items[0], r)
    ensures ServedInv(ReturnWith(s, r, rnd, d))
  {
    hide IsBlockOf, ComesTooLate, EventServed, OrderInv;
    ReturnServesItems(s, r, rnd, d);
    ReturnServesPending(s, r, rnd, d);
  }

  lemma HistorySnoc(calls: seq<Call>, c: Call)
    requires HistoryInv(calls)
    requires forall hook :: EventServed(calls, hook) ==> !CallCarries(c, hook, Synchronization)
    ensures HistoryInv(calls + [c])
  {
    forall i, hook | 0 <= i < |calls| && calls[i].status == Success && CallCarries(calls[i], hook, Event)
      ensures !CallCarries(c, hook, Synchronization)
    {
      assert EventServed(calls, hook);
    }
  }

  lemma ReturnExtendsHistory(s: State, r: TaskResult, rnd: int, d: nat)
    requires Inv(s) && ServedInv(s) && HistoryInv(s.calls) && s.worker.Running?
    ensures HistoryInv(ReturnWith(s, r, rnd, d).calls)
  {
    var t := s.items[0];
    var c := ReturnWith(s, r, rnd, d).calls[|s.calls|];
    assert IsBlockOf(s.blocks[0], t);
    assert !ComesTooLate(s.calls, t);
    HistorySnoc(s.calls, c);
  }

  lemma RemoveServes(s: State)
    requires Inv(s) && ServedInv(s) && Enabled(s, RemoveHead)
    ensures ServedInv(StepRemove(s))
  {
    hide IsBlockOf;
    RemoveShape(s);
    forall i | 0 <= i < |s.items[1..]| ensures !ComesTooLate(s.calls, s.items[1..][i]) {
      assert s.items[1..][i] == s.items[i + 1];
    }
  }

  lemma PushServes(cfg: Config, s: State)
    requires OrderInv(s) && ServedInv(s) && Enabled(s, PushHead)
    ensures ServedInv(Step(cfg, s, PushHead))
  {
    hide IsBlockOf;
    var t := s.worker.heads[0];
    var s' := Step(cfg, s, PushHead);
    assert t in Pending(s.worker);
    forall x | x in Pending(s'.worker) ensures x in Pending(s.worker) {
    }
    forall i | 1 <= i < |s'.items| ensures !ComesTooLate(s'.calls, s'.items[i]) {
      assert s'.items[i] == s.items[i - 1];
    }
  }

  lemma ArriveServes(cfg: Config, s: State, t: Task)
    requires ServedInv(s) && IsEventTask(cfg, t)
    ensures ServedInv(AddLast(s, t))
  {
    hide IsBlockOf;
    var s' := AddLast(s, t);
    forall i | (if s.worker.Appending? then 1 else 0) <= i < |s'.items| ensures !ComesTooLate(s'.calls, s'.items[i]) {
      assert i < |s.items| ==> s'.items[i] == s.items[i];
    }
  }

  /** Steps that leave the queue and the calls alone. */
  lemma OtherStepServes(cfg: Config, s: State, l: Label)
    requires OrderInv(s) && ServedInv(s) && Enabled(s, l)
    requires !l.Return? && !l.FilterQueue? && !l.RemoveHead? && !l.PushHead? && !l.Arrive?
    ensures ServedInv(Step(cfg, s, l))
  {
    hide IsBlockOf;
  }

  ghost predicate MainInv(s: State) {
    OrderInv(s) && ServedInv(s) && HistoryInv(s.calls)
  }

  lemma StepKeepsMain(cfg: Config, s: State, l: Label)
    requires Inv(s) && MainInv(s) && Enabled(s, l) && OperatorLabel(cfg, s, l)
    ensures MainInv(Step(cfg, s, l))
  {
    hide IsBlockOf;
    StepKeepsOrder(cfg, s, l);
    if l.Return? {
      var d := NextDelay(l.result, s.items[0].failures, l.rnd);
      ReturnServes(s, l.result, l.rnd, d);
      ReturnExtendsHistory(s, l.result, l.rnd, d);
    } else if l.FilterQueue? {
      FilterServes(s);
    } else if l.RemoveHead? {
      RemoveServes(s);
    } else if l.PushHead? {
      PushServes(cfg, s);
    } else if l.Arrive? {
      ArriveServes(cfg, s, l.task);
    } else {
      OtherStepServes(cfg, s, l);
    }
  }

  lemma {:induction false} RunKeepsMain(cfg: Config, s: State, run: seq<Label>)
    requires Inv(s) && MainInv(s) && Executable(cfg, s, run) && OperatorRun(cfg, s, run)
    ensures MainInv(Execute(cfg, s, run))
    decreases |run|
  {
    hide IsBlockOf;
    if run != [] {
      StepKeepsInv(cfg, s, run[0]);
      StepKeepsMain(cfg, s, run[0]);
      RunKeepsMain(cfg, Step(cfg, s, run[0]), run[1..]);
    }
  }

  // ---------- Filling the main queue ----------

  datatype LoadedHook = LoadedHook(name: string, hasKubernetes: bool, hasSchedule: bool)

  ghost predicate DistinctNames(hooks: seq<LoadedHook>) {
    forall i, j :: 0 <= i < j < |hooks| ==> hooks[i].name != hooks[j].name
  }

  /** A supply of ids that never repeats. */
  ghost predicate IsIdSupply(newId: nat -> string) {
    forall i, j :: 0 <= i < j ==> newId(i) != newId(j)
  }

  /** A task without its id. */
  function Outlines(items: seq<Task>): (r: seq<Task>)
    ensures |r| == |items|
  {
    seq(|items|, i requires 0 <= i < |items| => items[i].(id := ""))
  }

  /** The startup hooks are run with one context, named after the binding. */
  function StartupOutlines(startup: seq<string>): (r: seq<Task>) {
    seq(|startup|, i requires 0 <= i < |startup| =>
      Task("", HookRun, "", Some(HookMetadata(startup[i], "", "", OnStartup,
        [BindingContext("onStartup", OnStartup, NoKubeEvent, "", [])], false)), 0))
  }

  function EnableOutline(kind: TaskKind, hook: string): Task {
    var binding := if kind == EnableKubernetesBindings then "EnableKubernetesBindings" else "EnableScheduleBindings";
    Task("", kind, "", Some(HookMetadata(hook, binding, "", NoBindingType, [], false)), 0)
  }

  /** For each hook in turn: enable its monitors, then its schedules, if it has any. */
  function EnableOutlines(hooks: seq<LoadedHook>): (r: seq<Task>) {
    if hooks == [] then []
    else
      var h := hooks[|hooks| - 1];
      EnableOutlines(hooks[..|hooks| - 1])
      + (if h.hasKubernetes then [EnableOutline(EnableKubernetesBindings, h.name)] else [])
      + (if h.hasSchedule then [EnableOutline(EnableScheduleBindings, h.name)] else [])
  }

  /** `AddLast` of a task that only enables bindings. */
  lemma AppendEnable(items: seq<Task>, t: Task)
    requires Ordered(items) && t.kind != HookRun && t.meta.Some?
    requires IsEnable(t) ==> forall i :: 0 <= i < |items| && IsEnable(items[i]) ==> !SameHook(items[i], t)
    requires Contexts(t) == []
    requires forall i :: 0 <= i < |items| ==> !Carries(items[i], Event)
    ensures Ordered(items + [t])
    ensures Outlines(items + [t])
         == Outlines(items) + [t.(id := "")]
  {
    var q := items + [t];
    forall i, j | 0 <= i < j < |q| ensures MayPrecede(q[i], q[j]) {
      if j < |items| {
        assert MayPrecede(items[i], items[j]);
      }
    }
  }

  lemma StartupTasksAreGood(items: seq<Task>, startup: seq<string>)
    requires |items| == |startup|
    requires forall j :: 0 <= j < |items| ==> items[j] == StartupOutlines(startup)[j].(id := items[j].id)
    ensures Ordered(items) && Outlines(items) == StartupOutlines(startup)
    ensures forall j :: 0 <= j < |items| ==> !Carries(items[j], Event) && !IsEnable(items[j])
  {
    forall i, j | 0 <= i < j < |items| ensures MayPrecede(items[i], items[j]) {
      assert items[i] == StartupOutlines(startup)[i].(id := items[i].id);
    }
  }

  /** Admissibly ordered, and no event has arrived yet. */
  ghost predicate IsMainStart(items: seq<Task>) {
    ValidStart(items) && Ordered(items) && forall j :: 0 <= j < |items| ==> !Carries(items[j], Event)
  }

  lemma FreshStartIsMain(items: seq<Task>)
    requires IsMainStart(items)
    ensures MainInv(Start(items))
  {
  }

  /** What holds while the hooks are gone through: `n` of them are done. */
  ghost predicate Filled(items: seq<Task>, hooks: seq<LoadedHook>, n: nat, newId: nat -> string) {
    && Ordered(items)
    && (forall j :: 0 <= j < |items| ==> items[j].id == newId(j) && items[j].failures == 0 && !Carries(items[j], Event))
    && (forall j, k :: 0 <= j < |items| && n <= k < |hooks| && IsEnable(items[j]) ==>
          items[j].meta.value.hookName != hooks[k].name)
  }

  lemma FilledIsMainStart(items: seq<Task>, hooks: seq<LoadedHook>, n: nat, newId: nat -> string)
    requires IsIdSupply(newId) && Filled(items, hooks, n, newId)
    ensures IsMainStart(items)
  {
  }

  method AddStartupTasks(startup: seq<string>, ghost hooks: seq<LoadedHook>, newId: nat -> string)
    returns (items: seq<Task>)
    ensures Filled(items, hooks, 0, newId)
    ensures Outlines(items) == StartupOutlines(startup)
  {
    items := [];
    var i := 0;
    while i < |startup|
      invariant 0 <= i <= |startup| && |items| == i
      invariant forall j :: 0 <= j < i ==> items[j] == StartupOutlines(startup)[j].(id := newId(j))
    {
      var bc := BindingContext("onStartup", OnStartup, NoKubeEvent, "", []);
      items := items + [Task(newId(|items|), HookRun, "",
                             Some(HookMetadata(startup[i], "", "", OnStartup, [bc], false)), 0)];
      i := i + 1;
    }
    StartupTasksAreGood(items, startup);
  }

  lemma EnableOutlinesStep(hooks: seq<LoadedHook>, n: nat)
    requires n < |hooks|
    ensures EnableOutlines(hooks[..n + 1]) == EnableOutlines(hooks[..n]) + EnableOutlines([hooks[n]])
  {
    assert hooks[..n + 1][..n] == hooks[..n];
    assert [hooks[n]][..0] == [];
  }

  method PrepopulateMainQueue(startup: seq<string>, hooks: seq<LoadedHook>, newId: nat -> string)
    returns (items: seq<Task>)
    requires IsIdSupply(newId) && DistinctNames(hooks)
    ensures Outlines(items) == StartupOutlines(startup) + EnableOutlines(hooks)
    ensures IsMainStart(items)
  {
    items := AddStartupTasks(startup, hooks, newId);
    ghost var first := Outlines(items);
    var i := 0;
    while i < |hooks|
      invariant 0 <= i <= |hooks| && Filled(items, hooks, i, newId)
      invariant Outlines(items) == first + EnableOutlines(hooks[..i])
    {
      EnableOutlinesStep(hooks, i);
      items := AddEnableTasks(items, hooks, i, newId);
      i := i + 1;
    }
    assert hooks[..i] == hooks;
    FilledIsMainStart(items, hooks, i, newId);
  }

  /** `AddLast` of a task that enables one kind of bindings of hook `n`. */
  method AddEnableTask(before: seq<Task>, hooks: seq<LoadedHook>, n: nat, m: nat, kind: TaskKind, newId: nat -> string)
    returns (items: seq<Task>)
    requires n < |hooks| && DistinctNames(hooks) && Filled(before, hooks, m, newId)
    requires if kind == EnableKubernetesBindings then m == n else kind == EnableScheduleBindings && m == n + 1
    ensures Filled(items, hooks, n + 1, newId)
    ensures Outlines(items) == Outlines(before) + [EnableOutline(kind, hooks[n].name)]
  {
    hide Outlines;
    hide MayPrecede;
    var binding := if kind == EnableKubernetesBindings then "EnableKubernetesBindings" else "EnableScheduleBindings";
    var t := Task(newId(|before|), kind, "",
                  Some(HookMetadata(hooks[n].name, binding, "", NoBindingType, [], false)), 0);
    AppendEnable(before, t);
    items := before + [t];
  }

  method AddEnableTasks(before: seq<Task>, hooks: seq<LoadedHook>, n: nat, newId: nat -> string)
    returns (items: seq<Task>)
    requires n < |hooks| && DistinctNames(hooks) && Filled(before, hooks, n, newId)
    ensures Filled(items, hooks, n + 1, newId)
    ensures Outlines(items) == Outlines(before) + EnableOutlines([hooks[n]])
  {
    hide Outlines;
    hide Ordered;
    items := before;
    if hooks[n].hasKubernetes {
      items := AddEnableTask(items, hooks, n, n, EnableKubernetesBindings, newId);
    }
    if hooks[n].hasSchedule {
      items := AddEnableTask(items, hooks, n, n + 1, EnableScheduleBindings, newId);
    }
  }

  /** In every reachable state of the main queue no task stands where it must not: startup hooks
      come first, no Event context precedes a Synchronization context of its hook or the task
      enabling its monitors, between tasks and inside them. And whatever the interleaving, once
      a hook has succeeded on an Event in this queue, this queue's worker never again calls it with a
      Synchronization; AcrossQueues tells when that holds for the workers of all queues.
      Event tasks may arrive at any moment of the run. */
  lemma SynchronizationPrecedesEvents(cfg: Config, items: seq<Task>, run: seq<Label>)
    requires IsMainStart(items)
    requires Executable(cfg, Start(items), run) && OperatorRun(cfg, Start(items), run)
    ensures var s := Execute(cfg, Start(items), run);
      && (forall i, j :: 0 <= i < j < |s.items| ==> MayPrecede(s.items[i], s.items[j]))
      && (forall i :: 0 <= i < |s.items| ==> SynchronizationFirst(Contexts(s.items[i])))
      && HistoryInv(s.calls)
  {
    StartIsGood(items);
    FreshStartIsMain(items);
    RunKeepsMain(cfg, Start(items), run);
  }
}
