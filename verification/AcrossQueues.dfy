/**
 The worker of the main queue beside the workers of any number of other queues. Synchronization tasks
 always go to the main queue, Event tasks to the queue of their binding.
 */
module AcrossQueues {
  import opened Sequences
  import opened BindingContexts
  import opened Tasks
  import opened WorkerMachine
  import opened WorkerLedger
  import opened MainQueueOrder
  import opened HookConfigs
  import EventRouting

  // ---------- The operator ----------

  datatype HookSetup = HookSetup(kubes: Kubes, version0: bool)

  /** The kubernetes bindings of the hooks, and the objects which exist when monitors are added. */
  datatype Setup = Setup(hooks: map<string, HookSetup>, objects: string -> seq<string>)

  /** The bindings of the hook that are run with the existing objects. */
  function Synchronized(u: Setup, hook: string): Kubes {
    if hook in u.hooks then EventRouting.Executed(u.hooks[hook].kubes, u.hooks[hook].version0) else []
  }

  predicate HasBindingOn(u: Setup, hook: string, queue: string) {
    hook in u.hooks && exists b :: b in u.hooks[hook].kubes && b.queue == queue
  }

  function OtherQueues(u: Setup): set<string> {
    set h, b | h in u.hooks && b in u.hooks[h].kubes && b.queue != "main" :: b.queue
  }

  function QueueConfig(u: Setup, queue: string): Config {
    Config(queue, set h | h in u.hooks && !u.hooks[h].version0)
  }

  /** The queues and what the handlers were called with, in the order of the calls' ends. */
  datatype System = System(main: State, others: map<string, State>, history: seq<Call>)

  datatype SystemLabel = OnMain(step: Label) | OnOther(queue: string, step: Label)

  predicate EnablesHook(t: Task, hook: string) {
    IsEnable(t) && t.meta.value.hookName == hook
  }

  /** The monitors of the hook are started: its enabling handler is at work or has succeeded. */
  predicate Started(main: State, hook: string) {
    || (main.worker.Running? && main.items != [] && EnablesHook(main.items[0], hook))
    || exists c :: c in main.calls && c.status == Success && c.merged != [] && EnablesHook(c.merged[0], hook)
  }

  /** An Event of a hook comes from a started monitor to the queue of one of its bindings. */
  predicate RoutedHere(u: Setup, main: State, queue: string, l: Label) {
    l.Arrive? && Carries(l.task, Event) ==>
      Started(main, l.task.meta.value.hookName) && HasBindingOn(u, l.task.meta.value.hookName, queue)
  }

  /** An enabling handler that succeeds hands over the runs that the configuration asks for. */
  predicate HandsOverConfigured(u: Setup, main: State, l: Label) {
    l.Return? && l.result.status == Success && main.items != [] && IsEnable(main.items[0]) ==>
      var hook := main.items[0].meta.value.hookName;
      EventRouting.HandsOver(hook, Synchronized(u, hook), u.objects, l.result.headTasks)
  }

  predicate Allowed(u: Setup, p: System, l: SystemLabel) {
    match l
    case OnMain(m) =>
      && Enabled(p.main, m) && OperatorLabel(QueueConfig(u, "main"), p.main, m)
      && RoutedHere(u, p.main, "main", m) && HandsOverConfigured(u, p.main, m)
    case OnOther(queue, m) =>
      && queue in p.others
      && Enabled(p.others[queue], m) && OperatorLabel(QueueConfig(u, queue), p.others[queue], m)
      && RoutedHere(u, p.main, queue, m)
  }

  function NewCalls(before: State, after: State): seq<Call> {
    if |before.calls| <= |after.calls| then after.calls[|before.calls|..] else []
  }

  function SystemStep(u: Setup, p: System, l: SystemLabel): System
    requires Allowed(u, p, l)
  {
    match l
    case OnMain(m) =>
      var s := Step(QueueConfig(u, "main"), p.main, m);
      p.(main := s, history := p.history + NewCalls(p.main, s))
    case OnOther(queue, m) =>
      var s := Step(QueueConfig(u, queue), p.others[queue], m);
      p.(others := p.others[queue := s], history := p.history + NewCalls(p.others[queue], s))
  }

  function SystemStart(u: Setup, items: seq<Task>): System {
    System(Start(items), map queue | queue in OtherQueues(u) :: Start([]), [])
  }

  predicate SystemRun(u: Setup, p: System, run: seq<SystemLabel>)
    decreases |run|
  {
    run == [] || (Allowed(u, p, run[0]) && SystemRun(u, SystemStep(u, p, run[0]), run[1..]))
  }

  function SystemExecute(u: Setup, p: System, run: seq<SystemLabel>): System
    requires SystemRun(u, p, run)
    decreases |run|
  {
    if run == [] then p else SystemExecute(u, SystemStep(u, p, run[0]), run[1..])
  }

  /** A prepopulated main queue: admissibly ordered, and nothing is synchronized yet. */
  ghost predicate IsOperatorStart(items: seq<Task>) {
    IsMainStart(items) && forall i :: 0 <= i < |items| ==> !Carries(items[i], Synchronization)
  }

  /** The hook is called with a Synchronization after it has succeeded on an Event. */
  ghost predicate LateSynchronization(history: seq<Call>, hook: string) {
    exists i, j :: 0 <= i < j < |history| && history[i].status == Success && CallCarries(history[i], hook, Event)
                   && CallCarries(history[j], hook, Synchronization)
  }

  /** In no run of the workers is the hook synchronized late. */
  ghost predicate NeverLate(u: Setup, hook: string) {
    forall items, run :: IsOperatorStart(items) && SystemRun(u, SystemStart(u, items), run) ==>
      !LateSynchronization(SystemExecute(u, SystemStart(u, items), run).history, hook)
  }

  // ---------- Tasks that carry nothing of one kind for the hook ----------

  predicate Free(t: Task, hook: string, kind: KubeEventType) {
    t.meta.Some? && t.meta.value.hookName == hook ==> !Carries(t, kind)
  }

  ghost predicate AllFree(s: State, hook: string, kind: KubeEventType) {
    && (forall i :: 0 <= i < |s.items| ==> Free(s.items[i], hook, kind))
    && (forall i :: 0 <= i < |Pending(s.worker)| ==> Free(Pending(s.worker)[i], hook, kind))
  }

  /** The tasks which the step brings into the queue, now or later. */
  function Incoming(l: Label): seq<Task> {
    match l
    case Arrive(t) => [t]
    case Return(r, _) => if r.status == Success then r.tailTasks + r.headTasks else []
    case _ => []
  }

  /** Behind the merged head, the filtered queue is the old one. */
  lemma FilterTail(s: State)
    requires IsScanned(s)
    ensures |StepFilter(s).items| == |s.items| - |s.worker.others|
    ensures forall i :: 1 <= i < |StepFilter(s).items| ==> StepFilter(s).items[i] == s.items[|s.worker.others| + i]
  {
    FilterShape(s);
    hide StepFilter;
    var n, after := 1 + |s.worker.others|, StepFilter(s).items;
    assert after[1..] == s.items[n..];
    forall i | 1 <= i < |after| ensures after[i] == s.items[n + i - 1] {
      assert after[i] == after[1..][i - 1];
    }
  }

  lemma MergerIsFree(s: State, hook: string, kind: KubeEventType)
    requires Inv(s) && AllFree(s, hook, kind) && s.worker.Scanned?
    ensures StepFilter(s).items != [] && Free(StepFilter(s).items[0], hook, kind)
  {
    hide IsBlockOf, Without, Compact;
    FilterShape(s);
    hide StepFilter;
    var merger := StepFilter(s).items[0];
    assert SameHookAndKind(s.items[0], s.worker.others[0]);
    if s.items[0].kind == HookRun {
      MergedAreAlike(s);
      if merger.meta.value.hookName == hook && Carries(merger, kind) {
        MergerCarries(s.items, 1 + |s.worker.others|, kind);
      }
    }
  }

  lemma FilterKeepsFree(s: State, hook: string, kind: KubeEventType)
    requires Inv(s) && AllFree(s, hook, kind) && s.worker.Scanned?
    ensures AllFree(StepFilter(s), hook, kind)
  {
    hide IsBlockOf, Without, Free;
    MergerIsFree(s, hook, kind);
    FilterTail(s);
    FilterShape(s);
    hide StepFilter;
    forall i | 0 <= i < |StepFilter(s).items| ensures Free(StepFilter(s).items[i], hook, kind) {
      if i > 0 {
        assert Free(s.items[|s.worker.others| + i], hook, kind);
      }
    }
  }

  lemma RemoveKeepsFree(s: State, hook: string, kind: KubeEventType)
    requires Inv(s) && AllFree(s, hook, kind) && Enabled(s, RemoveHead)
    ensures AllFree(StepRemove(s), hook, kind)
  {
    hide IsBlockOf;
    RemoveShape(s);
    forall i | 0 <= i < |s.items[1..]| ensures Free(s.items[1..][i], hook, kind) {
      assert s.items[1..][i] == s.items[i + 1];
    }
    assert Pending(StepRemove(s).worker) == Pending(s.worker);
  }

  lemma AppendKeepsFree(cfg: Config, s: State, hook: string, kind: KubeEventType)
    requires AllFree(s, hook, kind) && Enabled(s, AppendTail)
    ensures AllFree(Step(cfg, s, AppendTail), hook, kind)
  {
    var tails, heads := s.worker.tails, s.worker.heads;
    var s' := Step(cfg, s, AppendTail);
    assert Pending(s.worker)[0] == tails[0];
    forall i | 0 <= i < |Pending(s'.worker)| ensures Pending(s'.worker)[i] == Pending(s.worker)[i + 1] {
    }
  }

  lemma PushKeepsFree(cfg: Config, s: State, hook: string, kind: KubeEventType)
    requires AllFree(s, hook, kind) && Enabled(s, PushHead)
    ensures AllFree(Step(cfg, s, PushHead), hook, kind)
  {
    var t, items := s.worker.heads[0], [s.worker.heads[0]] + s.items;
    assert Pending(s.worker)[0] == t;
    forall i | 0 <= i < |items| ensures Free(items[i], hook, kind) {
      if i > 0 {
        ConsAt(t, s.items, i);
      }
    }
  }

  lemma ReturnKeepsFree(s: State, r: TaskResult, rnd: int, d: nat, hook: string, kind: KubeEventType)
    requires s.items != [] && s.blocks != [] && s.worker.Running? && AllFree(s, hook, kind)
    requires forall t :: t in Incoming(Return(r, rnd)) ==> Free(t, hook, kind)
    ensures AllFree(ReturnWith(s, r, rnd, d), hook, kind)
  {
    RetriedIsTheSame(s.items[0], s.items[0].failures + 1);
    var s' := ReturnWith(s, r, rnd, d);
    forall i | 1 <= i < |s'.items| ensures s'.items[i] == s.items[i] {}
    forall i | 0 <= i < |Pending(s'.worker)| ensures Free(Pending(s'.worker)[i], hook, kind) {
      assert Pending(s'.worker)[i] in Incoming(Return(r, rnd));
    }
  }

  /** Only incoming tasks can bring contexts of a kind into a queue. */
  lemma StepKeepsFree(cfg: Config, s: State, l: Label, hook: string, kind: KubeEventType)
    requires Inv(s) && AllFree(s, hook, kind) && Enabled(s, l)
    requires forall t :: t in Incoming(l) ==> Free(t, hook, kind)
    ensures AllFree(Step(cfg, s, l), hook, kind)
  {
    hide IsBlockOf;
    hide Free;
    match l
    case Arrive(t) => assert t in Incoming(l);
    case FilterQueue => FilterKeepsFree(s, hook, kind);
    case Return(r, rnd) => ReturnKeepsFree(s, r, rnd, NextDelay(r, s.items[0].failures, rnd), hook, kind);
    case AppendTail => AppendKeepsFree(cfg, s, hook, kind);
    case RemoveHead => RemoveKeepsFree(s, hook, kind);
    case PushHead => PushKeepsFree(cfg, s, hook, kind);
    case _ =>
  }

  // ---------- Calls ----------

  /** At most one call is added, by a returning handler, with the contexts of the head. */
  lemma CallsAdded(cfg: Config, s: State, l: Label)
    requires Inv(s) && Enabled(s, l)
    ensures s.calls <= Step(cfg, s, l).calls && |Step(cfg, s, l).calls| <= |s.calls| + 1
    ensures Step(cfg, s, l).calls == s.calls + NewCalls(s, Step(cfg, s, l))
    ensures forall c, hook, kind :: c in NewCalls(s, Step(cfg, s, l)) && CallCarries(c, hook, kind) ==>
              s.items != [] && s.items[0].meta.Some? && s.items[0].meta.value.hookName == hook &&
              Carries(s.items[0], kind)
  {
    hide IsBlockOf;
    hide Carries;
    hide CallCarries;
    if l.Return? {
      forall c, hook, kind | c in NewCalls(s, Step(cfg, s, l)) && CallCarries(c, hook, kind)
        ensures s.items[0].meta.Some? && s.items[0].meta.value.hookName == hook && Carries(s.items[0], kind)
      {
        CallIsOfHead(s.items[0], c, hook, kind);
      }
    }
  }

  lemma FreeCalls(cfg: Config, s: State, l: Label, hook: string, kind: KubeEventType)
    requires Inv(s) && AllFree(s, hook, kind) && Enabled(s, l)
    ensures forall c :: c in NewCalls(s, Step(cfg, s, l)) ==> !CallCarries(c, hook, kind)
  {
    hide Inv;
    hide CallCarries;
    CallsAdded(cfg, s, l);
    assert s.items != [] ==> Free(s.items[0], hook, kind);
  }

  // ---------- The other queues ----------

  ghost predicate OnlyHookRuns(s: State) {
    Pending(s.worker) == [] && forall i :: 0 <= i < |s.items| ==> s.items[i].kind == HookRun
  }

  /** Only runs of hooks from events are here, without any Synchronization. */
  ghost predicate OtherInv(s: State) {
    && Inv(s) && OnlyHookRuns(s)
    && forall hook :: AllFree(s, hook, Synchronization)
  }

  lemma FilterKinds(s: State)
    requires Inv(s) && s.worker.Scanned? && OnlyHookRuns(s)
    ensures OnlyHookRuns(StepFilter(s))
  {
    hide IsBlockOf, Without;
    FilterShape(s);
    FilterTail(s);
    hide StepFilter;
  }

  lemma OtherKinds(cfg: Config, s: State, l: Label)
    requires Inv(s) && Enabled(s, l) && OperatorLabel(cfg, s, l) && OnlyHookRuns(s)
    ensures OnlyHookRuns(Step(cfg, s, l))
    ensures forall t :: t in Incoming(l) ==> l.Arrive?
  {
    hide IsBlockOf, StepFilter, StepRemove;
    if l.FilterQueue? {
      FilterKinds(s);
    } else if l.RemoveHead? {
      RemoveShape(s);
    }
  }

  lemma OtherKeepsInv(cfg: Config, s: State, l: Label)
    requires OtherInv(s) && Enabled(s, l) && OperatorLabel(cfg, s, l)
    ensures OtherInv(Step(cfg, s, l))
  {
    hide Inv;
    hide AllFree;
    OtherKinds(cfg, s, l);
    StepKeepsInv(cfg, s, l);
    forall hook ensures AllFree(Step(cfg, s, l), hook, Synchronization) {
      StepKeepsFree(cfg, s, l, hook, Synchronization);
    }
  }

  lemma OtherKeepsEventFree(cfg: Config, s: State, l: Label, hook: string)
    requires OtherInv(s) && AllFree(s, hook, Event) && Enabled(s, l) && OperatorLabel(cfg, s, l)
    requires l.Arrive? ==> Free(l.task, hook, Event)
    ensures AllFree(Step(cfg, s, l), hook, Event)
  {
    hide Inv;
    hide AllFree;
    OtherKinds(cfg, s, l);
    StepKeepsFree(cfg, s, l, hook, Event);
  }

  // ---------- The history ----------

  lemma ServedEarlier(before: seq<Call>, c: Call, hook: string)
    ensures EventServed(before, hook) ==> EventServed(before + [c], hook)
    ensures c.status == Success && CallCarries(c, hook, Event) ==> EventServed(before + [c], hook)
  {
    var all := before + [c];
    assert all[|before|] == c;
    if EventServed(before, hook) {
      var j :| 0 <= j < |before| && before[j].status == Success && CallCarries(before[j], hook, Event);
      assert all[j] == before[j];
    }
  }

  /** A call that is no late Synchronization makes no late Synchronization. */
  lemma HistoryGrows(history: seq<Call>, c: Call, hook: string)
    requires !LateSynchronization(history, hook)
    requires EventServed(history, hook) ==> !CallCarries(c, hook, Synchronization)
    ensures !LateSynchronization(history + [c], hook)
  {
    var all := history + [c];
    forall i, j | 0 <= i < j < |all| && all[i].status == Success && CallCarries(all[i], hook, Event)
      ensures !CallCarries(all[j], hook, Synchronization)
    {
      assert all[i] == history[i];
      assert EventServed(history, hook);
      assert j < |history| ==> all[j] == history[j];
    }
  }

  lemma MainKeepsHistory(history: seq<Call>, calls: seq<Call>, c: Call, hook: string)
    requires HistoryInv(calls + [c])
    requires EventServed(history, hook) ==> EventServed(calls, hook)
    requires !LateSynchronization(history, hook)
    ensures EventServed(history + [c], hook) ==> EventServed(calls + [c], hook)
    ensures !LateSynchronization(history + [c], hook)
  {
    if EventServed(calls, hook) {
      var j :| 0 <= j < |calls| && calls[j].status == Success && CallCarries(calls[j], hook, Event);
      assert (calls + [c])[j] == calls[j] && (calls + [c])[|calls|] == c;
      assert !CallCarries(c, hook, Synchronization);
    }
    HistoryGrows(history, c, hook);
    ServedEarlier(calls, c, hook);
    if EventServed(history + [c], hook) {
      NewCallServes(history, c, hook);
    }
  }

  lemma OtherKeepsHistory(history: seq<Call>, c: Call, hook: string)
    requires !CallCarries(c, hook, Event) && !CallCarries(c, hook, Synchronization)
    requires !LateSynchronization(history, hook)
    ensures EventServed(history + [c], hook) ==> EventServed(history, hook)
    ensures !LateSynchronization(history + [c], hook)
  {
    HistoryGrows(history, c, hook);
    if EventServed(history + [c], hook) {
      NewCallServes(history, c, hook);
    }
  }

  // ---------- All bindings of the hook on the main queue ----------

  ghost predicate OnMainInv(p: System, hook: string) {
    && Inv(p.main) && MainInv(p.main)
    && (forall queue :: queue in p.others ==> OtherInv(p.others[queue]) && AllFree(p.others[queue], hook, Event))
    && (EventServed(p.history, hook) ==> EventServed(p.main.calls, hook))
    && !LateSynchronization(p.history, hook)
  }

  lemma MainStepKeepsOnMain(u: Setup, p: System, l: Label, hook: string)
    requires OnMainInv(p, hook) && Allowed(u, p, OnMain(l))
    ensures OnMainInv(SystemStep(u, p, OnMain(l)), hook)
  {
    hide Inv;
    hide OtherInv;
    hide AllFree;
    var cfg := QueueConfig(u, "main");
    var s := Step(cfg, p.main, l);
    StepKeepsInv(cfg, p.main, l);
    StepKeepsMain(cfg, p.main, l);
    CallsAdded(cfg, p.main, l);
    var added := NewCalls(p.main, s);
    if added == [] {
      assert p.history + added == p.history && p.main.calls + added == p.main.calls;
    } else {
      assert added == [added[0]];
      MainKeepsHistory(p.history, p.main.calls, added[0], hook);
    }
  }

  lemma OtherStepKeepsOnMain(u: Setup, p: System, queue: string, l: Label, hook: string)
    requires queue in p.others ==> !HasBindingOn(u, hook, queue)
    requires OnMainInv(p, hook) && Allowed(u, p, OnOther(queue, l))
    ensures OnMainInv(SystemStep(u, p, OnOther(queue, l)), hook)
  {
    hide Inv;
    hide OtherInv;
    hide AllFree;
    hide MainInv;
    var cfg, before := QueueConfig(u, queue), p.others[queue];
    var s := Step(cfg, before, l);
    OtherKeepsInv(cfg, before, l);
    OtherKeepsEventFree(cfg, before, l, hook);
    OtherIsSound(before, hook);
    FreeCalls(cfg, before, l, hook, Event);
    FreeCalls(cfg, before, l, hook, Synchronization);
    CallsAdded(cfg, before, l);
    var added := NewCalls(before, s);
    if added == [] {
      assert p.history + added == p.history;
    } else {
      assert added == [added[0]] && added[0] in added;
      OtherKeepsHistory(p.history, added[0], hook);
    }
  }

  lemma OtherIsSound(s: State, hook: string)
    requires OtherInv(s)
    ensures Inv(s) && AllFree(s, hook, Synchronization)
  {
    hide Inv;
  }

  // ---------- No binding of the hook run on Synchronization ----------

  ghost predicate UnsynchronizedInv(p: System, hook: string) {
    && Inv(p.main) && AllFree(p.main, hook, Synchronization)
    && (forall queue :: queue in p.others ==> OtherInv(p.others[queue]))
    && (forall c :: c in p.history ==> !CallCarries(c, hook, Synchronization))
  }

  lemma HeadTasksAreFree(u: Setup, main: State, l: Label, hook: string)
    requires l.Return? && main.items != [] && HandlerReturns(main.items[0], l.result)
    requires HandsOverConfigured(u, main, l) && Synchronized(u, hook) == []
    ensures l.result.tailTasks == [] && forall t :: t in l.result.headTasks ==> Free(t, hook, Synchronization)
  {
    hide Carries;
    forall t | t in l.result.headTasks ensures Free(t, hook, Synchronization) {
      assert IsEnable(main.items[0]) && l.result.status == Success;
      assert IsSynchronizationTask(main.items[0].meta.value.hookName, t);
    }
  }

  lemma IncomingToMain(u: Setup, p: System, l: Label, hook: string)
    requires Allowed(u, p, OnMain(l)) && Synchronized(u, hook) == []
    ensures forall t :: t in Incoming(l) ==> Free(t, hook, Synchronization)
  {
    hide HandlerReturns, HandsOverConfigured, RoutedHere, Synchronized, Enabled, Carries;
    if l.Return? {
      HeadTasksAreFree(u, p.main, l, hook);
    }
  }

  lemma MainStepKeepsUnsynchronized(u: Setup, p: System, l: Label, hook: string)
    requires UnsynchronizedInv(p, hook) && Allowed(u, p, OnMain(l)) && Synchronized(u, hook) == []
    ensures UnsynchronizedInv(SystemStep(u, p, OnMain(l)), hook)
  {
    hide Inv;
    hide OtherInv;
    hide AllFree;
    hide CallCarries;
    var cfg := QueueConfig(u, "main");
    IncomingToMain(u, p, l, hook);
    StepKeepsInv(cfg, p.main, l);
    StepKeepsFree(cfg, p.main, l, hook, Synchronization);
    FreeCalls(cfg, p.main, l, hook, Synchronization);
  }

  lemma OtherStepKeepsUnsynchronized(u: Setup, p: System, queue: string, l: Label, hook: string)
    requires UnsynchronizedInv(p, hook) && Allowed(u, p, OnOther(queue, l))
    ensures UnsynchronizedInv(SystemStep(u, p, OnOther(queue, l)), hook)
  {
    hide Inv;
    hide OtherInv;
    hide AllFree;
    hide CallCarries;
    var cfg, before := QueueConfig(u, queue), p.others[queue];
    OtherKeepsInv(cfg, before, l);
    OtherIsSound(before, hook);
    FreeCalls(cfg, before, l, hook, Synchronization);
  }

  // ---------- Never late ----------

  /** Nothing of the hook can be synchronized too late. */
  predicate IsSafe(u: Setup, hook: string) {
    Synchronized(u, hook) == [] || forall b :: hook in u.hooks && b in u.hooks[hook].kubes ==> b.queue == "main"
  }

  ghost predicate SafeInv(u: Setup, p: System, hook: string) {
    && p.others.Keys == OtherQueues(u)
    && if Synchronized(u, hook) == [] then UnsynchronizedInv(p, hook) else OnMainInv(p, hook)
  }

  lemma StepKeepsSafe(u: Setup, p: System, l: SystemLabel, hook: string)
    requires IsSafe(u, hook) && SafeInv(u, p, hook) && Allowed(u, p, l)
    ensures SafeInv(u, SystemStep(u, p, l), hook)
  {
    hide UnsynchronizedInv;
    hide OnMainInv;
    match l {
      case OnMain(m) =>
        if Synchronized(u, hook) == [] {
          MainStepKeepsUnsynchronized(u, p, m, hook);
        } else {
          MainStepKeepsOnMain(u, p, m, hook);
        }
      case OnOther(queue, m) =>
        if Synchronized(u, hook) == [] {
          OtherStepKeepsUnsynchronized(u, p, queue, m, hook);
        } else {
          OtherStepKeepsOnMain(u, p, queue, m, hook);
        }
    }
  }

  lemma {:induction false} RunKeepsSafe(u: Setup, p: System, run: seq<SystemLabel>, hook: string)
    requires IsSafe(u, hook) && SafeInv(u, p, hook) && SystemRun(u, p, run)
    ensures SafeInv(u, SystemExecute(u, p, run), hook)
    decreases |run|
  {
    hide SafeInv;
    hide Allowed;
    hide SystemStep;
    if run != [] {
      StepKeepsSafe(u, p, run[0], hook);
      RunKeepsSafe(u, SystemStep(u, p, run[0]), run[1..], hook);
    }
  }

  lemma StartIsSafe(u: Setup, items: seq<Task>, hook: string)
    requires IsOperatorStart(items)
    ensures SafeInv(u, SystemStart(u, items), hook)
  {
    StartIsGood(items);
    StartIsGood([]);
    FreshStartIsMain(items);
    assert OtherInv(Start([]));
  }

  lemma SafeIsNeverLate(u: Setup, hook: string)
    requires IsSafe(u, hook)
    ensures NeverLate(u, hook)
  {
    forall items, run | IsOperatorStart(items) && SystemRun(u, SystemStart(u, items), run)
      ensures !LateSynchronization(SystemExecute(u, SystemStart(u, items), run).history, hook)
    {
      StartIsSafe(u, items, hook);
      RunKeepsSafe(u, SystemStart(u, items), run, hook);
    }
  }

  // ---------- A hook that is synchronized and has a binding elsewhere ----------

  ghost predicate Reachable(u: Setup, p: System, q: System) {
    exists run :: SystemRun(u, p, run) && SystemExecute(u, p, run) == q
  }

  lemma {:induction false} RunSnoc(u: Setup, p: System, run: seq<SystemLabel>, l: SystemLabel)
    requires SystemRun(u, p, run) && Allowed(u, SystemExecute(u, p, run), l)
    ensures SystemRun(u, p, run + [l])
    ensures SystemExecute(u, p, run + [l]) == SystemStep(u, SystemExecute(u, p, run), l)
    decreases |run|
  {
    hide Allowed;
    hide SystemStep;
    if run == [] {
      assert [] + [l] == [l] && [l][1..] == [];
    } else {
      assert (run + [l])[0] == run[0] && (run + [l])[1..] == run[1..] + [l];
      RunSnoc(u, SystemStep(u, p, run[0]), run[1..], l);
    }
  }

  lemma ReachNext(u: Setup, p: System, q: System, l: SystemLabel)
    requires Reachable(u, p, q) && Allowed(u, q, l)
    ensures Reachable(u, p, SystemStep(u, q, l))
  {
    hide Allowed;
    hide SystemStep;
    var run :| SystemRun(u, p, run) && SystemExecute(u, p, run) == q;
    RunSnoc(u, p, run, l);
  }

  /** A step of the main worker which calls nothing. */
  lemma MainNext(u: Setup, p: System, q: System, l: Label)
    requires Reachable(u, p, q) && Allowed(u, q, OnMain(l)) && !l.Return?
    ensures Reachable(u, p, q.(main := Step(QueueConfig(u, "main"), q.main, l)))
  {
    var s := Step(QueueConfig(u, "main"), q.main, l);
    assert q.history + NewCalls(q.main, s) == q.history;
    ReachNext(u, p, q, OnMain(l));
  }

  lemma OtherNext(u: Setup, p: System, q: System, queue: string, l: Label)
    requires Reachable(u, p, q) && Allowed(u, q, OnOther(queue, l)) && !l.Return?
    ensures Reachable(u, p, q.(others := q.others[queue := Step(QueueConfig(u, queue), q.others[queue], l)]))
  {
    var s := Step(QueueConfig(u, queue), q.others[queue], l);
    assert q.history + NewCalls(q.others[queue], s) == q.history;
    ReachNext(u, p, q, OnOther(queue, l));
  }

  lemma OnlyTaskAlone(cfg: Config, s: State)
    requires s.worker.Taken? && |s.items| == 1
    ensures StepScan(cfg, s) == s.(worker := Running(s.worker.id, s.worker.since))
  {
    var t := s.items[0];
    assert s.items[1..] == [];
    assert Scan(s.items, t, NeverStop()) == Scan(s.items[1..], t, NeverStop());
  }

  /** The main queue of an operator with this one hook. */
  function OneHookStart(hook: string): seq<Task> {
    [EnableOutline(EnableKubernetesBindings, hook).(id := "enable")]
  }

  /** The enabling handler is at work: the monitors are started. */
  function Enabling(hook: string): State {
    Start(OneHookStart(hook)).(worker := Running("enable", 0))
  }

  lemma RunningKeeps(s: State, since: nat)
    requires Inv(s) && s.items != [] && Pending(s.worker) == []
    ensures Inv(s.(worker := Running(s.items[0].id, since)))
  {
    hide IsBlockOf;
  }

  lemma OneTaskIsStart(hook: string)
    ensures ValidStart(OneHookStart(hook)) && IsOperatorStart(OneHookStart(hook))
  {
  }

  lemma OneHookIsStart(hook: string)
    ensures IsOperatorStart(OneHookStart(hook)) && Inv(Enabling(hook))
    ensures Enabling(hook).items == OneHookStart(hook)
  {
    var s := Start(OneHookStart(hook));
    assert Enabling(hook) == s.(worker := Running(s.items[0].id, 0)) && s.items == OneHookStart(hook);
    OneTaskIsStart(hook);
    hide Inv, IsOperatorStart, ValidStart;
    StartIsGood(OneHookStart(hook));
    RunningKeeps(s, 0);
  }

  lemma MainEnables(u: Setup, hook: string)
    ensures var p := SystemStart(u, OneHookStart(hook)); Reachable(u, p, p.(main := Enabling(hook)))
  {
    var p := SystemStart(u, OneHookStart(hook));
    assert SystemRun(u, p, []) && SystemExecute(u, p, []) == p;
    var taken := p.main.(worker := Taken("enable", 0));
    assert Step(QueueConfig(u, "main"), p.main, Take) == taken;
    MainNext(u, p, p, Take);
    OnlyTaskAlone(QueueConfig(u, "main"), taken);
    MainNext(u, p, p.(main := taken), ScanQueue);
  }

  // ---------- An Event is served on the other queue ----------

  function EventRun(hook: string, b: KubernetesBinding): Task {
    EventRouting.KubeTask(hook, b, EventRouting.KubeEvent(b.monitorId, Event, [], 1), "event")
  }

  lemma EventRunCarries(hook: string, b: KubernetesBinding)
    ensures var t := EventRun(hook, b);
      && Carries(t, Event) && !Carries(t, Synchronization) && t.queueName == b.queue && t.kind == HookRun
      && t.meta.Some? && t.meta.value.hookName == hook && t.meta.value.bindingType == OnKubernetesEvent
  {
    var t := EventRun(hook, b);
    assert Contexts(t)[0] in Contexts(t);
  }

  function EventArrived(hook: string, b: KubernetesBinding): State {
    AddLast(Start([]), EventRun(hook, b))
  }

  function EventCall(hook: string, b: KubernetesBinding): Call {
    var t := EventRun(hook, b);
    Call("event", Contexts(t), [t], 0, Success, 0, 0, 0, 0, 0)
  }

  function EventServedState(hook: string, b: KubernetesBinding): State {
    EventArrived(hook, b).(calls := [EventCall(hook, b)], worker := Appending("event", [], [], 0))
  }

  lemma OtherReturns(cfg: Config, hook: string, b: KubernetesBinding)
    ensures var s := EventArrived(hook, b).(worker := Running("event", 0));
      var l := Return(TaskResult(Success, [], [], 0), 0);
      Enabled(s, l) && OperatorLabel(cfg, s, l) && Step(cfg, s, l) == EventServedState(hook, b)
  {
    assert EventArrived(hook, b).items == [EventRun(hook, b)];
  }

  lemma OtherTakes(u: Setup, p: System, q: System, hook: string, b: KubernetesBinding)
    requires Reachable(u, p, q) && b.queue in q.others && q.others[b.queue] == EventArrived(hook, b)
    ensures Reachable(u, p, q.(others := q.others[b.queue := EventArrived(hook, b).(worker := Running("event", 0))]))
  {
    var s, cfg := EventArrived(hook, b), QueueConfig(u, b.queue);
    assert s.items == [EventRun(hook, b)];
    var taken := s.(worker := Taken("event", 0));
    OtherNext(u, p, q, b.queue, Take);
    var next := q.(others := q.others[b.queue := taken]);
    OnlyTaskAlone(cfg, taken);
    OtherNext(u, p, next, b.queue, ScanQueue);
    assert next.others[b.queue := s.(worker := Running("event", 0))] ==
           q.others[b.queue := s.(worker := Running("event", 0))];
  }

  lemma OtherServes(u: Setup, p: System, q: System, hook: string, b: KubernetesBinding)
    requires Reachable(u, p, q) && b.queue in q.others && q.others[b.queue] == EventArrived(hook, b)
    ensures Reachable(u, p, q.(others := q.others[b.queue := EventServedState(hook, b)],
                               history := q.history + [EventCall(hook, b)]))
  {
    OtherTakes(u, p, q, hook, b);
    var running := q.others[b.queue := EventArrived(hook, b).(worker := Running("event", 0))];
    var next := q.(others := running);
    OtherReturns(QueueConfig(u, b.queue), hook, b);
    ReachNext(u, p, next, OnOther(b.queue, Return(TaskResult(Success, [], [], 0), 0)));
    assert running[b.queue := EventServedState(hook, b)] == q.others[b.queue := EventServedState(hook, b)];
  }

  lemma EventMayArrive(u: Setup, hook: string, b: KubernetesBinding, q: System)
    requires hook in u.hooks && b in u.hooks[hook].kubes && b.queue != "main"
    requires q == SystemStart(u, OneHookStart(hook)).(main := Enabling(hook))
    ensures b.queue in q.others && q.others[b.queue] == Start([])
    ensures Allowed(u, q, OnOther(b.queue, Arrive(EventRun(hook, b))))
  {
    EventRunCarries(hook, b);
    hide EventRun, Carries;
    assert b.queue in OtherQueues(u);
    assert EnablesHook(q.main.items[0], hook);
    assert Started(q.main, hook) && HasBindingOn(u, hook, b.queue);
    EventIsNew(hook, b);
  }

  lemma EventIsNew(hook: string, b: KubernetesBinding)
    ensures Enabled(Start([]), Arrive(EventRun(hook, b)))
  {
  }

  lemma EventArrives(u: Setup, hook: string, b: KubernetesBinding, p: System, q: System)
    requires hook in u.hooks && b in u.hooks[hook].kubes && b.queue != "main"
    requires p == SystemStart(u, OneHookStart(hook)) && q == p.(main := Enabling(hook)) && Reachable(u, p, q)
    ensures b.queue in q.others
    ensures Reachable(u, p, q.(others := q.others[b.queue := EventArrived(hook, b)]))
  {
    hide Allowed, Reachable, EventRun;
    EventMayArrive(u, hook, b, q);
    var l := Arrive(EventRun(hook, b));
    OtherNext(u, p, q, b.queue, l);
    assert Step(QueueConfig(u, b.queue), Start([]), l) == EventArrived(hook, b) by { EventIsNew(hook, b); }
  }

  /** While the enabling handler is at work, an Event of the hook is served on the other queue. */
  lemma EventComesFirst(u: Setup, hook: string, b: KubernetesBinding)
    requires hook in u.hooks && b in u.hooks[hook].kubes && b.queue != "main"
    ensures var p := SystemStart(u, OneHookStart(hook));
      exists others :: Reachable(u, p, System(Enabling(hook), others, [EventCall(hook, b)]))
  {
    hide Reachable;
    var p := SystemStart(u, OneHookStart(hook));
    var q := p.(main := Enabling(hook));
    MainEnables(u, hook);
    EventArrives(u, hook, b, p, q);
    OtherServes(u, p, q.(others := q.others[b.queue := EventArrived(hook, b)]), hook, b);
    assert [] + [EventCall(hook, b)] == [EventCall(hook, b)];
  }

  // ---------- The main worker synchronizes the hook ----------

  /** A run of the hook with nothing but Synchronizations. */
  predicate OnlySync(t: Task, hook: string) {
    && t.kind == HookRun && t.meta.Some? && t.meta.value.hookName == hook
    && Contexts(t) != [] && forall c :: c in Contexts(t) ==> c.kubeType == Synchronization
  }

  /** All that is queued are such runs. */
  ghost predicate AllSync(s: State, hook: string) {
    && Inv(s)
    && (forall i :: 0 <= i < |s.items| ==> OnlySync(s.items[i], hook))
    && (forall i :: 0 <= i < |Pending(s.worker)| ==> OnlySync(Pending(s.worker)[i], hook))
  }

  /** Ids that differ from each other and from the enabling task's. */
  function SyncId(k: nat): (r: string)
    ensures |r| == k + 7
  {
    seq(k + 7, _ => 's')
  }

  function SyncRuns(u: Setup, hook: string): (r: seq<Task>)
    ensures |r| == |Synchronized(u, hook)|
    ensures forall i :: 0 <= i < |r| ==>
              r[i] == EventRouting.SynchronizationTask(hook, Synchronized(u, hook)[i], u.objects, SyncId(i))
  {
    seq(|Synchronized(u, hook)|, i requires 0 <= i < |Synchronized(u, hook)| =>
      EventRouting.SynchronizationTask(hook, Synchronized(u, hook)[i], u.objects, SyncId(i)))
  }

  lemma SyncTaskIsSync(u: Setup, hook: string, b: KubernetesBinding, id: string)
    ensures var t := EventRouting.SynchronizationTask(hook, b, u.objects, id);
      OnlySync(t, hook) && IsSynchronizationTask(hook, t) && t.id == id && t.failures == 0
  {
    var t := EventRouting.SynchronizationTask(hook, b, u.objects, id);
    assert Contexts(t)
        == [BindingContext(b.bindingName, OnKubernetesEvent, Synchronization, b.group, u.objects(b.monitorId))];
  }

  lemma SyncRunsAreSync(u: Setup, hook: string)
    ensures forall i :: 0 <= i < |SyncRuns(u, hook)| ==>
              var t := SyncRuns(u, hook)[i];
              OnlySync(t, hook) && IsSynchronizationTask(hook, t) && t.id == SyncId(i) && t.failures == 0
    ensures EventRouting.HandsOver(hook, Synchronized(u, hook), u.objects, SyncRuns(u, hook))
  {
    hide OnlySync;
    hide IsSynchronizationTask;
    forall i | 0 <= i < |SyncRuns(u, hook)|
      ensures var t := SyncRuns(u, hook)[i];
        OnlySync(t, hook) && IsSynchronizationTask(hook, t) && t.id == SyncId(i) && t.failures == 0
    {
      SyncTaskIsSync(u, hook, Synchronized(u, hook)[i], SyncId(i));
    }
  }

  lemma SyncRunsAreFresh(u: Setup, hook: string)
    ensures FreshTasks(Enabling(hook), SyncRuns(u, hook))
  {
    hide OnlySync;
    hide IsSynchronizationTask;
    var heads := SyncRuns(u, hook);
    SyncRunsAreSync(u, hook);
    assert Enabling(hook).seen == {"enable"} by {
      assert Ids(OneHookStart(hook)) == {"enable"};
    }
    forall i, j | 0 <= i < j < |heads| ensures heads[i].id != heads[j].id {
      assert |heads[i].id| == i + 7 && |heads[j].id| == j + 7;
    }
    forall i | 0 <= i < |heads| ensures heads[i].id !in Enabling(hook).seen {
      assert |heads[i].id| == i + 7 && |"enable"| == 6;
    }
  }

  /** What the enabling handler returns. */
  function EnableResult(u: Setup, hook: string): TaskResult {
    TaskResult(Success, SyncRuns(u, hook), [], 0)
  }

  lemma MayHandOver(u: Setup, q: System, hook: string)
    requires q.main == Enabling(hook)
    ensures Allowed(u, q, OnMain(Return(EnableResult(u, hook), 0)))
  {
    hide OnlySync;
    hide IsSynchronizationTask;
    SyncRunsAreSync(u, hook);
    SyncRunsAreFresh(u, hook);
    assert [] + SyncRuns(u, hook) == SyncRuns(u, hook);
    assert q.main.items == OneHookStart(hook);
  }

  lemma Returned(cfg: Config, u: Setup, hook: string)
    ensures Enabled(Enabling(hook), Return(EnableResult(u, hook), 0))
    ensures var s := Step(cfg, Enabling(hook), Return(EnableResult(u, hook), 0));
      && Inv(s) && s.worker == Appending("enable", [], SyncRuns(u, hook), 0) && s.items == OneHookStart(hook)
  {
    hide OnlySync;
    hide IsSynchronizationTask;
    OneHookIsStart(hook);
    SyncRunsAreFresh(u, hook);
    assert [] + SyncRuns(u, hook) == SyncRuns(u, hook);
    StepKeepsInv(cfg, Enabling(hook), Return(EnableResult(u, hook), 0));
  }

  lemma HasOneTask(hook: string)
    ensures |OneHookStart(hook)| == 1
  {
  }

  lemma RemovedSync(cfg: Config, u: Setup, s: State, hook: string)
    requires Inv(s) && s.worker == Appending("enable", [], SyncRuns(u, hook), 0) && s.items == OneHookStart(hook)
    ensures var s' := Step(cfg, s, RemoveHead);
      AllSync(s', hook) && s'.items == [] && s'.worker == Pushing(SyncRuns(u, hook), 0)
  {
    hide OnlySync, Inv, SyncRuns, StepRemove, OneHookStart;
    assert |s.items| == 1 by { HasOneTask(hook); }
    StepKeepsInv(cfg, s, RemoveHead);
    assert Step(cfg, s, RemoveHead) == StepRemove(s);
    OneRemoved(s);
    SyncRunsAreSync(u, hook);
  }

  lemma OneRemoved(s: State)
    requires Inv(s) && s.worker.Appending? && s.worker.tails == [] && |s.items| == 1
    ensures StepRemove(s).items == [] && StepRemove(s).worker == Pushing(s.worker.heads, s.worker.delay)
  {
    hide IsBlockOf;
    RemoveShape(s);
  }

  /** The enabling handler returns and its task is taken away. */
  lemma MainHandsOver(u: Setup, p: System, q: System, hook: string) returns (r: System)
    requires Reachable(u, p, q) && q.main == Enabling(hook)
    ensures Reachable(u, p, r) && q.history <= r.history
    ensures r.main.worker == Pushing(SyncRuns(u, hook), 0) && r.main.items == [] && AllSync(r.main, hook)
  {
    hide Inv;
    hide OnlySync;
    hide AllSync;
    var cfg := QueueConfig(u, "main");
    MayHandOver(u, q, hook);
    Returned(cfg, u, hook);
    ReachNext(u, p, q, OnMain(Return(EnableResult(u, hook), 0)));
    r := SystemStep(u, q, OnMain(Return(EnableResult(u, hook), 0)));
    RemovedSync(cfg, u, r.main, hook);
    MainNext(u, p, r, RemoveHead);
    r := r.(main := Step(cfg, r.main, RemoveHead));
  }

  lemma {:induction false} MainPushes(u: Setup, p: System, q: System, hook: string) returns (r: System)
    requires Reachable(u, p, q) && AllSync(q.main, hook) && q.main.worker.Pushing? && q.main.worker.delay == 0
    ensures Reachable(u, p, r) && r.history == q.history
    ensures r.main.worker == Pushing([], 0) && AllSync(r.main, hook)
    ensures |r.main.items| == |q.main.items| + |q.main.worker.heads|
    decreases |q.main.worker.heads|
  {
    r := q;
    if q.main.worker.heads != [] {
      var cfg := QueueConfig(u, "main");
      MainNext(u, p, q, PushHead);
      r := q.(main := Step(cfg, q.main, PushHead));
      StepKeepsInv(cfg, q.main, PushHead);
      PushedSync(cfg, q.main, hook);
      r := MainPushes(u, p, r, hook);
    }
  }

  lemma PushedSync(cfg: Config, s: State, hook: string)
    requires AllSync(s, hook) && Enabled(s, PushHead)
    ensures var s' := Step(cfg, s, PushHead);
      && (forall i :: 0 <= i < |s'.items| ==> OnlySync(s'.items[i], hook))
      && (forall i :: 0 <= i < |Pending(s'.worker)| ==> OnlySync(Pending(s'.worker)[i], hook))
  {
    hide Inv;
    hide OnlySync;
    var t := s.worker.heads[0];
    assert Pending(s.worker)[0] == t;
    forall i | 0 < i <= |s.items| ensures ([t] + s.items)[i] == s.items[i - 1] {
      ConsAt(t, s.items, i);
    }
  }

  lemma {:induction false} CompactStaysSync(xs: seq<BindingContext>)
    requires xs != [] && forall c :: c in xs ==> c.kubeType == Synchronization
    ensures Compact(xs) != [] && forall c :: c in Compact(xs) ==> c.kubeType == Synchronization
  {
    if |xs| > 1 {
      CompactStaysSync(xs[1..]);
    } else {
      assert xs[1..] == [];
    }
  }

  /** After combining, the head still has nothing but Synchronizations. */
  lemma MergedSync(s: State, hook: string)
    requires AllSync(s, hook) && s.worker.Scanned?
    ensures StepFilter(s).items != [] && OnlySync(StepFilter(s).items[0], hook)
  {
    hide IsBlockOf;
    FilterShape(s);
    assert OnlySync(s.items[0], hook) && SameHookAndKind(s.items[0], s.worker.others[0]);
    var xs := Contexts(s.items[0]) + AllContexts(s.worker.others);
    forall c | c in xs ensures c.kubeType == Synchronization {
      if c !in Contexts(s.items[0]) {
        InSomeTask(s.worker.others, c);
        var k :| 0 <= k < |s.worker.others| && c in Contexts(s.worker.others[k]);
        assert s.worker.others[k] == s.items[1 + k];
      }
    }
    CompactStaysSync(xs);
  }

  lemma TakenSync(cfg: Config, s: State, hook: string)
    requires AllSync(s, hook) && s.worker == Pushing([], 0) && s.items != []
    ensures var w := Step(cfg, s, Resume);
      w == s.(worker := Waiting(0)) && Enabled(w, Take) && AllSync(Step(cfg, w, Take), hook)
  {
    hide OnlySync;
    StepKeepsInv(cfg, s, Resume);
    StepKeepsInv(cfg, Step(cfg, s, Resume), Take);
  }

  lemma ScannedSync(cfg: Config, s: State, hook: string)
    requires AllSync(s, hook) && s.worker.Taken?
    ensures AllSync(StepScan(cfg, s), hook) && StepScan(cfg, s).items == s.items != []
    ensures StepScan(cfg, s).worker.Running? || StepScan(cfg, s).worker.Scanned?
  {
    hide OnlySync;
    StepKeepsInv(cfg, s, ScanQueue);
  }

  lemma MainTakesUp(u: Setup, p: System, q: System, hook: string) returns (r: System)
    requires Reachable(u, p, q) && AllSync(q.main, hook) && q.main.worker == Pushing([], 0) && q.main.items != []
    ensures Reachable(u, p, r) && r.history == q.history
    ensures AllSync(r.main, hook) && r.main.worker.Taken?
  {
    hide AllSync;
    var cfg := QueueConfig(u, "main");
    TakenSync(cfg, q.main, hook);
    MainNext(u, p, q, Resume);
    r := q.(main := q.main.(worker := Waiting(0)));
    MainNext(u, p, r, Take);
    r := r.(main := Step(cfg, r.main, Take));
  }

  lemma MainScans(u: Setup, p: System, q: System, hook: string) returns (r: System)
    requires Reachable(u, p, q) && AllSync(q.main, hook) && q.main.worker.Taken?
    ensures Reachable(u, p, r) && r.history == q.history
    ensures AllSync(r.main, hook) && r.main.items != [] && (r.main.worker.Running? || r.main.worker.Scanned?)
  {
    hide AllSync;
    hide StepScan;
    var cfg := QueueConfig(u, "main");
    ScannedSync(cfg, q.main, hook);
    MainNext(u, p, q, ScanQueue);
    r := q.(main := StepScan(cfg, q.main));
  }

  lemma MainFilters(u: Setup, p: System, q: System, hook: string) returns (r: System)
    requires Reachable(u, p, q) && AllSync(q.main, hook) && q.main.worker.Scanned?
    ensures Reachable(u, p, r) && r.history == q.history
    ensures Inv(r.main) && r.main.worker.Running? && r.main.items != [] && OnlySync(r.main.items[0], hook)
  {
    hide Inv;
    hide OnlySync;
    var cfg := QueueConfig(u, "main");
    MergedSync(q.main, hook);
    StepKeepsInv(cfg, q.main, FilterQueue);
    MainNext(u, p, q, FilterQueue);
    r := q.(main := StepFilter(q.main));
  }

  /** The worker takes up the queue and comes to its handler. */
  lemma MainRuns(u: Setup, p: System, q: System, hook: string) returns (r: System)
    requires Reachable(u, p, q) && AllSync(q.main, hook) && q.main.worker == Pushing([], 0) && q.main.items != []
    ensures Reachable(u, p, r) && r.history == q.history
    ensures Inv(r.main) && r.main.worker.Running? && r.main.items != [] && OnlySync(r.main.items[0], hook)
  {
    hide Inv;
    hide OnlySync;
    hide Reachable;
    r := MainTakesUp(u, p, q, hook);
    r := MainScans(u, p, r, hook);
    if r.main.worker.Scanned? {
      r := MainFilters(u, p, r, hook);
    }
  }

  /** The handler returns, which records the call of the hook with its Synchronizations. */
  lemma MainCalls(u: Setup, p: System, q: System, hook: string) returns (r: System)
    requires Reachable(u, p, q)
    requires Inv(q.main) && q.main.worker.Running? && q.main.items != [] && OnlySync(q.main.items[0], hook)
    ensures Reachable(u, p, r) && |r.history| == |q.history| + 1 && q.history <= r.history
    ensures CallCarries(r.history[|q.history|], hook, Synchronization)
  {
    var l := Return(TaskResult(Success, [], [], 0), 0);
    ReachNext(u, p, q, OnMain(l));
    r := SystemStep(u, q, OnMain(l));
    var t := q.main.items[0];
    assert IsBlockOf(q.main.blocks[0], t);
    assert Contexts(t)[0] in Contexts(t);
  }

  lemma LateOnOther(u: Setup, hook: string)
    requires !IsSafe(u, hook)
    ensures !NeverLate(u, hook)
  {
    var p := SystemStart(u, OneHookStart(hook));
    var b :| hook in u.hooks && b in u.hooks[hook].kubes && b.queue != "main";
    OneHookIsStart(hook);
    EventComesFirst(u, hook, b);
    var others :| Reachable(u, p, System(Enabling(hook), others, [EventCall(hook, b)]));
    var q := MainHandsOver(u, p, System(Enabling(hook), others, [EventCall(hook, b)]), hook);
    q := MainPushes(u, p, q, hook);
    q := MainRuns(u, p, q, hook);
    var r := MainCalls(u, p, q, hook);
    EventRunCarries(hook, b);
    assert r.history[0] == EventCall(hook, b) && CallCarries(r.history[0], hook, Event);
    assert LateSynchronization(r.history, hook);
  }

  /** A hook is never called with a Synchronization after it has succeeded on an Event, however the
      workers of all queues interleave, exactly when its configuration has no binding that is run on
      Synchronization, or has all its kubernetes bindings on the main queue. */
  lemma NeverLateExactly(u: Setup, hook: string)
    ensures NeverLate(u, hook) <==> IsSafe(u, hook)
  {
    if IsSafe(u, hook) {
      SafeIsNeverLate(u, hook);
    } else {
      LateOnOther(u, hook);
    }
  }
}
