/**
 One task queue with its worker, as a step system. The worker takes the head,
 scans and filters the queue when the head may absorb its successors, runs the
 handler and then retries or replaces the head; the event goroutine appends
 tasks at any point in between. Every lock-protected operation of the source is
 one step. Choices of the environment (arriving tasks, handler results, random
 addends, passing time) are the labels, so a run is a sequence of labels.

 `queued`, `blocks`, `finished` and `calls` are a history that no step reads
 to decide anything else: every task ever put into the queue, the original
 tasks merged into each queued task, the merged tasks already done, and the
 handler calls that returned.
 */
module WorkerMachine {
  import opened Sequences
  import opened BindingContexts
  import opened Tasks
  import opened Backoff

  const DELAY_ON_QUEUE_IS_EMPTY: nat := 3 * SECOND
  const DELAY_ON_FAILED_TASK: nat := 5 * SECOND
  const DELAY_ON_REPEAT: nat := 25 * MILLISECOND

  datatype Config = Config(queueName: string, v1Hooks: set<string>)

  datatype Status = Success | Fail | Repeat | NoStatus

  datatype TaskResult = TaskResult(
    status: Status,
    headTasks: seq<Task>,
    tailTasks: seq<Task>,
    delayBeforeNextTask: nat)

  datatype Worker =
    | Waiting(sleep: nat)
    | Sleeping(until: nat)
    | Taken(id: string, since: nat)
    | Scanned(id: string, others: seq<Task>, since: nat)
    | Running(id: string, since: nat)
    | Appending(id: string, tails: seq<Task>, heads: seq<Task>, delay: nat)
    | Pushing(heads: seq<Task>, delay: nat)
    | Stopped

  datatype Call = Call(
    id: string,
    contexts: seq<BindingContext>,
    merged: seq<Task>,
    failures: nat,
    status: Status,
    requestedDelay: nat,
    rnd: int,
    started: nat,
    ended: nat,
    delay: nat)

  datatype State = State(
    items: seq<Task>,
    worker: Worker,
    clock: nat,
    seen: set<string>,
    queued: seq<Task>,
    blocks: seq<seq<Task>>,
    finished: seq<seq<Task>>,
    calls: seq<Call>)

  datatype Label =
    | Arrive(task: Task)
    | Tick(elapsed: nat)
    | Take
    | Doze
    | Wake
    | ScanQueue
    | FilterQueue
    | Return(result: TaskResult, rnd: int)
    | AppendTail
    | RemoveHead
    | PushHead
    | Resume
    | Halt

  // ---------- Steps ----------

  function Pending(w: Worker): seq<Task> {
    match w
    case Appending(_, tails, heads, _) => tails + heads
    case Pushing(heads, _) => heads
    case _ => []
  }

  /** Task ids are random UUIDs: a new task never reuses one. */
  predicate FreshTasks(s: State, ts: seq<Task>) {
    && (forall i :: 0 <= i < |ts| ==> ts[i].id !in s.seen && ts[i].failures == 0)
    && (forall i, j :: 0 <= i < j < |ts| ==> ts[i].id != ts[j].id)
  }

  predicate MayCombine(cfg: Config, t: Task) {
    t.kind == HookRun && t.meta.Some? && t.meta.value.hookName in cfg.v1Hooks && t.queueName == cfg.queueName
  }

  predicate Enabled(s: State, l: Label) {
    match l
    case Arrive(t) =>
      t.id !in s.seen && t.failures == 0 && forall i :: 0 <= i < |Pending(s.worker)| ==> Pending(s.worker)[i].id != t.id
    case Tick(_) => true
    case Take => s.worker == Waiting(0) && s.items != []
    case Doze => s.worker.Waiting? && (s.worker.sleep != 0 || s.items == [])
    case Wake => s.worker.Sleeping? && s.clock >= s.worker.until
    case ScanQueue => s.worker.Taken?
    case FilterQueue => s.worker.Scanned?
    case Return(r, rnd) =>
      s.worker.Running? && IsRandomMs(rnd) && (r.status == Success ==> FreshTasks(s, r.tailTasks + r.headTasks))
    case AppendTail => s.worker.Appending? && s.worker.tails != []
    case RemoveHead => s.worker.Appending? && s.worker.tails == []
    case PushHead => s.worker.Pushing? && s.worker.heads != []
    case Resume => s.worker.Pushing? && s.worker.heads == []
    case Halt => s.worker.Waiting? || s.worker.Sleeping? || s.worker.Running?
  }

  function AddLast(s: State, t: Task): State {
    s.(items := s.items + [t], seen := s.seen + {t.id}, queued := s.queued + [t], blocks := s.blocks + [[t]])
  }

  function AddFirst(s: State, t: Task): State {
    s.(items := [t] + s.items, seen := s.seen + {t.id}, queued := s.queued + [t], blocks := [[t]] + s.blocks)
  }

  function IndexOfId(items: seq<Task>, id: string): (k: nat)
    ensures k <= |items|
    ensures forall i :: 0 <= i < k ==> items[i].id != id
    ensures k < |items| ==> items[k].id == id
  {
    if items == [] || items[0].id == id then 0 else 1 + IndexOfId(items[1..], id)
  }

  function RemoveIndex<T>(xs: seq<T>, k: nat): (r: seq<T>)
    ensures k < |xs| ==> r == xs[..k] + xs[k + 1..]
    ensures k >= |xs| ==> r == xs
  {
    if k < |xs| then xs[..k] + xs[k + 1..] else xs
  }

  /** Iterate under the read lock. */
  function StepScan(cfg: Config, s: State): State
    requires s.worker.Taken?
  {
    var w := s.worker;
    if s.items != [] && MayCombine(cfg, s.items[0]) then
      var others := Scan(s.items, s.items[0], NeverStop());
      if others == [] then s.(worker := Running(w.id, w.since))
      else s.(worker := Scanned(w.id, others, w.since))
    else s.(worker := Running(w.id, w.since))
  }

  /** Filter under the write lock; then the head's metadata receives the compacted contexts. */
  function StepFilter(s: State): State
    requires s.worker.Scanned?
  {
    var w := s.worker;
    var kept := Without(s.items, Ids(w.others));
    var n := 1 + |w.others|;
    s.(items := if kept == [] || s.items == [] then kept
                else [WithContexts(kept[0], Compact(Contexts(s.items[0]) + AllContexts(w.others)))] + kept[1..],
       blocks := if n <= |s.blocks| then [Flatten(s.blocks[..n])] + s.blocks[n..] else s.blocks,
       worker := Running(w.id, w.since))
  }

  function NextDelay(r: TaskResult, failures: nat, rnd: int): (d: nat)
    requires IsRandomMs(rnd)
  {
    DelayRange(DELAY_ON_FAILED_TASK, failures, rnd);
    if r.delayBeforeNextTask != 0 then r.delayBeforeNextTask
    else match r.status
      case Fail => CalculateDelay(DELAY_ON_FAILED_TASK, failures, rnd)
      case Repeat => DELAY_ON_REPEAT
      case _ => 0
  }

  /** The handler's result is applied; `d` is the delay before the next task. */
  function ReturnWith(s: State, r: TaskResult, rnd: int, d: nat): State
    requires s.worker.Running?
  {
    if s.items == [] || s.blocks == [] then s else
      var t := s.items[0];
      var logged := s.(calls := s.calls + [Call(s.worker.id, Contexts(t), s.blocks[0], t.failures, r.status,
                                                r.delayBeforeNextTask, rnd, s.worker.since, s.clock, d)]);
      match r.status
      case Fail =>
        logged.(items := [t.(failures := t.failures + 1)] + s.items[1..], worker := Waiting(d))
      case Success =>
        logged.(worker := Appending(s.worker.id, r.tailTasks, r.headTasks, d))
      case _ =>
        logged.(worker := Waiting(d))
  }

  function StepReturn(s: State, r: TaskResult, rnd: int): State
    requires s.worker.Running? && IsRandomMs(rnd)
  {
    ReturnWith(s, r, rnd, if s.items == [] then 0 else NextDelay(r, s.items[0].failures, rnd))
  }

  function StepRemove(s: State): State
    requires s.worker.Appending?
  {
    var k := IndexOfId(s.items, s.worker.id);
    s.(items := RemoveIndex(s.items, k),
       blocks := RemoveIndex(s.blocks, k),
       finished := if k < |s.items| && k < |s.blocks| then s.finished + [s.blocks[k]] else s.finished,
       worker := Pushing(s.worker.heads, s.worker.delay))
  }

  function Step(cfg: Config, s: State, l: Label): State
    requires Enabled(s, l)
  {
    match l
    case Arrive(t) => AddLast(s, t)
    case Tick(dt) => s.(clock := s.clock + dt)
    case Take => s.(worker := Taken(s.items[0].id, s.clock))
    case Doze =>
      s.(worker := Sleeping(s.clock + if s.worker.sleep != 0 then s.worker.sleep else DELAY_ON_QUEUE_IS_EMPTY))
    case Wake => s.(worker := Waiting(0))
    case ScanQueue => StepScan(cfg, s)
    case FilterQueue => StepFilter(s)
    case Return(r, rnd) => StepReturn(s, r, rnd)
    case AppendTail => AddLast(s, s.worker.tails[0]).(worker := s.worker.(tails := s.worker.tails[1..]))
    case RemoveHead => StepRemove(s)
    case PushHead => AddFirst(s, s.worker.heads[0]).(worker := s.worker.(heads := s.worker.heads[1..]))
    case Resume => s.(worker := Waiting(s.worker.delay))
    case Halt => s.(worker := Stopped)
  }

  // ---------- Runs ----------

  function Singles(ts: seq<Task>): (r: seq<seq<Task>>)
    ensures |r| == |ts| && forall i :: 0 <= i < |ts| ==> r[i] == [ts[i]]
  {
    seq(|ts|, i requires 0 <= i < |ts| => [ts[i]])
  }

  function Start(items: seq<Task>): State {
    State(items, Waiting(0), 0, Ids(items), items, Singles(items), [], [])
  }

  predicate ValidStart(items: seq<Task>) {
    && (forall i :: 0 <= i < |items| ==> items[i].failures == 0)
    && (forall i, j :: 0 <= i < j < |items| ==> items[i].id != items[j].id)
  }

  /** The labels can be executed one after the other from `s`. */
  predicate Executable(cfg: Config, s: State, run: seq<Label>)
    decreases |run|
  {
    run == [] || (Enabled(s, run[0]) && Executable(cfg, Step(cfg, s, run[0]), run[1..]))
  }

  function Execute(cfg: Config, s: State, run: seq<Label>): State
    requires Executable(cfg, s, run)
    decreases |run|
  {
    if run == [] then s else Execute(cfg, Step(cfg, s, run[0]), run[1..])
  }

  /** What the hook is given for a block of merged tasks: the contexts of a lone
      task untouched, the contexts of several tasks concatenated and compacted once. */
  function Folded(block: seq<Task>): seq<BindingContext> {
    if |block| == 1 then Contexts(block[0]) else Compact(AllContexts(block))
  }

  /** Equal up to contexts and the failure counter. */
  predicate SameTask(t: Task, origin: Task) {
    WithContexts(t, []).(failures := 0) == WithContexts(origin, []).(failures := 0)
  }

  ghost predicate IsBlockOf(block: seq<Task>, t: Task) {
    && block != []
    && SameTask(t, block[0])
    && Contexts(t) == Folded(block)
    && forall j :: 1 <= j < |block| ==> SameHookAndKind(block[0], block[j])
  }

  ghost predicate WorkerInv(s: State) {
    match s.worker
    case Taken(id, _) => s.items != [] && s.items[0].id == id
    case Scanned(id, others, _) =>
      && 0 < |others| < |s.items| && s.items[0].id == id
      && others == s.items[1..1 + |others|]
      && forall j :: 0 <= j < |others| ==> SameHookAndKind(s.items[0], others[j])
    case Running(id, _) => s.items != [] && s.items[0].id == id
    case Appending(id, _, _, _) => s.items != [] && s.items[0].id == id
    case Pushing(_, _) => s.blocks != [] ==> |s.blocks[0]| == 1
    case _ => true
  }

  ghost predicate BlocksInv(s: State) {
    && |s.blocks| == |s.items|
    && (forall i :: 0 <= i < |s.items| ==> IsBlockOf(s.blocks[i], s.items[i]))
    && (forall i :: 1 <= i < |s.items| ==> |s.blocks[i]| == 1)
  }

  ghost predicate IdsInv(s: State) {
    && DistinctIds(s.items)
    && (forall i :: 0 <= i < |s.items| ==> s.items[i].id in s.seen)
    && FreshTasks(s, Pending(s.worker))
  }

  ghost predicate Inv(s: State) {
    BlocksInv(s) && IdsInv(s) && WorkerInv(s)
  }
}
