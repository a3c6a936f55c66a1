/**
 Every interleaving is equivalent to a serial one. The worker combines in two separately
 locked steps and replaces a finished head in several more, with arrivals in between; each
 run nevertheless leads to the queue that a plain list of uninterrupted operations builds.
 */
module WorkerSerial {
  import opened Sequences
  import opened Tasks
  import opened WorkerMachine
  import opened WorkerLedger

  /** Uninterrupted operations on a queue. */
  datatype SerialOp =
    | Nothing
    | Append(task: Task)
    | CombineHead
    | RetryHead
    | ReplaceHead(heads: seq<Task>)

  function Apply(q: seq<Task>, op: SerialOp): seq<Task> {
    match op
    case Nothing => q
    case Append(t) => q + [t]
    case CombineHead => if q == [] then q else Combined(q, NeverStop())
    case RetryHead => if q == [] then q else [q[0].(failures := q[0].failures + 1)] + q[1..]
    case ReplaceHead(heads) => if q == [] then q else Reverse(heads) + q[1..]
  }

  function ApplyAll(q: seq<Task>, ops: seq<SerialOp>): seq<Task>
    decreases |ops|
  {
    if ops == [] then q else ApplyAll(Apply(q, ops[0]), ops[1..])
  }

  /** The moment at which a run performs an operation in one piece: combining at the scan,
      replacing the head at its removal, everything else when it happens. */
  function SerialOf(cfg: Config, s: State, l: Label): SerialOp
    requires Enabled(s, l)
  {
    match l
    case Arrive(t) => Append(t)
    case AppendTail => Append(s.worker.tails[0])
    case ScanQueue => if StepScan(cfg, s).worker.Scanned? then CombineHead else Nothing
    case RemoveHead => ReplaceHead(s.worker.heads)
    case Return(r, _) => if r.status == Fail then RetryHead else Nothing
    case _ => Nothing
  }

  function SerialRun(cfg: Config, s: State, run: seq<Label>): (ops: seq<SerialOp>)
    requires Executable(cfg, s, run)
    decreases |run|
  {
    if run == [] then [] else [SerialOf(cfg, s, run[0])] + SerialRun(cfg, Step(cfg, s, run[0]), run[1..])
  }

  /** The queue as if the operation in progress were already completed. */
  function Committed(s: State): seq<Task> {
    match s.worker
    case Scanned(_, others, _) =>
      if |others| < |s.items| then HeadMerged(s) else s.items
    case Pushing(heads, _) => Reverse(heads) + s.items
    case _ => s.items
  }

  /** The step performs its serial operation on the committed queue. */
  ghost predicate Simulates(cfg: Config, s: State, l: Label)
    requires Enabled(s, l)
  {
    Committed(Step(cfg, s, l)) == Apply(Committed(s), SerialOf(cfg, s, l))
  }

  lemma ScanCommits(cfg: Config, s: State)
    requires Inv(s) && s.worker.Taken?
    ensures Simulates(cfg, s, ScanQueue)
  {
    ScanKeeps(cfg, s);
  }

  lemma FilterCommits(cfg: Config, s: State)
    requires IsScanned(s)
    ensures Simulates(cfg, s, FilterQueue)
  {
    FilterShape(s);
  }

  lemma RemoveCommits(cfg: Config, s: State)
    requires Inv(s) && Enabled(s, RemoveHead)
    ensures Simulates(cfg, s, RemoveHead)
  {
    RemoveShape(s);
  }

  lemma ReturnCommits(s: State, r: TaskResult, rnd: int, d: nat)
    requires Inv(s) && s.worker.Running?
    ensures Committed(ReturnWith(s, r, rnd, d)) == Apply(Committed(s), if r.status == Fail then RetryHead else Nothing)
  {
  }

  lemma ArriveCommits(cfg: Config, s: State, t: Task)
    requires Enabled(s, Arrive(t)) && (s.worker.Scanned? ==> IsScanned(s))
    ensures Simulates(cfg, s, Arrive(t))
  {
    if s.worker.Scanned? {
      var n := 1 + |s.worker.others|;
      assert (s.items + [t])[n..] == s.items[n..] + [t];
    } else if s.worker.Pushing? {
      assert Reverse(s.worker.heads) + (s.items + [t]) == Reverse(s.worker.heads) + s.items + [t];
    }
  }

  lemma PushCommits(cfg: Config, s: State)
    requires Enabled(s, PushHead)
    ensures Simulates(cfg, s, PushHead)
  {
    var heads := s.worker.heads;
    assert Reverse(heads) == Reverse(heads[1..]) + [heads[0]];
    assert Reverse(heads[1..]) + ([heads[0]] + s.items) == Reverse(heads[1..]) + [heads[0]] + s.items;
  }

  lemma TickCommits(cfg: Config, s: State, l: Label)
    requires Enabled(s, l) && l.Tick? && (s.worker.Scanned? ==> IsScanned(s))
    ensures Simulates(cfg, s, l)
  {
  }

  lemma TailCommits(cfg: Config, s: State, l: Label)
    requires Enabled(s, l) && l.AppendTail?
    ensures Simulates(cfg, s, l)
  {
  }

  lemma QuietCommits(cfg: Config, s: State, l: Label)
    requires Enabled(s, l) && (l.Take? || l.Doze? || l.Wake? || l.Resume? || l.Halt?)
    ensures Simulates(cfg, s, l)
  {
    if l.Resume? {
      assert Reverse([]) + s.items == s.items;
    }
  }

  lemma StepIsSerial(cfg: Config, s: State, l: Label)
    requires Inv(s) && Enabled(s, l)
    ensures Simulates(cfg, s, l)
  {
    if l.ScanQueue? {
      ScanCommits(cfg, s);
    } else if l.FilterQueue? {
      FilterCommits(cfg, s);
    } else if l.RemoveHead? {
      RemoveCommits(cfg, s);
    } else if l.Arrive? {
      ArriveCommits(cfg, s, l.task);
    } else if l.PushHead? {
      PushCommits(cfg, s);
    } else if l.Return? {
      ReturnCommits(s, l.result, l.rnd, NextDelay(l.result, s.items[0].failures, l.rnd));
    } else if l.Tick? {
      TickCommits(cfg, s, l);
    } else if l.AppendTail? {
      TailCommits(cfg, s, l);
    } else {
      QuietCommits(cfg, s, l);
    }
  }

  lemma {:induction false} RunIsSerial(cfg: Config, s: State, run: seq<Label>)
    requires Inv(s) && Executable(cfg, s, run)
    ensures Committed(Execute(cfg, s, run)) == ApplyAll(Committed(s), SerialRun(cfg, s, run))
    decreases |run|
  {
    if run != [] {
      StepKeepsInv(cfg, s, run[0]);
      StepIsSerial(cfg, s, run[0]);
      RunIsSerial(cfg, Step(cfg, s, run[0]), run[1..]);
    }
  }

  /** Whenever no combine and no head replacement is half done, the queue is exactly what the
      serial operations produce. */
  lemma InterleavingsAreSerial(cfg: Config, items: seq<Task>, run: seq<Label>)
    requires ValidStart(items) && Executable(cfg, Start(items), run)
    ensures var s := Execute(cfg, Start(items), run);
      !s.worker.Scanned? && !s.worker.Pushing? ==> s.items == ApplyAll(items, SerialRun(cfg, Start(items), run))
  {
    StartIsGood(items);
    RunIsSerial(cfg, Start(items), run);
  }

  function Arrivals(ts: seq<Task>): (r: seq<Label>)
    ensures |r| == |ts| && forall i :: 0 <= i < |ts| ==> r[i] == Arrive(ts[i])
  {
    seq(|ts|, i requires 0 <= i < |ts| => Arrive(ts[i]))
  }

  function AddAll(s: State, ts: seq<Task>): (r: State)
    ensures r.items == s.items + ts && r.worker == s.worker
    decreases |ts|
  {
    if ts == [] then s else AddAll(AddLast(s, ts[0]), ts[1..])
  }

  lemma OneArrival(cfg: Config, s: State, t: Task, rest: seq<Label>)
    requires Executable(cfg, s, [Arrive(t)] + rest)
    ensures Enabled(s, Arrive(t)) && Executable(cfg, AddLast(s, t), rest)
    ensures Execute(cfg, s, [Arrive(t)] + rest) == Execute(cfg, AddLast(s, t), rest)
  {
    var run := [Arrive(t)] + rest;
    assert run[0] == Arrive(t) && run[1..] == rest;
    assert Step(cfg, s, run[0]) == AddLast(s, t);
  }

  lemma {:induction false} ManyArrivals(cfg: Config, s: State, ts: seq<Task>, rest: seq<Label>)
    requires Executable(cfg, s, Arrivals(ts) + rest) && DistinctIds(s.items)
    requires forall i :: 0 <= i < |s.items| ==> s.items[i].id in s.seen
    ensures Executable(cfg, AddAll(s, ts), rest) && DistinctIds(AddAll(s, ts).items)
    ensures Execute(cfg, s, Arrivals(ts) + rest) == Execute(cfg, AddAll(s, ts), rest)
    decreases |ts|
  {
    if ts == [] {
      assert Arrivals(ts) + rest == rest;
    } else {
      assert Arrivals(ts) + rest == [Arrive(ts[0])] + (Arrivals(ts[1..]) + rest);
      OneArrival(cfg, s, ts[0], Arrivals(ts[1..]) + rest);
      ManyArrivals(cfg, AddLast(s, ts[0]), ts[1..], rest);
    }
  }

  lemma OnlyFilter(cfg: Config, s: State)
    requires s.worker.Scanned?
    ensures Executable(cfg, s, [FilterQueue]) && Execute(cfg, s, [FilterQueue]) == StepFilter(s)
  {
    assert Execute(cfg, StepFilter(s), []) == StepFilter(s);
  }

  lemma FilterAfterArrivals(s: State, s': State, ts: seq<Task>)
    requires IsScanned(s) && IsScanned(s') && s'.worker == s.worker && s'.items == s.items + ts
    ensures StepFilter(s').items == StepFilter(s).items + ts
  {
    hide Without;
    FilterShape(s);
    FilterShape(s');
    var n := 1 + |s.worker.others|;
    assert (s.items + ts)[n..] == s.items[n..] + ts;
  }

  /** Tasks that arrive between the scan and the filter are never deleted by the filter: the
      result is the one of combining first and appending them afterwards. */
  lemma ArrivalsSurviveFilter(cfg: Config, s: State, ts: seq<Task>)
    requires Inv(s) && s.worker.Scanned? && Executable(cfg, s, Arrivals(ts) + [FilterQueue])
    ensures Execute(cfg, s, Arrivals(ts) + [FilterQueue]).items == StepFilter(s).items + ts
  {
    var s' := AddAll(s, ts);
    ManyArrivals(cfg, s, ts, [FilterQueue]);
    OnlyFilter(cfg, s');
    hide Execute, Executable, Inv;
    assert s'.items[1..1 + |s.worker.others|] == s.items[1..1 + |s.worker.others|];
    FilterAfterArrivals(s, s', ts);
  }
}
