/**
 What every run of the worker keeps: the structural invariant, the conservation
 of tasks, and first-in-first-out order when no handler pushes tasks to the head.
 */
module WorkerLedger {
  import opened Sequences
  import opened BindingContexts
  import opened Tasks
  import opened WorkerMachine

  // ---------- The invariant, step by step ----------

  lemma SingleIsBlock(t: Task)
    ensures IsBlockOf([t], t)
  {
  }

  lemma AddLastKeeps(s: State, t: Task)
    requires BlocksInv(s) && DistinctIds(s.items)
    requires forall i :: 0 <= i < |s.items| ==> s.items[i].id in s.seen
    requires t.id !in s.seen
    ensures BlocksInv(AddLast(s, t))
    ensures DistinctIds(AddLast(s, t).items)
    ensures forall i :: 0 <= i < |AddLast(s, t).items| ==> AddLast(s, t).items[i].id in AddLast(s, t).seen
  {
    hide IsBlockOf;
    SingleIsBlock(t);
  }

  lemma AddFirstKeepsIds(s: State, t: Task)
    requires DistinctIds(s.items)
    requires forall i :: 0 <= i < |s.items| ==> s.items[i].id in s.seen
    requires t.id !in s.seen
    ensures DistinctIds(AddFirst(s, t).items)
    ensures forall i :: 0 <= i < |AddFirst(s, t).items| ==> AddFirst(s, t).items[i].id in AddFirst(s, t).seen
  {
    var items := [t] + s.items;
    forall i | 1 <= i < |items| ensures items[i] == s.items[i - 1] && items[i].id in s.seen {}
  }

  lemma AddFirstKeepsBlocks(s: State, t: Task)
    requires BlocksInv(s)
    requires s.blocks != [] ==> |s.blocks[0]| == 1
    ensures BlocksInv(AddFirst(s, t))
  {
    hide IsBlockOf;
    var blocks, items := [[t]] + s.blocks, [t] + s.items;
    forall i | 0 <= i < |items| ensures IsBlockOf(blocks[i], items[i]) && |blocks[i]| == 1 {
      if i == 0 {
        SingleIsBlock(t);
      } else {
        ConsAt([t], s.blocks, i);
        ConsAt(t, s.items, i);
      }
    }
  }

  /** The tasks that a scan finds stand right behind the head. */
  lemma ScanIsStretch(s: State)
    requires s.items != [] && DistinctIds(s.items)
    ensures
      var t, others := s.items[0], Scan(s.items, s.items[0], NeverStop());
      && others == Scan(s.items[1..], t, NeverStop())
      && |others| < |s.items| && others == s.items[1..1 + |others|]
      && forall j :: 0 <= j < |others| ==> SameHookAndKind(t, others[j])
  {
    var t, rest := s.items[0], s.items[1..];
    assert s.items == [t] + rest;
    ScanSkipsSelf(t, rest, NeverStop());
    ScanIsPrefix(t, rest, NeverStop());
    var others := Scan(s.items, t, NeverStop());
    assert others == s.items[1..1 + |others|];
  }

  /** The head absorbs at least one successor when anything was scanned. */
  lemma ScanKeeps(cfg: Config, s: State)
    requires Inv(s) && s.worker.Taken?
    ensures Inv(StepScan(cfg, s))
    ensures StepScan(cfg, s).worker.Scanned? ==>
      StepScan(cfg, s).worker.others == Scan(s.items[1..], s.items[0], NeverStop())
  {
    hide IsBlockOf;
    hide Scan;
    ScanIsStretch(s);
  }

  lemma {:induction false} SinglesFlatten(blocks: seq<seq<Task>>, items: seq<Task>)
    requires |blocks| == |items|
    requires forall i :: 0 <= i < |items| ==> |blocks[i]| == 1 && IsBlockOf(blocks[i], items[i])
    ensures AllContexts(Flatten(blocks)) == AllContexts(items)
    ensures |Flatten(blocks)| == |items|
    ensures forall i :: 0 <= i < |items| ==> Flatten(blocks)[i] == blocks[i][0]
  {
    if items != [] {
      SinglesFlatten(blocks[1..], items[1..]);
      AllContextsAppend(blocks[0], Flatten(blocks[1..]));
      assert IsBlockOf(blocks[0], items[0]);
      assert AllContexts(blocks[0]) == Contexts(items[0]) + AllContexts([]);
    }
  }

  /** Compacting on every absorption equals compacting all original contexts once. */
  lemma FoldedAbsorbs(block: seq<Task>, more: seq<Task>)
    requires block != []
    ensures Compact(Folded(block) + AllContexts(more)) == Compact(AllContexts(block + more))
  {
    AllContextsAppend(block, more);
    if |block| == 1 {
      assert AllContexts(block) == Contexts(block[0]) + AllContexts([]);
    } else {
      CompactAbsorb(AllContexts(block), AllContexts(more));
    }
  }

  ghost predicate IsScanned(s: State) {
    && s.worker.Scanned? && DistinctIds(s.items)
    && 0 < |s.worker.others| < |s.items|
    && s.worker.others == s.items[1..1 + |s.worker.others|]
  }

  function HeadMerged(s: State): (r: seq<Task>)
    requires s.worker.Scanned? && |s.worker.others| < |s.items|
    ensures |r| == |s.items| - |s.worker.others|
    ensures r[0].id == s.items[0].id && r[0].failures == s.items[0].failures
    ensures r[1..] == s.items[1 + |s.worker.others|..]
  {
    [WithContexts(s.items[0], Compact(Contexts(s.items[0]) + AllContexts(s.worker.others)))] +
    s.items[1 + |s.worker.others|..]
  }

  /** The filter step: the queue is the head with the merged contexts, then everything
      behind the scanned stretch, including what arrived since the scan. */
  lemma FilterShape(s: State)
    requires IsScanned(s)
    ensures StepFilter(s).items == HeadMerged(s)
    ensures StepFilter(s).worker == Running(s.worker.id, s.worker.since)
  {
    var others := s.worker.others;
    var n := 1 + |others|;
    assert s.items == [s.items[0]] + others + s.items[n..];
    DeleteMiddle(s.items[0], others, s.items[n..]);
  }

  /** A block extended by tasks of the same hook is the block of the head with all their contexts. */
  lemma ExtendBlock(block: seq<Task>, more: seq<Task>, t: Task)
    requires IsBlockOf(block, t) && more != []
    requires forall j :: 0 <= j < |more| ==> SameHookAndKind(t, more[j])
    ensures IsBlockOf(block + more, WithContexts(t, Compact(Contexts(t) + AllContexts(more))))
  {
    FoldedAbsorbs(block, more);
    assert SameHookAndKind(t, more[0]);
    var all := block + more;
    forall j | 1 <= j < |all| ensures SameHookAndKind(all[0], all[j]) {
      if j >= |block| {
        assert SameHookAndKind(t, more[j - |block|]);
      }
    }
  }

  lemma BlockIsOfItsTask(block: seq<Task>, t: Task, x: Task)
    requires IsBlockOf(block, x) && SameHookAndKind(t, x)
    ensures SameHookAndKind(t, block[0])
  {
  }

  lemma FilterBlocks(s: State)
    requires Inv(s) && s.worker.Scanned?
    ensures var n := 1 + |s.worker.others|;
      && n <= |s.blocks|
      && StepFilter(s).blocks == [Flatten(s.blocks[..n])] + s.blocks[n..]
      && IsBlockOf(Flatten(s.blocks[..n]), StepFilter(s).items[0])
  {
    hide IsBlockOf;
    var others := s.worker.others;
    var n := 1 + |others|;
    FilterShape(s);
    var mid := s.blocks[1..n];
    forall i | 0 <= i < |others| ensures |mid[i]| == 1 && IsBlockOf(mid[i], others[i]) {
      assert mid[i] == s.blocks[1 + i] && others[i] == s.items[1 + i];
    }
    SinglesFlatten(mid, others);
    assert s.blocks[..n] == [s.blocks[0]] + mid;
    FlattenAppend([s.blocks[0]], mid);
    FlattenOne(s.blocks[0]);
    forall j | 0 <= j < |others| ensures SameHookAndKind(s.items[0], Flatten(mid)[j]) {
      BlockIsOfItsTask(mid[j], s.items[0], others[j]);
    }
    ExtendBlock(s.blocks[0], Flatten(mid), s.items[0]);
  }

  /** Replacing the first `n` tasks by one keeps the invariant. */
  lemma MergeKeeps(s: State, n: nat, t: Task, block: seq<Task>, since: nat)
    requires Inv(s) && 0 < n <= |s.items| && t.id == s.items[0].id && IsBlockOf(block, t)
    requires Pending(s.worker) == []
    ensures Inv(s.(items := [t] + s.items[n..], blocks := [block] + s.blocks[n..], worker := Running(t.id, since)))
  {
    hide IsBlockOf;
    var s' := s.(items := [t] + s.items[n..], blocks := [block] + s.blocks[n..], worker := Running(t.id, since));
    forall i | 0 <= i < |s'.items|
      ensures s'.items[i].id == s.items[if i == 0 then 0 else n + i - 1].id
      ensures IsBlockOf(s'.blocks[i], s'.items[i])
      ensures i > 0 ==> |s'.blocks[i]| == 1
    {
      if i > 0 {
        assert s'.items[i] == s.items[n + i - 1] && s'.blocks[i] == s.blocks[n + i - 1];
      }
    }
    assert DistinctIds(s'.items);
  }

  lemma FilterKeeps(s: State)
    requires Inv(s) && s.worker.Scanned?
    ensures Inv(StepFilter(s))
  {
    hide IsBlockOf;
    FilterShape(s);
    FilterBlocks(s);
    var s' := StepFilter(s);
    MergeKeeps(s, 1 + |s.worker.others|, s'.items[0], s'.blocks[0], s.worker.since);
  }

  lemma RetriedIsBlock(block: seq<Task>, t: Task)
    requires IsBlockOf(block, t)
    ensures IsBlockOf(block, t.(failures := t.failures + 1))
  {
  }

  lemma ReturnKeeps(s: State, r: TaskResult, rnd: int, d: nat)
    requires Inv(s) && s.worker.Running?
    requires r.status == Success ==> FreshTasks(s, r.tailTasks + r.headTasks)
    ensures Inv(ReturnWith(s, r, rnd, d))
  {
    hide IsBlockOf;
    assert IsBlockOf(s.blocks[0], s.items[0]);
    RetriedIsBlock(s.blocks[0], s.items[0]);
  }

  lemma RemoveShape(s: State)
    requires s.items != [] && |s.blocks| == |s.items| && s.worker.Appending? && s.items[0].id == s.worker.id
    ensures StepRemove(s) == s.(items := s.items[1..], blocks := s.blocks[1..], finished := s.finished + [s.blocks[0]],
                                worker := Pushing(s.worker.heads, s.worker.delay))
  {
    assert IndexOfId(s.items, s.worker.id) == 0;
  }

  lemma RemoveKeeps(s: State)
    requires Inv(s) && Enabled(s, RemoveHead)
    ensures Inv(StepRemove(s))
  {
    hide IsBlockOf;
    RemoveShape(s);
    hide StepRemove;
    var s' := StepRemove(s);
    forall i | 0 <= i < |s'.items| ensures IsBlockOf(s'.blocks[i], s'.items[i]) && |s'.blocks[i]| == 1 {
      assert s'.items[i] == s.items[1 + i] && s'.blocks[i] == s.blocks[1 + i];
      assert IsBlockOf(s.blocks[1 + i], s.items[1 + i]);
    }
    assert Pending(s'.worker) == Pending(s.worker);
  }

  /** Pending tasks stay fresh as they are moved into the queue one by one. */
  lemma FreshRest(s: State, s': State, ts: seq<Task>)
    requires ts != [] && FreshTasks(s, ts) && s'.seen == s.seen + {ts[0].id}
    ensures FreshTasks(s', ts[1..])
  {
    forall i | 0 <= i < |ts[1..]| ensures ts[1..][i].id !in s'.seen && ts[1..][i].failures == 0 {
      assert ts[1..][i] == ts[1 + i];
    }
  }

  lemma AppendTailKeeps(cfg: Config, s: State)
    requires Inv(s) && Enabled(s, AppendTail)
    ensures Inv(Step(cfg, s, AppendTail))
  {
    hide IsBlockOf;
    var tails, heads := s.worker.tails, s.worker.heads;
    assert (tails + heads)[0] == tails[0] && (tails + heads)[1..] == tails[1..] + heads;
    AddLastKeeps(s, tails[0]);
    FreshRest(s, AddLast(s, tails[0]), tails + heads);
  }

  lemma PushHeadKeeps(cfg: Config, s: State)
    requires Inv(s) && Enabled(s, PushHead)
    ensures Inv(Step(cfg, s, PushHead))
  {
    hide IsBlockOf;
    AddFirstKeepsIds(s, s.worker.heads[0]);
    AddFirstKeepsBlocks(s, s.worker.heads[0]);
    FreshRest(s, AddFirst(s, s.worker.heads[0]), s.worker.heads);
  }

  lemma StepKeepsInv(cfg: Config, s: State, l: Label)
    requires Inv(s) && Enabled(s, l)
    ensures Inv(Step(cfg, s, l))
  {
    hide IsBlockOf;
    match l
    case Arrive(t) => AddLastKeeps(s, t);
    case ScanQueue => ScanKeeps(cfg, s);
    case FilterQueue => FilterKeeps(s);
    case Return(r, rnd) => ReturnKeeps(s, r, rnd, NextDelay(r, s.items[0].failures, rnd));
    case AppendTail => AppendTailKeeps(cfg, s);
    case RemoveHead => RemoveKeeps(s);
    case PushHead => PushHeadKeeps(cfg, s);
    case _ =>
  }

  // ---------- Conservation and order ----------

  /** No task is lost or duplicated: what was queued is what is done plus what is left. */
  ghost predicate Conserved(s: State) {
    && multiset(s.queued) == multiset(Flatten(s.finished)) + multiset(Flatten(s.blocks))
    && DistinctIds(s.queued)
    && s.seen == Ids(s.queued)
    && forall i :: 0 <= i < |s.finished| ==> OneHook(s.finished[i])
  }

  /** A non-empty block of tasks merged for one hook. */
  ghost predicate OneHook(block: seq<Task>) {
    block != [] && forall j :: 1 <= j < |block| ==> SameHookAndKind(block[0], block[j])
  }

  /** First in, first out, with merged tasks unfolded. */
  ghost predicate InOrder(s: State) {
    s.queued == Flatten(s.finished) + Flatten(s.blocks)
  }

  lemma FlattenRegroup(xss: seq<seq<Task>>, n: nat)
    requires n <= |xss|
    ensures Flatten([Flatten(xss[..n])] + xss[n..]) == Flatten(xss)
  {
    assert xss == xss[..n] + xss[n..];
    FlattenAppend(xss[..n], xss[n..]);
    FlattenAppend([Flatten(xss[..n])], xss[n..]);
    FlattenOne(Flatten(xss[..n]));
  }

  lemma FlattenSnoc(xss: seq<seq<Task>>, xs: seq<Task>)
    ensures Flatten(xss + [xs]) == Flatten(xss) + xs
  {
    FlattenAppend(xss, [xs]);
    FlattenOne(xs);
  }

  lemma QueuedGrows(s: State, t: Task)
    requires DistinctIds(s.queued) && s.seen == Ids(s.queued) && t.id !in s.seen
    ensures DistinctIds(s.queued + [t]) && s.seen + {t.id} == Ids(s.queued + [t])
  {
    var q := s.queued + [t];
    forall x | x in Ids(q) ensures x in s.seen + {t.id} {
      var y :| y in q && y.id == x;
      assert y in s.queued || y == t;
    }
    forall x | x in s.seen + {t.id} ensures x in Ids(q) {
      if x == t.id {
        assert t in q;
      } else {
        var y :| y in s.queued && y.id == x;
        assert y in q;
      }
    }
    forall i | 0 <= i < |s.queued| ensures s.queued[i].id != t.id {
      assert s.queued[i] in s.queued;
    }
  }

  lemma LedgerSnoc(queued: seq<Task>, done: seq<seq<Task>>, blocks: seq<seq<Task>>, t: Task)
    requires multiset(queued) == multiset(Flatten(done)) + multiset(Flatten(blocks))
    ensures multiset(queued + [t]) == multiset(Flatten(done)) + multiset(Flatten(blocks + [[t]]))
    ensures multiset(queued + [t]) == multiset(Flatten(done)) + multiset(Flatten([[t]] + blocks))
  {
    FlattenSnoc(blocks, [t]);
    assert ([[t]] + blocks)[1..] == blocks;
    assert Flatten([[t]] + blocks) == [t] + Flatten(blocks);
  }

  lemma AddConserves(s: State, t: Task)
    requires Conserved(s) && t.id !in s.seen
    ensures Conserved(AddLast(s, t))
    ensures Conserved(AddFirst(s, t))
  {
    QueuedGrows(s, t);
    LedgerSnoc(s.queued, s.finished, s.blocks, t);
  }

  lemma AddLastInOrder(s: State, t: Task)
    requires InOrder(s)
    ensures InOrder(AddLast(s, t))
  {
    FlattenSnoc(s.blocks, [t]);
  }

  lemma FilterConserves(s: State)
    requires Inv(s) && s.worker.Scanned?
    ensures Flatten(StepFilter(s).blocks) == Flatten(s.blocks)
  {
    FilterBlocks(s);
    FlattenRegroup(s.blocks, 1 + |s.worker.others|);
  }

  lemma MoveHead(done: seq<seq<Task>>, blocks: seq<seq<Task>>)
    requires blocks != []
    ensures Flatten(done + [blocks[0]]) + Flatten(blocks[1..]) == Flatten(done) + Flatten(blocks)
  {
    FlattenSnoc(done, blocks[0]);
  }

  lemma RemoveConserves(s: State)
    requires s.items != [] && |s.blocks| == |s.items| && s.worker.Appending? && s.items[0].id == s.worker.id
    ensures Flatten(StepRemove(s).finished) + Flatten(StepRemove(s).blocks) == Flatten(s.finished) + Flatten(s.blocks)
  {
    RemoveShape(s);
    MoveHead(s.finished, s.blocks);
  }

  lemma RemoveBalances(s: State)
    requires Inv(s) && Conserved(s) && s.worker.Appending?
    ensures Conserved(StepRemove(s))
  {
    hide Flatten;
    RemoveConserves(s);
    RemoveShape(s);
    assert IsBlockOf(s.blocks[0], s.items[0]);
    var s' := StepRemove(s);
    var before: seq<Task>, after: seq<Task> := Flatten(s.finished) + Flatten(s.blocks),
        Flatten(s'.finished) + Flatten(s'.blocks);
    assert multiset(before) == multiset(after);
  }

  lemma SameLedgerConserves(s: State, s': State)
    requires Conserved(s)
    requires s'.queued == s.queued && s'.finished == s.finished && s'.seen == s.seen
    requires Flatten(s'.blocks) == Flatten(s.blocks)
    ensures Conserved(s')
  {
  }

  lemma QuietConserves(cfg: Config, s: State, l: Label)
    requires Conserved(s) && Enabled(s, l)
    requires !l.Arrive? && !l.FilterQueue? && !l.AppendTail? && !l.RemoveHead? && !l.PushHead?
    ensures Conserved(Step(cfg, s, l))
  {
    hide Conserved, DistinctIds;
    var s' := Step(cfg, s, l);
    assert s'.queued == s.queued && s'.finished == s.finished && s'.seen == s.seen && s'.blocks == s.blocks;
    SameLedgerConserves(s, s');
  }

  lemma StepConserves(cfg: Config, s: State, l: Label)
    requires Inv(s) && Conserved(s) && Enabled(s, l)
    ensures Conserved(Step(cfg, s, l))
  {
    hide BlocksInv, WorkerInv, Conserved;
    if l.Arrive? {
      AddConserves(s, l.task);
    } else if l.FilterQueue? {
      FilterConserves(s);
      SameLedgerConserves(s, StepFilter(s));
    } else if l.AppendTail? {
      assert Pending(s.worker)[0] == s.worker.tails[0];
      AddConserves(s, s.worker.tails[0]);
      SameLedgerConserves(AddLast(s, s.worker.tails[0]), Step(cfg, s, l));
    } else if l.RemoveHead? {
      RemoveBalances(s);
    } else if l.PushHead? {
      assert Pending(s.worker)[0] == s.worker.heads[0];
      AddConserves(s, s.worker.heads[0]);
      SameLedgerConserves(AddFirst(s, s.worker.heads[0]), Step(cfg, s, l));
    } else {
      QuietConserves(cfg, s, l);
    }
  }

  lemma StepInOrder(cfg: Config, s: State, l: Label)
    requires Inv(s) && InOrder(s) && Enabled(s, l) && !l.PushHead?
    ensures InOrder(Step(cfg, s, l))
  {
    match l
    case Arrive(t) => AddLastInOrder(s, t);
    case FilterQueue => FilterConserves(s);
    case AppendTail => AddLastInOrder(s, s.worker.tails[0]);
    case RemoveHead => RemoveConserves(s);
    case Return(r, rnd) =>
    case _ =>
  }

  // ---------- Whole runs ----------

  lemma {:induction false} SinglesAreBlocks(items: seq<Task>)
    ensures Flatten(Singles(items)) == items
  {
    if items != [] {
      assert Singles(items)[1..] == Singles(items[1..]);
      SinglesAreBlocks(items[1..]);
    }
  }

  lemma StartIsGood(items: seq<Task>)
    requires ValidStart(items)
    ensures Inv(Start(items)) && Conserved(Start(items)) && InOrder(Start(items))
  {
    SinglesAreBlocks(items);
    forall i | 0 <= i < |items| ensures IsBlockOf(Singles(items)[i], items[i]) && items[i].id in Ids(items) {
      SingleIsBlock(items[i]);
      assert items[i] in items;
    }
  }

  lemma {:induction false} RunKeepsInv(cfg: Config, s: State, run: seq<Label>)
    requires Inv(s) && Conserved(s) && Executable(cfg, s, run)
    ensures Inv(Execute(cfg, s, run)) && Conserved(Execute(cfg, s, run))
    decreases |run|
  {
    if run != [] {
      StepKeepsInv(cfg, s, run[0]);
      StepConserves(cfg, s, run[0]);
      RunKeepsInv(cfg, Step(cfg, s, run[0]), run[1..]);
    }
  }

  function Origins(blocks: seq<seq<Task>>): (r: seq<Task>) {
    if blocks == [] then [] else blocks[0][..if blocks[0] == [] then 0 else 1] + Origins(blocks[1..])
  }

  function Absorbed(blocks: seq<seq<Task>>): (r: seq<Task>) {
    if blocks == [] then [] else blocks[0][if blocks[0] == [] then 0 else 1..] + Absorbed(blocks[1..])
  }

  lemma {:induction false} BlocksSplit(blocks: seq<seq<Task>>)
    ensures multiset(Flatten(blocks)) == multiset(Origins(blocks)) + multiset(Absorbed(blocks))
  {
    if blocks != [] {
      BlocksSplit(blocks[1..]);
      var n := if blocks[0] == [] then 0 else 1;
      assert blocks[0] == blocks[0][..n] + blocks[0][n..];
    }
  }

  lemma RunIsGood(cfg: Config, items: seq<Task>, run: seq<Label>)
    requires ValidStart(items) && Executable(cfg, Start(items), run)
    ensures var s := Execute(cfg, Start(items), run);
      && Inv(s) && Conserved(s)
      && (forall i :: 0 <= i < |s.finished| ==> OneHook(s.finished[i]))
      && (forall i :: 0 <= i < |s.blocks| ==> OneHook(s.blocks[i]) && SameTask(s.items[i], s.blocks[i][0]))
  {
    StartIsGood(items);
    RunKeepsInv(cfg, Start(items), run);
    var s := Execute(cfg, Start(items), run);
    forall i | 0 <= i < |s.blocks| ensures OneHook(s.blocks[i]) && SameTask(s.items[i], s.blocks[i][0]) {
      assert IsBlockOf(s.blocks[i], s.items[i]);
    }
  }

  /** In the shape of multisets: what was queued is in blocks, each with one origin. */
  lemma BlocksBalance(s: State)
    requires Conserved(s)
    ensures multiset(s.queued) == multiset(Origins(s.finished)) + multiset(Absorbed(s.finished))
                                  + multiset(Absorbed(s.blocks)) + multiset(Origins(s.blocks))
    ensures DistinctIds(s.queued)
  {
    BlocksSplit(s.finished);
    BlocksSplit(s.blocks);
  }

  /** The ledger of any run, with any mix of results and any interleaving of arrivals:
      each task ever queued is finished, or absorbed by a task of the same hook, or still
      queued, and only one of these. */
  lemma LedgerBalances(cfg: Config, items: seq<Task>, run: seq<Label>)
    requires ValidStart(items) && Executable(cfg, Start(items), run)
    ensures var s := Execute(cfg, Start(items), run);
      && (forall b :: b in s.finished + s.blocks ==> OneHook(b))
      && |s.blocks| == |s.items|
      && (forall i :: 0 <= i < |s.items| ==> s.blocks[i] != [] && SameTask(s.items[i], s.blocks[i][0]))
      && multiset(s.queued) == multiset(Origins(s.finished)) + multiset(Absorbed(s.finished))
                               + multiset(Absorbed(s.blocks)) + multiset(Origins(s.blocks))
      && DistinctIds(s.queued)
  {
    RunIsGood(cfg, items, run);
    var s := Execute(cfg, Start(items), run);
    hide Execute, Executable, IsBlockOf, Conserved;
    BlocksBalance(s);
    assert forall i :: 0 <= i < |s.blocks| ==> OneHook(s.blocks[i]);
  }

  /** No handler result asks for tasks at the head of the queue. */
  predicate NoHeadTasks(run: seq<Label>) {
    forall i :: 0 <= i < |run| ==> run[i].Return? ==> run[i].result.headTasks == []
  }

  predicate NoHeadsPending(s: State) {
    s.worker.Appending? || s.worker.Pushing? ==> s.worker.heads == []
  }

  lemma NoHeadsKept(cfg: Config, s: State, l: Label)
    requires NoHeadsPending(s) && Enabled(s, l) && (l.Return? ==> l.result.headTasks == [])
    ensures NoHeadsPending(Step(cfg, s, l)) && !l.PushHead?
  {
  }

  lemma {:induction false} OrderKept(cfg: Config, s: State, run: seq<Label>)
    requires Inv(s) && InOrder(s) && Executable(cfg, s, run) && NoHeadTasks(run) && NoHeadsPending(s)
    ensures InOrder(Execute(cfg, s, run))
    decreases |run|
  {
    if run != [] {
      NoHeadsKept(cfg, s, run[0]);
      StepKeepsInv(cfg, s, run[0]);
      StepInOrder(cfg, s, run[0]);
      OrderKept(cfg, Step(cfg, s, run[0]), run[1..]);
    }
  }

  /** A queue to which only the event goroutine and tail tasks add is served strictly in
      order: unfolding the merged tasks gives back the exact order of arrival. */
  lemma ServedInArrivalOrder(cfg: Config, items: seq<Task>, run: seq<Label>)
    requires ValidStart(items) && Executable(cfg, Start(items), run) && NoHeadTasks(run)
    ensures var s := Execute(cfg, Start(items), run);
      s.queued == Flatten(s.finished) + Flatten(s.blocks)
  {
    StartIsGood(items);
    OrderKept(cfg, Start(items), run);
  }
}
