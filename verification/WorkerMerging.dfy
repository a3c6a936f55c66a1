/** That and when the worker merges: the head it takes up absorbs the longest stretch behind it. */
module WorkerMerging {
  import opened Sequences
  import opened BindingContexts
  import opened Tasks
  import opened WorkerMachine
  import opened WorkerLedger

  /** The worker goes on with the head and the longest stretch behind it, `n` tasks together. */
  ghost predicate GoesOnWith(s: State, scanned: State, n: nat)
    requires s.worker.Taken?
  {
    && IsLongestStretch(s.items, n)
    && (n == 1 ==> scanned == s.(worker := Running(s.items[0].id, s.worker.since)))
    && (n > 1 ==>
          && scanned == s.(worker := Scanned(s.items[0].id, s.items[1..n], s.worker.since))
          && StepFilter(scanned).worker == Running(s.items[0].id, s.worker.since)
          && Absorbs(s.items, StepFilter(scanned).items, n, Compact(AllContexts(s.items[..n]))))
  }

  lemma OneStretchOnly(items: seq<Task>, n: nat, m: nat)
    requires IsLongestStretch(items, n) && IsLongestStretch(items, m)
    ensures n == m
  {
  }

  lemma ScansStretch(cfg: Config, s: State, n: nat)
    requires s.worker.Taken? && s.items != [] && s.items[0].id == s.worker.id && DistinctIds(s.items)
    requires MayCombine(cfg, s.items[0]) && IsLongestStretch(s.items, n)
    ensures StepScan(cfg, s) == s.(worker :=
      if n == 1 then Running(s.worker.id, s.worker.since) else Scanned(s.worker.id, s.items[1..n], s.worker.since))
  {
    hide IsLongestStretch, DistinctIds;
    assert s.items == [s.items[0]] + s.items[1..];
    ScanSkipsSelf(s.items[0], s.items[1..], NeverStop());
    LongestStretch(s.items);
    OneStretchOnly(s.items, n, 1 + |Scan(s.items[1..], s.items[0], NeverStop())|);
  }

  lemma MergesStretch(s: State)
    requires IsScanned(s) && s.items[0].meta.Some? && IsLongestStretch(s.items, 1 + |s.worker.others|)
    ensures StepFilter(s).worker == Running(s.worker.id, s.worker.since)
    ensures var n := 1 + |s.worker.others|;
      Absorbs(s.items, StepFilter(s).items, n, Compact(AllContexts(s.items[..n])))
  {
    FilterShape(s);
    hide StepFilter, IsLongestStretch;
    var n := 1 + |s.worker.others|;
    assert s.items[..n] == [s.items[0]] + s.worker.others;
    assert AllContexts(s.items[..n]) == Contexts(s.items[0]) + AllContexts(s.worker.others);
  }

  /** A run of a v1 hook in its own queue merges with the longest stretch of runs behind it; any other
      head is handled as it is. */
  lemma HeadTakesUp(cfg: Config, s: State)
    requires Inv(s) && s.worker.Taken?
    ensures var t, scanned := s.items[0], StepScan(cfg, s);
      if t.kind == HookRun && t.meta.Some? && t.meta.value.hookName in cfg.v1Hooks && t.queueName == cfg.queueName
      then exists n :: GoesOnWith(s, scanned, n)
      else scanned == s.(worker := Running(t.id, s.worker.since))
  {
    hide IsBlockOf, IsLongestStretch, DistinctIds, Absorbs, StepFilter, StepScan;
    var t := s.items[0];
    if MayCombine(cfg, t) {
      LongestStretch(s.items);
      var n := 1 + |Scan(s.items[1..], t, NeverStop())|;
      ScansStretch(cfg, s, n);
      if n > 1 {
        MergesStretch(s.(worker := Scanned(t.id, s.items[1..n], s.worker.since)));
      }
      assert GoesOnWith(s, StepScan(cfg, s), n);
    } else {
      ScansNothing(cfg, s);
    }
  }

  lemma ScansNothing(cfg: Config, s: State)
    requires s.worker.Taken? && s.items != [] && !MayCombine(cfg, s.items[0])
    ensures StepScan(cfg, s) == s.(worker := Running(s.worker.id, s.worker.since))
  {
  }

  // ---------- Merging happens ----------

  /** The first tasks of a start, taken up and merged. */
  lemma StretchIsMerged(cfg: Config, items: seq<Task>, n: nat)
    requires ValidStart(items) && IsLongestStretch(items, n) && n > 1 && MayCombine(cfg, items[0])
    ensures var scanned := StepScan(cfg, Start(items).(worker := Taken(items[0].id, 0)));
      && scanned.worker.Scanned?
      && var merged := StepFilter(scanned);
         && merged.worker == Running(items[0].id, 0) && merged.calls == [] && merged.seen == Ids(items)
         && merged.items != [] && Contexts(merged.items[0]) == Compact(AllContexts(items[..n]))
         && merged.blocks != [] && merged.blocks[0] == items[..n]
  {
    var taken := Start(items).(worker := Taken(items[0].id, 0));
    ScansStretch(cfg, taken, n);
    var scanned := StepScan(cfg, taken);
    assert scanned == taken.(worker := Scanned(items[0].id, items[1..n], 0));
    hide StepScan, IsLongestStretch;
    assert |items[1..n]| == n - 1;
    MergesStretch(scanned);
    assert Singles(items)[..n] == Singles(items[..n]);
    SinglesAreBlocks(items[..n]);
  }

  lemma CalledAtOnce(cfg: Config, s: State)
    requires s.worker.Running? && s.items != [] && s.blocks != [] && s.calls == []
    ensures var l := Return(TaskResult(Success, [], [], 0), 0);
      && Executable(cfg, s, [l])
      && var calls := Execute(cfg, s, [l]).calls;
      && |calls| == 1 && calls[0].merged == s.blocks[0] && calls[0].contexts == Contexts(s.items[0])
  {
    var l := Return(TaskResult(Success, [], [], 0), 0);
    assert [l][1..] == [] && Enabled(s, l);
  }

  lemma OneStep(cfg: Config, s: State, l: Label, rest: seq<Label>)
    requires Enabled(s, l) && Executable(cfg, Step(cfg, s, l), rest)
    ensures Executable(cfg, s, [l] + rest) && Execute(cfg, s, [l] + rest) == Execute(cfg, Step(cfg, s, l), rest)
  {
    assert ([l] + rest)[1..] == rest;
  }

  /** From any start whose head has a stretch of `n` tasks, the hook can be called once with all of them. */
  lemma StretchIsCalledTogether(cfg: Config, items: seq<Task>, n: nat)
    requires ValidStart(items) && IsLongestStretch(items, n) && n > 1
    requires items[0].kind == HookRun && items[0].meta.value.hookName in cfg.v1Hooks
    requires items[0].queueName == cfg.queueName
    ensures var run := [Take] + ([ScanQueue] + ([FilterQueue] + [Return(TaskResult(Success, [], [], 0), 0)]));
      && Executable(cfg, Start(items), run)
      && var calls := Execute(cfg, Start(items), run).calls;
      && |calls| == 1 && calls[0].merged == items[..n] && calls[0].contexts == Compact(AllContexts(items[..n]))
  {
    var taken := Step(cfg, Start(items), Take);
    assert taken == Start(items).(worker := Taken(items[0].id, 0));
    StretchIsMerged(cfg, items, n);
    hide StepScan, StepFilter, Executable, Execute, IsLongestStretch, ValidStart;
    var scanned := Step(cfg, taken, ScanQueue);
    var merged := Step(cfg, scanned, FilterQueue);
    CalledAtOnce(cfg, merged);
    var l := Return(TaskResult(Success, [], [], 0), 0);
    OneStep(cfg, scanned, FilterQueue, [l]);
    OneStep(cfg, taken, ScanQueue, [FilterQueue] + [l]);
    OneStep(cfg, Start(items), Take, [ScanQueue] + ([FilterQueue] + [l]));
  }
}
