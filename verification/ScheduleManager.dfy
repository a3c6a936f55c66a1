/** The schedule manager: crontabs shared by several bindings through sets of ids. */
module ScheduleManagers {
  import opened Sequences

  datatype ScheduleEntry = ScheduleEntry(crontab: string, id: string)

  datatype CronEntry = CronEntry(entryId: nat, ids: set<string>)

  datatype Call = AddCall(entry: ScheduleEntry) | RemoveCall(entry: ScheduleEntry)

  // ---------- What a sequence of calls means ----------

  /** The ids of a crontab: every Add puts its id in, every Remove takes its id out. */
  function IdsOf(calls: seq<Call>, crontab: string): Option<set<string>> {
    if calls == [] then None
    else
      var before, last := IdsOf(calls[..|calls| - 1], crontab), calls[|calls| - 1];
      if last.entry.crontab != crontab then before
      else match last
        case AddCall(entry) => Some((if before.Some? then before.value else {}) + {entry.id})
        case RemoveCall(entry) => if before.Some? then Some(before.value - {entry.id}) else None
  }

  predicate Wanted(calls: seq<Call>, crontab: string) {
    IdsOf(calls, crontab).Some? && IdsOf(calls, crontab).value != {}
  }

  /** The crontab was added, cron could parse it, and its ids have never run out since. */
  ghost predicate Fires(parses: string -> bool, calls: seq<Call>, crontab: string) {
    && parses(crontab)
    && IdsOf(calls, crontab).Some?
    && forall n :: 0 <= n <= |calls| ==> IdsOf(calls[..n], crontab) != Some({})
  }

  lemma IdsAfter(calls: seq<Call>, call: Call, crontab: string)
    ensures IdsOf(calls + [call], crontab) ==
      var before := IdsOf(calls, crontab);
      if call.entry.crontab != crontab then before
      else if call.AddCall? then Some((if before.Some? then before.value else {}) + {call.entry.id})
      else if before.Some? then Some(before.value - {call.entry.id}) else None
  {
    assert (calls + [call])[..|calls|] == calls;
  }

  lemma FiresAfter(parses: string -> bool, calls: seq<Call>, call: Call, crontab: string)
    ensures Fires(parses, calls + [call], crontab) <==>
      && parses(crontab)
      && IdsOf(calls + [call], crontab).Some?
      && IdsOf(calls + [call], crontab) != Some({})
      && (IdsOf(calls, crontab).Some? ==> Fires(parses, calls, crontab))
  {
    var more := calls + [call];
    IdsAfter(calls, call, crontab);
    forall n | 0 <= n <= |calls| ensures more[..n] == calls[..n] {}
    assert more[..|more|] == more && calls[..|calls|] == calls;
    if IdsOf(calls, crontab) == None {
      NoneBefore(calls, crontab);
    }
  }

  lemma {:induction false} NoneBefore(calls: seq<Call>, crontab: string)
    requires IdsOf(calls, crontab) == None
    ensures forall n :: 0 <= n <= |calls| ==> IdsOf(calls[..n], crontab) == None
  {
    if calls != [] {
      var before := calls[..|calls| - 1];
      NoneBefore(before, crontab);
      forall n | 0 <= n <= |calls| ensures IdsOf(calls[..n], crontab) == None {
        if n < |calls| {
          assert calls[..n] == before[..n];
        } else {
          assert calls[..n] == calls;
        }
      }
    }
  }

  // ---------- The manager ----------

  /** The cron library: `jobs` are the functions it calls, by entry id. */
  class Cron {
    const parses: string -> bool
    var jobs: map<nat, string>
    var nextId: nat

    constructor (parses: string -> bool)
      ensures this.parses == parses && jobs == map[] && nextId == 0
    {
      this.parses, jobs, nextId := parses, map[], 0;
    }

    /** Entry ids are never used again; 0 is returned when the crontab cannot be parsed. */
    method AddFunc(crontab: string) returns (entryId: nat)
      modifies this
      ensures parses(crontab) ==>
        && entryId == nextId == old(nextId) + 1
        && jobs == old(jobs)[entryId := crontab]
      ensures !parses(crontab) ==> entryId == 0 && nextId == old(nextId) && jobs == old(jobs)
    {
      if !parses(crontab) {
        return 0;
      }
      nextId := nextId + 1;
      entryId := nextId;
      jobs := jobs[entryId := crontab];
    }

    method Remove(entryId: nat)
      modifies this
      ensures nextId == old(nextId) && jobs == old(jobs) - {entryId}
    {
      jobs := jobs - {entryId};
    }
  }

  ghost predicate IdsKept(entries: map<string, CronEntry>, calls: seq<Call>) {
    forall c :: IdsOf(calls, c) == if c in entries then Some(entries[c].ids) else None
  }

  ghost predicate EntriesApart(entries: map<string, CronEntry>, nextId: nat) {
    && (forall c :: c in entries ==> entries[c].entryId <= nextId)
    && (forall c, d :: c in entries && d in entries && entries[c].entryId == entries[d].entryId != 0 ==> c == d)
  }

  ghost predicate JobsHaveEntries(entries: map<string, CronEntry>, jobs: map<nat, string>) {
    && (forall i :: i in jobs ==> i != 0 && jobs[i] in entries && entries[jobs[i]].entryId == i)
    && (forall c :: c in entries && entries[c].entryId in jobs ==> jobs[entries[c].entryId] == c)
  }

  ghost predicate JobsFire(parses: string -> bool, entries: map<string, CronEntry>, jobs: map<nat, string>,
                           calls: seq<Call>) {
    forall c :: c in entries ==> (entries[c].entryId in jobs <==> Fires(parses, calls, c))
  }

  /** Each crontab has at most one job, kept in its entry, and has it exactly while it `Fires`. */
  ghost predicate Consistent(parses: string -> bool, entries: map<string, CronEntry>, jobs: map<nat, string>,
                             nextId: nat, calls: seq<Call>) {
    && IdsKept(entries, calls)
    && EntriesApart(entries, nextId)
    && JobsHaveEntries(entries, jobs)
    && JobsFire(parses, entries, jobs, calls)
  }

  /** A crontab which the call is not about. */
  lemma OthersStay(parses: string -> bool, calls: seq<Call>, call: Call, crontab: string)
    requires call.entry.crontab != crontab
    ensures IdsOf(calls + [call], crontab) == IdsOf(calls, crontab)
    ensures Fires(parses, calls + [call], crontab) <==> Fires(parses, calls, crontab)
  {
    IdsAfter(calls, call, crontab);
    FiresAfter(parses, calls, call, crontab);
    assert calls[..|calls|] == calls;
  }

  lemma OthersAllStay(parses: string -> bool, calls: seq<Call>, call: Call)
    ensures forall d :: d != call.entry.crontab ==> IdsOf(calls + [call], d) == IdsOf(calls, d)
    ensures forall d :: d != call.entry.crontab ==> (Fires(parses, calls + [call], d) <==> Fires(parses, calls, d))
  {
    forall d | d != call.entry.crontab
      ensures IdsOf(calls + [call], d) == IdsOf(calls, d)
      ensures Fires(parses, calls + [call], d) <==> Fires(parses, calls, d)
    {
      OthersStay(parses, calls, call, d);
    }
  }

  lemma AddKnownKeeps(parses: string -> bool, entries: map<string, CronEntry>, jobs: map<nat, string>, nextId: nat,
                      calls: seq<Call>, entry: ScheduleEntry)
    requires Consistent(parses, entries, jobs, nextId, calls)
    requires entry.crontab in entries
    ensures
      var c := entry.crontab;
      Consistent(parses, entries[c := entries[c].(ids := entries[c].ids + {entry.id})], jobs, nextId,
                 calls + [AddCall(entry)])
  {
    hide Fires;
    var c, call := entry.crontab, AddCall(entry);
    OthersAllStay(parses, calls, call);
    IdsAfter(calls, call, c);
    FiresAfter(parses, calls, call, c);
    FiresNow(parses, calls, c);
    assert entry.id in entries[c].ids + {entry.id};
  }

  lemma AddNewKeeps(parses: string -> bool, entries: map<string, CronEntry>, jobs: map<nat, string>, nextId: nat,
                    calls: seq<Call>, entry: ScheduleEntry)
    requires Consistent(parses, entries, jobs, nextId, calls)
    requires entry.crontab !in entries && parses(entry.crontab)
    ensures
      var c := entry.crontab;
      Consistent(parses, entries[c := CronEntry(nextId + 1, {entry.id})], jobs[nextId + 1 := c], nextId + 1,
                 calls + [AddCall(entry)])
  {
    hide Fires;
    var c, call := entry.crontab, AddCall(entry);
    OthersAllStay(parses, calls, call);
    IdsAfter(calls, call, c);
    FiresAfter(parses, calls, call, c);
    assert {} + {entry.id} == {entry.id};
  }

  lemma AddBadKeeps(parses: string -> bool, entries: map<string, CronEntry>, jobs: map<nat, string>, nextId: nat,
                    calls: seq<Call>, entry: ScheduleEntry)
    requires Consistent(parses, entries, jobs, nextId, calls)
    requires entry.crontab !in entries && !parses(entry.crontab)
    ensures
      var c := entry.crontab;
      Consistent(parses, entries[c := CronEntry(0, {entry.id})], jobs, nextId, calls + [AddCall(entry)])
  {
    hide Fires;
    var c, call := entry.crontab, AddCall(entry);
    OthersAllStay(parses, calls, call);
    IdsAfter(calls, call, c);
    FiresAfter(parses, calls, call, c);
    assert {} + {entry.id} == {entry.id};
  }

  lemma FiresNow(parses: string -> bool, calls: seq<Call>, crontab: string)
    ensures Fires(parses, calls, crontab) ==>
      parses(crontab) && IdsOf(calls, crontab).Some? && IdsOf(calls, crontab) != Some({})
  {
    assert calls[..|calls|] == calls;
  }

  lemma RemoveNothing(parses: string -> bool, entries: map<string, CronEntry>, jobs: map<nat, string>, nextId: nat,
                      calls: seq<Call>, entry: ScheduleEntry)
    requires Consistent(parses, entries, jobs, nextId, calls)
    requires entry.crontab !in entries || entry.id !in entries[entry.crontab].ids
    ensures Consistent(parses, entries, jobs, nextId, calls + [RemoveCall(entry)])
  {
    hide Fires;
    var c, call := entry.crontab, RemoveCall(entry);
    OthersAllStay(parses, calls, call);
    IdsAfter(calls, call, c);
    FiresAfter(parses, calls, call, c);
    FiresNow(parses, calls, c);
    if c in entries {
      assert entries[c].ids - {entry.id} == entries[c].ids;
    }
  }

  lemma RemovedIds(entries: map<string, CronEntry>, calls: seq<Call>, entry: ScheduleEntry)
    requires IdsKept(entries, calls) && entry.crontab in entries
    ensures var c := entry.crontab;
      IdsKept(entries[c := entries[c].(ids := entries[c].ids - {entry.id})], calls + [RemoveCall(entry)])
  {
    forall d ensures d != entry.crontab ==> IdsOf(calls + [RemoveCall(entry)], d) == IdsOf(calls, d) {
      IdsAfter(calls, RemoveCall(entry), d);
    }
    IdsAfter(calls, RemoveCall(entry), entry.crontab);
  }

  lemma RemovedJob(entries: map<string, CronEntry>, jobs: map<nat, string>, nextId: nat, c: string, left: CronEntry)
    requires EntriesApart(entries, nextId) && JobsHaveEntries(entries, jobs)
    requires c in entries && left.entryId == entries[c].entryId
    ensures EntriesApart(entries[c := left], nextId)
    ensures JobsHaveEntries(entries[c := left], jobs) && JobsHaveEntries(entries[c := left], jobs - {left.entryId})
  {
  }

  lemma RemovedFires(parses: string -> bool, entries: map<string, CronEntry>, jobs: map<nat, string>, nextId: nat,
                     calls: seq<Call>, entry: ScheduleEntry)
    requires Consistent(parses, entries, jobs, nextId, calls)
    requires entry.crontab in entries && entry.id in entries[entry.crontab].ids
    ensures var c := entry.crontab;
      var left := entries[c].(ids := entries[c].ids - {entry.id});
      JobsFire(parses, entries[c := left], if left.ids == {} then jobs - {left.entryId} else jobs,
               calls + [RemoveCall(entry)])
  {
    hide Fires;
    var c, call := entry.crontab, RemoveCall(entry);
    IdsAfter(calls, call, c);
    FiresAfter(parses, calls, call, c);
    FiresNow(parses, calls, c);
    forall d | d in entries && d != c
      ensures Fires(parses, calls + [call], d) <==> Fires(parses, calls, d)
      ensures entries[d].entryId in jobs ==> entries[d].entryId != entries[c].entryId
    {
      OthersStay(parses, calls, call, d);
    }
  }

  lemma RemoveKeeps(parses: string -> bool, entries: map<string, CronEntry>, jobs: map<nat, string>, nextId: nat,
                    calls: seq<Call>, entry: ScheduleEntry)
    requires Consistent(parses, entries, jobs, nextId, calls)
    requires entry.crontab in entries && entry.id in entries[entry.crontab].ids
    ensures
      var c := entry.crontab;
      var left := entries[c].(ids := entries[c].ids - {entry.id});
      Consistent(parses, entries[c := left], if left.ids == {} then jobs - {left.entryId} else jobs, nextId,
                 calls + [RemoveCall(entry)])
  {
    hide IdsKept, EntriesApart, JobsHaveEntries, JobsFire;
    var c := entry.crontab;
    RemovedIds(entries, calls, entry);
    RemovedJob(entries, jobs, nextId, c, entries[c].(ids := entries[c].ids - {entry.id}));
    RemovedFires(parses, entries, jobs, nextId, calls, entry);
  }

  class ScheduleManager {
    const cron: Cron
    var Entries: map<string, CronEntry>
    ghost var calls: seq<Call>

    ghost predicate Valid()
      reads this, cron
    {
      Consistent(cron.parses, Entries, cron.jobs, cron.nextId, calls)
    }

    constructor (cron: Cron)
      requires cron.jobs == map[]
      ensures Valid() && this.cron == cron && calls == []
    {
      this.cron, Entries, calls := cron, map[], [];
    }

    method Add(newEntry: ScheduleEntry)
      requires Valid()
      modifies this, cron
      ensures Valid()
      ensures calls == old(calls) + [AddCall(newEntry)]
    {
      hide Consistent;
      var crontab := newEntry.crontab;
      var hasCronEntry := crontab in Entries;
      var ids := if hasCronEntry then Entries[crontab].ids else {};
      ghost var known := if hasCronEntry then Entries[crontab := Entries[crontab].(ids := ids + {newEntry.id})]
                         else Entries;
      if hasCronEntry {
        AddKnownKeeps(cron.parses, Entries, cron.jobs, cron.nextId, calls, newEntry);
      } else {
        if cron.parses(crontab) {
          AddNewKeeps(cron.parses, Entries, cron.jobs, cron.nextId, calls, newEntry);
        } else {
          AddBadKeeps(cron.parses, Entries, cron.jobs, cron.nextId, calls, newEntry);
        }
        var entryId := cron.AddFunc(crontab);
        Entries := Entries[crontab := CronEntry(entryId, {newEntry.id})];
      }
      label Saved:
      if newEntry.id !in ids {
        Entries := Entries[crontab := Entries[crontab].(ids := Entries[crontab].ids + {newEntry.id})];
      }
      calls := calls + [AddCall(newEntry)];
      assert hasCronEntry ==> ids + {newEntry.id} == Entries[crontab].ids && Entries == known;
      assert !hasCronEntry ==> Entries[crontab].ids == {newEntry.id} && Entries == old@Saved(Entries);
    }

    /** The emptied entry stays in the map. */
    method Remove(delEntry: ScheduleEntry)
      requires Valid()
      modifies this, cron
      ensures Valid()
      ensures calls == old(calls) + [RemoveCall(delEntry)]
    {
      hide Consistent;
      var crontab := delEntry.crontab;
      if crontab !in Entries || delEntry.id !in Entries[crontab].ids {
        RemoveNothing(cron.parses, Entries, cron.jobs, cron.nextId, calls, delEntry);
        calls := calls + [RemoveCall(delEntry)];
        return;
      }
      RemoveKeeps(cron.parses, Entries, cron.jobs, cron.nextId, calls, delEntry);
      calls := calls + [RemoveCall(delEntry)];
      Entries := Entries[crontab := Entries[crontab].(ids := Entries[crontab].ids - {delEntry.id})];
      if Entries[crontab].ids == {} {
        cron.Remove(Entries[crontab].entryId);
      }
    }
  }

  /** Over any calls: no crontab has two jobs, and cron calls back for exactly those that `Fires`
      describes. */
  lemma JobsAreFiringCrontabs(m: ScheduleManager)
    requires m.Valid()
    ensures forall i, j :: i in m.cron.jobs && j in m.cron.jobs && m.cron.jobs[i] == m.cron.jobs[j] ==> i == j
    ensures forall c :: c in m.cron.jobs.Values <==> Fires(m.cron.parses, m.calls, c)
  {
    forall c ensures c in m.cron.jobs.Values <==> Fires(m.cron.parses, m.calls, c) {
      if Fires(m.cron.parses, m.calls, c) {
        assert c in m.Entries;
        assert m.cron.jobs[m.Entries[c].entryId] == c;
      }
    }
  }

  // ---------- When the manager does what its users want ----------

  /** No Add finds an entry whose ids have run out. */
  ghost predicate NeverAddedBack(calls: seq<Call>, crontab: string) {
    forall n :: 0 <= n < |calls| && calls[n].AddCall? && calls[n].entry.crontab == crontab ==>
      IdsOf(calls[..n], crontab) != Some({})
  }

  lemma {:induction false} WantedFires(parses: string -> bool, calls: seq<Call>, crontab: string)
    requires parses(crontab) && NeverAddedBack(calls, crontab)
    ensures Fires(parses, calls, crontab) <==> Wanted(calls, crontab)
  {
    if calls != [] {
      var before, last := calls[..|calls| - 1], calls[|calls| - 1];
      assert calls == before + [last];
      forall n | 0 <= n < |before| ensures before[..n] == calls[..n] {}
      WantedFires(parses, before, crontab);
      IdsAfter(before, last, crontab);
      FiresAfter(parses, before, last, crontab);
      if last.AddCall? && last.entry.crontab == crontab {
        assert calls[|before|] == last && calls[..|before|] == before;
      }
    }
  }

  /** A crontab fires whenever some binding wants it, throughout the calls, exactly when it was never
      added back after its ids had run out: Remove keeps the emptied entry, so such an Add does not
      schedule it again. */
  lemma WantedAlwaysFiresExactly(parses: string -> bool, calls: seq<Call>, crontab: string)
    requires parses(crontab)
    ensures (forall n :: 0 <= n <= |calls| ==> (Fires(parses, calls[..n], crontab) <==> Wanted(calls[..n], crontab)))
       <==> NeverAddedBack(calls, crontab)
  {
    if NeverAddedBack(calls, crontab) {
      forall n | 0 <= n <= |calls|
        ensures Fires(parses, calls[..n], crontab) <==> Wanted(calls[..n], crontab)
      {
        forall k | 0 <= k < n ensures calls[..n][..k] == calls[..k] {}
        WantedFires(parses, calls[..n], crontab);
      }
    } else {
      var n :| 0 <= n < |calls| && calls[n].AddCall? && calls[n].entry.crontab == crontab &&
          IdsOf(calls[..n], crontab) == Some({});
      assert calls[..n + 1] == calls[..n] + [calls[n]];
      IdsAfter(calls[..n], calls[n], crontab);
      assert calls[..n + 1][..n] == calls[..n];
      assert Wanted(calls[..n + 1], crontab) && !Fires(parses, calls[..n + 1], crontab);
    }
  }

  /** Once the ids have run out, no later call schedules the crontab again. */
  lemma EmptiedIsDead(parses: string -> bool, calls: seq<Call>, later: seq<Call>, crontab: string)
    requires IdsOf(calls, crontab) == Some({})
    ensures !Fires(parses, calls + later, crontab)
  {
    assert (calls + later)[..|calls|] == calls;
  }
}
