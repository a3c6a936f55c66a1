/** The collectors, the vault which owns them, and the storage which sends batches to it. */
module Vaults {
  import opened Integers
  import opened Sequences
  import opened LabelEncoding
  import opened Metrics

  /** ConstCounterCollector and ConstGaugeCollector, which differ in `Add` and `Set` only. */
  class ConstCollector {
    const kind: Kind
    const name: string
    const labelNames: seq<string>
    var collection: map<Hash, Metric>

    ghost predicate Valid()
      reads this
    {
      forall h :: h in collection ==> (collection[h].value.Count? <==> kind.Counter?)
    }

    function View(): Column
      reads this
    {
      Column(Signature(kind, labelNames), collection)
    }

    constructor (kind: Kind, name: string, labelNames: seq<string>)
      ensures Valid()
      ensures this.kind == kind && this.name == name && this.labelNames == labelNames && collection == map[]
    {
      this.kind, this.name, this.labelNames := kind, name, labelNames;
      collection := map[];
    }

    method Add(env: Env, group: string, value: real, labels: map<string, Bytes>)
      requires Valid() && kind.Counter?
      modifies this
      ensures Valid()
      ensures View() == Put(env, old(View()), group, value, labels)
      ensures forall n: nat :: IsWholePart(value, n) && n < TWO_64 ==>
        var h := env.hash(Encode(LabelValues(labels, labelNames)));
        && h in collection
        && collection[h].value
           == Count(if h in old(collection) then (old(collection)[h].value.count + n) % TWO_64 else n)
    {
      WholePartIsAdded(env, value);
      var labelValues := LabelValues(labels, labelNames);
      var labelsHash := HashLabelValues(env.hash, labelValues);
      var storedMetric;
      if labelsHash !in collection {
        storedMetric := Metric(Count(ToWord(env, value)), labelValues, group);
      } else {
        storedMetric := collection[labelsHash];
        var count := (storedMetric.value.count + ToWord(env, value)) % TWO_64;
        storedMetric := storedMetric.(value := Count(count));
      }
      collection := collection[labelsHash := storedMetric];
    }

    method Set(env: Env, group: string, value: real, labels: map<string, Bytes>)
      requires Valid() && kind.Gauge?
      modifies this
      ensures Valid()
      ensures View() == Put(env, old(View()), group, value, labels)
    {
      var labelValues := LabelValues(labels, labelNames);
      var labelsHash := HashLabelValues(env.hash, labelValues);
      var storedMetric := Metric(Level(value), labelValues, group);
      if labelsHash in collection {
        storedMetric := collection[labelsHash];
      }
      storedMetric := storedMetric.(value := Level(value));
      collection := collection[labelsHash := storedMetric];
    }

    /** Deletes while it walks the map in any order. */
    method ExpireGroupMetrics(group: string)
      requires Valid()
      modifies this
      ensures Valid()
      ensures collection == ExpireCells(old(collection), group)
    {
      var hashes := collection.Keys;
      while hashes != {}
        invariant hashes <= old(collection).Keys
        invariant collection ==
          map h | h in old(collection) && (h in hashes || old(collection)[h].group != group) :: old(collection)[h]
        decreases |hashes|
      {
        var h: Hash :| h in hashes;
        if collection[h].group == group {
          collection := collection - {h};
        }
        hashes := hashes - {h};
      }
    }
  }

  /** Once the collector is there, only its column is written. */
  lemma WriteToCollector(env: Env, before: View, got: View, kind: Kind, group: string, name: string, value: real,
                         labels: map<string, Bytes>)
    requires got == if name in before then before
                    else before[name := Column(Signature(kind, env.sorted(labels.Keys)), map[])]
    ensures name in got
    ensures Write(env, before, kind, group, name, value, labels)
         == if got[name].signature.kind == kind then got[name := Put(env, got[name], group, value, labels)] else got
  {
    hide Put;
  }

  class GroupedVault {
    var collectors: map<string, ConstCollector>

    ghost predicate Valid()
      reads this, collectors.Values
    {
      && (forall name :: name in collectors ==> collectors[name].Valid() && collectors[name].name == name)
    }

    function View(): View
      reads this, collectors.Values
    {
      map name | name in collectors :: collectors[name].View()
    }

    constructor ()
      ensures Valid() && View() == map[] && collectors == map[]
    {
      collectors := map[];
    }

    method ExpireGroupMetrics(group: string)
      requires Valid()
      modifies collectors.Values
      ensures Valid()
      ensures View() == Expire(old(View()), group)
    {
      var names := collectors.Keys;
      while names != {}
        invariant names <= collectors.Keys
        invariant Valid()
        invariant forall name :: name in collectors ==>
          collectors[name].collection
          == if name in names then old(collectors[name].collection)
             else ExpireCells(old(collectors[name].collection), group)
        decreases |names|
      {
        var name :| name in names;
        assert collectors[name] in collectors.Values;
        collectors[name].ExpireGroupMetrics(group);
        names := names - {name};
      }
    }

    /** GetOrCreateCounterCollector and GetOrCreateGaugeCollector. */
    method GetOrCreateCollector(kind: Kind, name: string, labelNames: seq<string>) returns (r: Option<ConstCollector>)
      requires Valid()
      modifies this
      ensures Valid()
      ensures name in collectors
      ensures r == if collectors[name].kind == kind then Some(collectors[name]) else None
      ensures collectors == old(collectors)[name := collectors[name]]
      ensures old(name in collectors) ==> collectors == old(collectors)
      ensures old(name !in collectors) ==> fresh(collectors[name])
      ensures View() == if old(name in collectors) then old(View())
                        else old(View())[name := Column(Signature(kind, labelNames), map[])]
    {
      if name !in collectors {
        var collector := new ConstCollector(kind, name, labelNames);
        collectors := collectors[name := collector];
      }
      if collectors[name].kind == kind {
        r := Some(collectors[name]);
      } else {
        r := None;
      }
    }

    method CounterAdd(env: Env, group: string, name: string, value: real, labels: map<string, Bytes>)
      requires Valid()
      modifies this, collectors.Values
      ensures Valid() && fresh(collectors.Values - old(collectors.Values))
      ensures View() == Write(env, old(View()), Counter, group, name, value, labels)
    {
      hide Put, Write, ColumnFor;
      ghost var before := View();
      var c := GetOrCreateCollector(Counter, name, env.sorted(labels.Keys));
      label Got:
      WriteToCollector(env, before, View(), Counter, group, name, value, labels);
      if c.Some? {
        c.value.Add(env, group, value, labels);
        OnlyOneChanged@Got(name);
        assert old@Got(View())[name] == old@Got(c.value.View());
      }
    }

    method GaugeSet(env: Env, group: string, name: string, value: real, labels: map<string, Bytes>)
      requires Valid()
      modifies this, collectors.Values
      ensures Valid() && fresh(collectors.Values - old(collectors.Values))
      ensures View() == Write(env, old(View()), Gauge, group, name, value, labels)
    {
      hide Put, Write, ColumnFor;
      ghost var before := View();
      var c := GetOrCreateCollector(Gauge, name, env.sorted(labels.Keys));
      label Got:
      WriteToCollector(env, before, View(), Gauge, group, name, value, labels);
      if c.Some? {
        c.value.Set(env, group, value, labels);
        OnlyOneChanged@Got(name);
        assert old@Got(View())[name] == old@Got(c.value.View());
      }
    }

    /** A change of one collector changes no other, because each knows its own name. */
    twostate lemma OnlyOneChanged(name: string)
      requires old(Valid()) && collectors == old(collectors) && name in collectors && collectors[name].Valid()
      requires forall c :: c in collectors.Values && c != collectors[name] ==> c.collection == old(c.collection)
      ensures Valid()
      ensures View() == old(View())[name := collectors[name].View()]
    {
      forall other | other in collectors && other != name
        ensures collectors[other].View() == old(collectors[other].View()) && collectors[other].Valid()
      {
        assert collectors[other] in collectors.Values && collectors[other].name == other;
        assert old(collectors[other].Valid());
      }
    }
  }

  /** The part of MetricStorage that takes batches from hooks; `sent` records the calls of the
      vectors for metrics without a group. */
  class MetricStorage {
    const vault: GroupedVault
    var sent: seq<Sample>

    constructor (vault: GroupedVault)
      ensures this.vault == vault && sent == []
    {
      this.vault, sent := vault, [];
    }

    method ApplyGroupOperations(env: Env, group: string, ops: seq<MetricOperation>)
      requires vault.Valid()
      modifies vault, vault.collectors.Values
      ensures vault.Valid() && fresh(vault.collectors.Values - old(vault.collectors.Values))
      ensures vault.View() == ApplyGroup(env, group, old(vault.View()), ops)
    {
      vault.ExpireGroupMetrics(group);
      var i := 0;
      while i < |ops|
        invariant 0 <= i <= |ops|
        invariant vault.Valid() && fresh(vault.collectors.Values - old(vault.collectors.Values))
        invariant vault.View() == ApplyGroup(env, group, old(vault.View()), ops[..i])
      {
        var op := ops[i];
        assert ops[..i + 1][..i] == ops[..i];
        if op.action == "expire" {
          vault.ExpireGroupMetrics(group);
        } else {
          var labels := op.labels + env.common;
          if op.action == "add" && op.value.Some? {
            vault.CounterAdd(env, group, op.name, op.value.value, labels);
          }
          if op.action == "set" && op.value.Some? {
            vault.GaugeSet(env, group, op.name, op.value.value, labels);
          }
        }
        i := i + 1;
      }
      assert ops[..i] == ops;
    }

    method SendBatchV0(env: Env, ops: seq<MetricOperation>) returns (ok: bool)
      modifies this`sent
      ensures sent == old(sent) + Samples(env, ops)
      ensures ok <==> AllShortcuts(ops)
    {
      var i := 0;
      while i < |ops|
        invariant 0 <= i <= |ops|
        invariant AllShortcuts(ops[..i])
        invariant sent + Samples(env, ops[i..]) == old(sent) + Samples(env, ops)
      {
        var op := ops[i];
        assert ops[i..][1..] == ops[i + 1..];
        if op.add.Some? {
          sent := sent + [Sample(Counter, op.name, op.add.value, op.labels + env.common)];
        } else if op.set_.Some? {
          sent := sent + [Sample(Gauge, op.name, op.set_.value, op.labels + env.common)];
        } else {
          assert op in ops;
          return false;
        }
        i := i + 1;
      }
      return true;
    }

    /** The walk over the map of groups, in any order. */
    method ApplyGroups(env: Env, groupedOps: map<string, seq<MetricOperation>>) returns (ghost order: seq<string>)
      requires vault.Valid()
      modifies vault, vault.collectors.Values
      ensures vault.Valid()
      ensures IsOrderOf(order, groupedOps.Keys)
      ensures vault.View() == ApplyAll(env, old(vault.View()), groupedOps, order)
    {
      order := [];
      var groups := groupedOps.Keys;
      while groups != {}
        invariant groups <= groupedOps.Keys
        invariant IsOrderOf(order, groupedOps.Keys - groups)
        invariant vault.Valid() && fresh(vault.collectors.Values - old(vault.collectors.Values))
        invariant vault.View() == ApplyAll(env, old(vault.View()), groupedOps, order)
        decreases |groups|
      {
        var group :| group in groups;
        ApplyGroupOperations(env, group, groupedOps[group]);
        assert (order + [group])[..|order|] == order;
        order := order + [group];
        groups := groups - {group};
      }
    }

    /** Invalid operations are reported before anything is applied. Otherwise every group is set to
        its new state, in some order of the groups, and the operations without a group follow. */
    method SendBatch(env: Env, ops: seq<MetricOperation>)
      returns (ok: bool, ghost groupedOps: map<string, seq<MetricOperation>>, ghost order: seq<string>)
      requires vault.Valid()
      modifies this`sent, vault, vault.collectors.Values
      ensures vault.Valid()
      ensures !ValidOperations(ops) ==> !ok && sent == old(sent) && vault.View() == old(vault.View())
      ensures ValidOperations(ops) ==>
        && IsPartition(groupedOps, ops) && IsOrderOf(order, groupedOps.Keys)
        && vault.View() == ApplyAll(env, old(vault.View()), groupedOps, order)
        && sent == old(sent) + Samples(env, OfGroup(ops, ""))
        && (ok <==> AllShortcuts(OfGroup(ops, "")))
    {
      hide Samples, AllShortcuts, OfGroup, IsPartition, IsOrderOf, ApplyAll;
      ghost var before := vault.View();
      var valid := ValidateOperations(ops);
      if !valid {
        return false, map[], [];
      }
      var grouped, nonGrouped := GroupOperations(ops);
      groupedOps := grouped;
      order := ApplyGroups(env, grouped);
      ghost var after := vault.View();
      assert after == ApplyAll(env, before, grouped, order);
      ok := SendBatchV0(env, nonGrouped);
      assert vault.View() == after;
    }
  }

  /** `errors` counts the messages that are collected. */
  method ValidateMetricOperation(op: MetricOperation) returns (errors: nat)
    ensures errors == 0 <==> ValidOperation(op)
  {
    errors := 0;
    if op.action == "" {
      errors := errors + 1;
    }
    if op.group == "" {
      if op.action != "set" && op.action != "add" {
        errors := errors + 1;
      }
    } else {
      if op.action != "expire" && op.action != "set" && op.action != "add" {
        errors := errors + 1;
      }
    }
    if op.name == "" && op.group == "" {
      errors := errors + 1;
    }
    if op.name == "" && op.group != "" && op.action != "expire" {
      errors := errors + 1;
    }
    if op.action == "set" && op.value == None {
      errors := errors + 1;
    }
    if op.action == "add" && op.value == None {
      errors := errors + 1;
    }
    if op.set_.Some? && op.add.Some? {
      errors := errors + 1;
    }
  }

  method ValidateOperations(ops: seq<MetricOperation>) returns (ok: bool)
    ensures ok <==> ValidOperations(ops)
  {
    ok := true;
    for i := 0 to |ops|
      invariant ok <==> ValidOperations(ops[..i])
    {
      assert ops[..i + 1] == ops[..i] + [ops[i]];
      var errors := ValidateMetricOperation(ops[i]);
      if errors > 0 {
        ok := false;
      }
    }
    assert ops[..|ops|] == ops;
  }

  lemma OfGroupSnoc(ops: seq<MetricOperation>, op: MetricOperation, group: string)
    ensures OfGroup(ops + [op], group) == OfGroup(ops, group) + if op.group == group then [op] else []
  {
    assert (ops + [op])[..|ops|] == ops;
  }

  lemma GroupsSnoc(ops: seq<MetricOperation>, op: MetricOperation)
    ensures Groups(ops + [op]) == Groups(ops) + if op.group == "" then {} else {op.group}
  {
    assert op in ops + [op];
    forall o | o in ops ensures o in ops + [op] {}
  }

  lemma {:induction false} NewGroup(ops: seq<MetricOperation>, group: string)
    requires group != "" && group !in Groups(ops)
    ensures OfGroup(ops, group) == []
  {
    if ops != [] {
      var before, last := ops[..|ops| - 1], ops[|ops| - 1];
      assert ops == before + [last];
      GroupsSnoc(before, last);
      NewGroup(before, group);
    }
  }

  lemma PartitionSnoc(grouped: map<string, seq<MetricOperation>>, ops: seq<MetricOperation>, op: MetricOperation)
    requires IsPartition(grouped, ops)
    ensures op.group == "" ==> IsPartition(grouped, ops + [op])
    ensures op.group != "" ==>
      IsPartition(grouped[op.group := (if op.group in grouped then grouped[op.group] else []) + [op]], ops + [op])
  {
    GroupsSnoc(ops, op);
    forall group {
      OfGroupSnoc(ops, op, group);
    }
    if op.group != "" && op.group !in grouped {
      NewGroup(ops, op.group);
    }
  }

  lemma NoOperations(ops: seq<MetricOperation>)
    requires ops == []
    ensures IsPartition(map[], ops) && OfGroup(ops, "") == []
  {
  }

  /** Each operation goes to the end of its group. */
  method GroupOperations(ops: seq<MetricOperation>)
    returns (groupedOps: map<string, seq<MetricOperation>>, nonGroupedOps: seq<MetricOperation>)
    ensures IsPartition(groupedOps, ops)
    ensures nonGroupedOps == OfGroup(ops, "")
  {
    groupedOps, nonGroupedOps := map[], [];
    NoOperations(ops[..0]);
    hide IsPartition, OfGroup, Groups;
    var i := 0;
    while i < |ops|
      invariant 0 <= i <= |ops|
      invariant IsPartition(groupedOps, ops[..i])
      invariant nonGroupedOps == OfGroup(ops[..i], "")
    {
      var op := ops[i];
      assert ops[..i + 1] == ops[..i] + [op];
      PartitionSnoc(groupedOps, ops[..i], op);
      OfGroupSnoc(ops[..i], op, "");
      if op.group == "" {
        nonGroupedOps := nonGroupedOps + [op];
      } else {
        var before := if op.group in groupedOps then groupedOps[op.group] else [];
        groupedOps := groupedOps[op.group := before + [op]];
      }
      i := i + 1;
    }
    assert ops[..i] == ops;
  }
}
