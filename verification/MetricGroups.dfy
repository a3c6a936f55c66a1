/** What a batch does to one metric, and what that means for a whole group. */
module MetricGroups {
  import opened Integers
  import opened Sequences
  import opened LabelEncoding
  import opened Metrics

  type Operations = seq<MetricOperation>

  type Signatures = map<string, Signature>

  /** A cell of the vault: a metric name and the hash of the label values. */
  datatype Key = Key(name: string, hash: Hash)

  function CellOf(view: View, key: Key): Option<Metric> {
    if key.name in view then CellAt(view[key.name].cells, key.hash) else None
  }

  function SignaturesOf(view: View): Signatures {
    map name | name in view :: view[name].signature
  }

  ghost predicate Fits(view: View, sigs: Signatures) {
    forall name :: name in view ==> name in sigs && view[name].signature == sigs[name]
  }

  /** Counters hold counts and gauges hold levels. */
  ghost predicate WellTyped(view: View) {
    forall key: Key :: CellOf(view, key).Some? ==>
      (CellOf(view, key).value.value.Count? <==> view[key.name].signature.kind.Counter?)
  }

  // ---------- One cell under a sequence of operations ----------

  function ValuesOf(env: Env, sigs: Signatures, op: MetricOperation): seq<Bytes>
    requires op.name in sigs
  {
    LabelValues(Labels(env, op), sigs[op.name].labelNames)
  }

  /** The operation writes this cell. */
  predicate Hits(env: Env, sigs: Signatures, key: Key, op: MetricOperation) {
    && IsWrite(op)
    && op.name == key.name
    && op.name in sigs
    && KindOf(op) == sigs[op.name].kind
    && HashOf(env, ValuesOf(env, sigs, op)) == key.hash
  }

  predicate Touches(env: Env, sigs: Signatures, key: Key, ops: Operations) {
    exists op :: op in ops && Hits(env, sigs, key, op)
  }

  predicate Foreign(cell: Option<Metric>, group: string) {
    cell.Some? && cell.value.group != group
  }

  predicate OwnedBy(cell: Option<Metric>, group: string) {
    cell.Some? && cell.value.group == group
  }

  function ExpireCell(cell: Option<Metric>, group: string): Option<Metric> {
    if Foreign(cell, group) then cell else None
  }

  function KeyStep(env: Env, sigs: Signatures, group: string, key: Key, cell: Option<Metric>,
                   op: MetricOperation): Option<Metric> {
    if op.action == "expire" then ExpireCell(cell, group)
    else if Hits(env, sigs, key, op)
    then Some(Stored(env, KindOf(op), ValuesOf(env, sigs, op), group, op.value.value, cell))
    else cell
  }

  function KeyFold(env: Env, sigs: Signatures, group: string, key: Key, cell: Option<Metric>,
                   ops: Operations): Option<Metric> {
    if ops == [] then cell
    else KeyStep(env, sigs, group, key, KeyFold(env, sigs, group, key, cell, ops[..|ops| - 1]), ops[|ops| - 1])
  }

  /** One cell under ApplyGroup. */
  function KeyGroup(env: Env, sigs: Signatures, group: string, key: Key, cell: Option<Metric>,
                    ops: Operations): Option<Metric> {
    KeyFold(env, sigs, group, key, ExpireCell(cell, group), ops)
  }

  // ---------- The vault is the sum of its cells ----------

  lemma StepAt(env: Env, sigs: Signatures, group: string, view: View, op: MetricOperation, key: Key)
    requires Fits(ApplyOp(env, group, view, op), sigs)
    ensures Fits(view, sigs)
    ensures CellOf(ApplyOp(env, group, view, op), key) == KeyStep(env, sigs, group, key, CellOf(view, key), op)
  {
    var after := ApplyOp(env, group, view, op);
    forall name | name in view ensures name in sigs && view[name].signature == sigs[name] {
      assert name in after && after[name].signature == view[name].signature;
    }
    if op.action != "expire" && IsWrite(op) {
      assert op.name in after;
    }
  }

  lemma {:induction false} FoldAt(env: Env, sigs: Signatures, group: string, view: View, ops: Operations, key: Key)
    requires Fits(ApplyOps(env, group, view, ops), sigs)
    ensures Fits(view, sigs)
    ensures CellOf(ApplyOps(env, group, view, ops), key) == KeyFold(env, sigs, group, key, CellOf(view, key), ops)
  {
    if ops != [] {
      var before := ops[..|ops| - 1];
      StepAt(env, sigs, group, ApplyOps(env, group, view, before), ops[|ops| - 1], key);
      FoldAt(env, sigs, group, view, before, key);
    }
  }

  lemma GroupAt(env: Env, sigs: Signatures, group: string, view: View, ops: Operations, key: Key)
    requires Fits(ApplyGroup(env, group, view, ops), sigs)
    ensures Fits(view, sigs)
    ensures CellOf(ApplyGroup(env, group, view, ops), key) == KeyGroup(env, sigs, group, key, CellOf(view, key), ops)
  {
    FoldAt(env, sigs, group, Expire(view, group), ops, key);
    forall name | name in view ensures name in sigs && view[name].signature == sigs[name] {
      assert Expire(view, group)[name].signature == view[name].signature;
    }
  }

  predicate Writes(ops: Operations, name: string) {
    exists op :: op in ops && IsWrite(op) && op.name == name
  }

  lemma {:induction false} NamesAfter(env: Env, group: string, view: View, ops: Operations, name: string)
    ensures name in ApplyOps(env, group, view, ops) <==> name in view || Writes(ops, name)
  {
    if ops != [] {
      var before, last := ops[..|ops| - 1], ops[|ops| - 1];
      NamesAfter(env, group, view, before, name);
      assert ops == before + [last];
      assert Writes(ops, name) <==> Writes(before, name) || (IsWrite(last) && last.name == name);
    }
  }

  lemma SameView(a: View, b: View, sigs: Signatures)
    requires Fits(a, sigs) && Fits(b, sigs)
    requires forall name :: name in a <==> name in b
    requires forall key :: CellOf(a, key) == CellOf(b, key)
    ensures a == b
  {
    forall name | name in a ensures a[name] == b[name] {
      forall h: Hash ensures h in a[name].cells <==> h in b[name].cells
                     ensures h in a[name].cells ==> a[name].cells[h] == b[name].cells[h] {
        assert CellOf(a, Key(name, h)) == CellOf(b, Key(name, h));
      }
      assert a[name].cells == b[name].cells;
      assert a[name].signature == sigs[name] == b[name].signature;
    }
  }

  // ---------- What the operations on one cell add up to ----------

  function Total(env: Env, sigs: Signatures, key: Key, ops: Operations): nat {
    if ops == [] then 0
    else
      var last := ops[|ops| - 1];
      Total(env, sigs, key, ops[..|ops| - 1]) + if Hits(env, sigs, key, last) then ToWord(env, last.value.value) else 0
  }

  function LastLevel(env: Env, sigs: Signatures, key: Key, ops: Operations): real
    requires Touches(env, sigs, key, ops)
  {
    var before, last := ops[..|ops| - 1], ops[|ops| - 1];
    if Hits(env, sigs, key, last) then last.value.value
    else
      assert ops == before + [last];
      LastLevel(env, sigs, key, before)
  }

  /** The operation that creates the cell. */
  function FirstHit(env: Env, sigs: Signatures, key: Key, ops: Operations): (op: MetricOperation)
    requires Touches(env, sigs, key, ops)
    ensures op in ops && Hits(env, sigs, key, op)
  {
    var before, last := ops[..|ops| - 1], ops[|ops| - 1];
    assert ops == before + [last];
    if Touches(env, sigs, key, before) then FirstHit(env, sigs, key, before) else last
  }

  function InitialCount(cell: Option<Metric>): nat {
    if cell.Some? && cell.value.value.Count? then cell.value.value.count else 0
  }

  lemma WrapOnce(a: int, b: int)
    ensures (a % TWO_64 + b) % TWO_64 == (a + b) % TWO_64
  {
    assert a == a / TWO_64 * TWO_64 + a % TWO_64;
  }

  /** The value, the group and the labels of a cell which no expire reaches: a counter has counted
      on, modulo 2^64, and a gauge has its last level; an existing cell keeps its group and its
      labels, and a new one has those of the first operation that hits it. */
  ghost predicate CountedOn(env: Env, sigs: Signatures, group: string, key: Key, cell: Option<Metric>,
                            ops: Operations, r: Option<Metric>) {
    if !Touches(env, sigs, key, ops) then r == cell
    else
      && r.Some?
      && key.name in sigs
      && r.value.group == (if cell.Some? then cell.value.group else group)
      && r.value.labelValues == (if cell.Some? then cell.value.labelValues
                                 else ValuesOf(env, sigs, FirstHit(env, sigs, key, ops)))
      && r.value.value == if sigs[key.name].kind.Gauge? then Level(LastLevel(env, sigs, key, ops))
                          else Count((InitialCount(cell) + Total(env, sigs, key, ops)) % TWO_64)
  }

  ghost predicate CellTyped(sigs: Signatures, key: Key, cell: Option<Metric>) {
    cell.Some? ==> key.name in sigs && (cell.value.value.Count? <==> sigs[key.name].kind.Counter?)
  }

  lemma {:induction false} NothingToTotal(env: Env, sigs: Signatures, key: Key, ops: Operations)
    requires !Touches(env, sigs, key, ops)
    ensures Total(env, sigs, key, ops) == 0
  {
    if ops != [] {
      var before, last := ops[..|ops| - 1], ops[|ops| - 1];
      assert last in ops && forall op :: op in before ==> op in ops;
      NothingToTotal(env, sigs, key, before);
    }
  }

  lemma TouchesLast(env: Env, sigs: Signatures, key: Key, before: Operations, last: MetricOperation)
    ensures Touches(env, sigs, key, before + [last]) <==> Touches(env, sigs, key, before) || Hits(env, sigs, key, last)
    ensures Total(env, sigs, key, before + [last])
         == Total(env, sigs, key, before) + if Hits(env, sigs, key, last) then ToWord(env, last.value.value) else 0
    ensures Touches(env, sigs, key, before + [last]) ==>
              LastLevel(env, sigs, key, before + [last])
              == if Hits(env, sigs, key, last) then last.value.value else LastLevel(env, sigs, key, before)
    ensures Touches(env, sigs, key, before + [last]) ==>
              FirstHit(env, sigs, key, before + [last])
              == if Touches(env, sigs, key, before) then FirstHit(env, sigs, key, before) else last
  {
    var ops := before + [last];
    assert ops[..|ops| - 1] == before && ops[|ops| - 1] == last;
    assert last in ops && forall op :: op in before ==> op in ops;
  }

  lemma HitIsWrite(env: Env, sigs: Signatures, key: Key, op: MetricOperation)
    requires Hits(env, sigs, key, op)
    ensures op.action != "expire" && op.value.Some? && op.name == key.name && key.name in sigs
    ensures KindOf(op) == sigs[key.name].kind
  {
  }

  lemma StepCountsOn(env: Env, sigs: Signatures, group: string, key: Key, cell: Option<Metric>,
                     before: Operations, c: Option<Metric>, last: MetricOperation)
    requires CellTyped(sigs, key, cell)
    requires CountedOn(env, sigs, group, key, cell, before, c)
    requires last.action == "expire" ==> Foreign(cell, group)
    ensures CountedOn(env, sigs, group, key, cell, before + [last], KeyStep(env, sigs, group, key, c, last))
  {
    hide Hits, Touches, Total, LastLevel, FirstHit, ValuesOf, ToWord, KindOf;
    TouchesLast(env, sigs, key, before, last);
    if Hits(env, sigs, key, last) {
      HitIsWrite(env, sigs, key, last);
      WrapOnce(InitialCount(cell) + Total(env, sigs, key, before), ToWord(env, last.value.value));
      if !Touches(env, sigs, key, before) {
        NothingToTotal(env, sigs, key, before);
      }
    }
  }

  lemma {:induction false} FoldCountsOn(env: Env, sigs: Signatures, group: string, key: Key, cell: Option<Metric>,
                                        ops: Operations)
    requires CellTyped(sigs, key, cell)
    requires forall op :: op in ops && op.action == "expire" ==> Foreign(cell, group)
    ensures CountedOn(env, sigs, group, key, cell, ops, KeyFold(env, sigs, group, key, cell, ops))
  {
    if ops != [] {
      var before, last := ops[..|ops| - 1], ops[|ops| - 1];
      assert ops == before + [last];
      FoldCountsOn(env, sigs, group, key, cell, before);
      StepCountsOn(env, sigs, group, key, cell, before, KeyFold(env, sigs, group, key, cell, before), last);
    }
  }

  function AfterLastExpire(ops: Operations): Operations {
    if ops == [] then []
    else if ops[|ops| - 1].action == "expire" then []
    else AfterLastExpire(ops[..|ops| - 1]) + [ops[|ops| - 1]]
  }

  lemma {:induction false} TailHasNoExpire(ops: Operations)
    ensures forall op :: op in AfterLastExpire(ops) ==> op in ops && op.action != "expire"
  {
    if ops != [] {
      TailHasNoExpire(ops[..|ops| - 1]);
    }
  }

  lemma TailSnoc(ops: Operations, op: MetricOperation)
    requires op.action != "expire"
    ensures AfterLastExpire(ops + [op]) == AfterLastExpire(ops) + [op]
  {
    assert (ops + [op])[..|ops|] == ops;
  }

  lemma FoldSnoc(env: Env, sigs: Signatures, group: string, key: Key, cell: Option<Metric>, ops: Operations,
                 op: MetricOperation)
    ensures KeyFold(env, sigs, group, key, cell, ops + [op])
         == KeyStep(env, sigs, group, key, KeyFold(env, sigs, group, key, cell, ops), op)
  {
    assert (ops + [op])[..|ops|] == ops;
  }

  /** A group's own cell, or none, stays one. */
  lemma StepStaysOwn(env: Env, sigs: Signatures, group: string, key: Key, cell: Option<Metric>, op: MetricOperation)
    requires !Foreign(cell, group)
    ensures !Foreign(KeyStep(env, sigs, group, key, cell, op), group)
    ensures op.action == "expire" ==> KeyStep(env, sigs, group, key, cell, op) == None
  {
  }

  /** The group's own cells only remember what follows the last expire. */
  lemma {:induction false} OwnRestarts(env: Env, sigs: Signatures, group: string, key: Key, ops: Operations)
    ensures KeyFold(env, sigs, group, key, None, ops) == KeyFold(env, sigs, group, key, None, AfterLastExpire(ops))
    ensures !Foreign(KeyFold(env, sigs, group, key, None, ops), group)
  {
    if ops != [] {
      hide KeyStep;
      var before, last := ops[..|ops| - 1], ops[|ops| - 1];
      assert ops == before + [last];
      OwnRestarts(env, sigs, group, key, before);
      FoldSnoc(env, sigs, group, key, None, before, last);
      StepStaysOwn(env, sigs, group, key, KeyFold(env, sigs, group, key, None, before), last);
      if last.action != "expire" {
        TailSnoc(before, last);
        FoldSnoc(env, sigs, group, key, None, AfterLastExpire(before), last);
      }
    }
  }

  // ---------- One group ----------

  lemma {:induction false} StaysTyped(env: Env, group: string, view: View, ops: Operations)
    requires WellTyped(view)
    ensures WellTyped(ApplyOps(env, group, view, ops))
  {
    if ops != [] {
      var before := ApplyOps(env, group, view, ops[..|ops| - 1]);
      var after := ApplyOps(env, group, view, ops);
      StaysTyped(env, group, view, ops[..|ops| - 1]);
      forall key: Key | CellOf(after, key).Some?
        ensures CellOf(after, key).value.value.Count? <==> after[key.name].signature.kind.Counter?
      {
        StepAt(env, SignaturesOf(after), group, before, ops[|ops| - 1], key);
      }
    }
  }

  /** A batch sets its group to a new state: a metric which the group owned or nobody owned holds
      exactly what the operations after the last expire add up to from nothing, so it is gone when
      they do not touch it and its counter restarts; a metric of another group stays with that
      group and is changed only by operations which touch it. */
  lemma GroupIsRebuilt(env: Env, group: string, view: View, ops: Operations, key: Key)
    requires WellTyped(view)
    ensures
      var after := ApplyGroup(env, group, view, ops);
      var sigs := SignaturesOf(after);
      if Foreign(CellOf(view, key), group)
      then CountedOn(env, sigs, group, key, CellOf(view, key), ops, CellOf(after, key))
      else CountedOn(env, sigs, group, key, None, AfterLastExpire(ops), CellOf(after, key))
  {
    var after := ApplyGroup(env, group, view, ops);
    var sigs := SignaturesOf(after);
    GroupAt(env, sigs, group, view, ops, key);
    if Foreign(CellOf(view, key), group) {
      FoldCountsOn(env, sigs, group, key, CellOf(view, key), ops);
    } else {
      OwnRestarts(env, sigs, group, key, ops);
      TailHasNoExpire(ops);
      FoldCountsOn(env, sigs, group, key, None, AfterLastExpire(ops));
    }
  }

  /** Every counter of another group which the batch touches is incremented by nothing in the end. */
  ghost predicate ForeignCountersRest(env: Env, group: string, view: View, ops: Operations) {
    forall key: Key :: Foreign(CellOf(view, key), group) && view[key.name].signature.kind.Counter?
      ==> Total(env, SignaturesOf(view), key, ops) % TWO_64 == 0
  }

  lemma {:induction false} TotalBySignature(env: Env, a: Signatures, b: Signatures, key: Key, ops: Operations)
    requires key.name in a && key.name in b && a[key.name] == b[key.name]
    ensures Total(env, a, key, ops) == Total(env, b, key, ops)
    ensures Touches(env, a, key, ops) <==> Touches(env, b, key, ops)
  {
    forall op ensures Hits(env, a, key, op) <==> Hits(env, b, key, op) {}
    if ops != [] {
      TotalBySignature(env, a, b, key, ops[..|ops| - 1]);
    }
  }

  lemma AddsNothing(count: Word, total: nat)
    ensures ((count + total) % TWO_64 + total) % TWO_64 == (count + total) % TWO_64 <==> total % TWO_64 == 0
  {
    var m := (count + total) % TWO_64;
    var t := total % TWO_64;
    WrapOnce(total, m);
    assert (m + total) % TWO_64 == (m + t) % TWO_64;
    assert (m + t) % TWO_64 == if m + t < TWO_64 then m + t else m + t - TWO_64;
  }

  /** One cell under the batch applied twice. */
  lemma TwiceAt(env: Env, sigs: Signatures, group: string, key: Key, cell: Option<Metric>, ops: Operations)
    requires CellTyped(sigs, key, cell)
    ensures
      var one := KeyGroup(env, sigs, group, key, cell, ops);
      KeyGroup(env, sigs, group, key, one, ops) == one
      <==> (Foreign(cell, group) && sigs[key.name].kind.Counter? ==> Total(env, sigs, key, ops) % TWO_64 == 0)
  {
    var one := KeyGroup(env, sigs, group, key, cell, ops);
    if Foreign(cell, group) {
      FoldCountsOn(env, sigs, group, key, cell, ops);
      FoldCountsOn(env, sigs, group, key, one, ops);
      if !Touches(env, sigs, key, ops) {
        NothingToTotal(env, sigs, key, ops);
      } else if sigs[key.name].kind.Counter? {
        AddsNothing(cell.value.value.count, Total(env, sigs, key, ops));
      }
    } else {
      OwnRestarts(env, sigs, group, key, ops);
    }
  }

  /** Sending the same batch of a group again changes nothing, exactly when the batch adds nothing
      to the counters of other groups. */
  lemma TwiceIsOnceExactly(env: Env, group: string, view: View, ops: Operations)
    requires WellTyped(view)
    ensures
      var one := ApplyGroup(env, group, view, ops);
      ApplyGroup(env, group, one, ops) == one <==> ForeignCountersRest(env, group, view, ops)
  {
    var one := ApplyGroup(env, group, view, ops);
    var two := ApplyGroup(env, group, one, ops);
    var sigs := SignaturesOf(two);
    forall key: Key
      ensures Fits(view, sigs) && Fits(one, sigs)
      ensures CellOf(two, key) == CellOf(one, key) <==>
              (Foreign(CellOf(view, key), group) && view[key.name].signature.kind.Counter?
               ==> Total(env, SignaturesOf(view), key, ops) % TWO_64 == 0)
    {
      GroupAt(env, sigs, group, one, ops, key);
      GroupAt(env, sigs, group, view, ops, key);
      TwiceAt(env, sigs, group, key, CellOf(view, key), ops);
      if Foreign(CellOf(view, key), group) {
        TotalBySignature(env, sigs, SignaturesOf(view), key, ops);
      }
    }
    forall name ensures name in one <==> name in two {
      NamesAfter(env, group, Expire(one, group), ops, name);
      NamesAfter(env, group, Expire(view, group), ops, name);
    }
    assert Fits(one, sigs) by { var key := Key("", 0); assert CellOf(two, key) == CellOf(two, key); }
    if ForeignCountersRest(env, group, view, ops) {
      SameView(one, two, sigs);
    }
  }

  // ---------- The documented example ----------

  /** A batch which only adds to a metric of its own group leaves what it adds, whatever was counted
      before: adding 1 to a metric that stands at 1 leaves 1. */
  lemma CounterRestarts(env: Env, group: string, view: View, op: MetricOperation, key: Key)
    requires WellTyped(view) && op.action == "add" && op.value.Some?
    requires Hits(env, SignaturesOf(ApplyGroup(env, group, view, [op])), key, op)
    requires !Foreign(CellOf(view, key), group)
    ensures var after := CellOf(ApplyGroup(env, group, view, [op]), key);
      && OwnedBy(after, group)
      && after.value.value == Count(ToWord(env, op.value.value))
      && (op.value.value == 1.0 ==> after.value.value == Count(1))
      && forall n: nat :: IsWholePart(op.value.value, n) && n < TWO_64 ==> after.value.value == Count(n)
  {
    hide ApplyGroup;
    hide WellTyped;
    hide Touches;
    hide LastLevel;
    hide CellOf;
    WholePartIsAdded(env, op.value.value);
    GroupIsRebuilt(env, group, view, [op], key);
    assert [op][..0] == [] && [] + [op] == [op];
    assert AfterLastExpire([op]) == AfterLastExpire([]) + [op];
    TouchesLast(env, SignaturesOf(ApplyGroup(env, group, view, [op])), key, [], op);
  }

  lemma TailOfTwo(op: MetricOperation)
    requires op.action != "expire"
    ensures AfterLastExpire([op, op]) == [op, op]
  {
    assert AfterLastExpire([]) == [];
    hide AfterLastExpire;
    assert [] + [op] == [op] && [op] + [op] == [op, op];
    TailSnoc([], op);
    TailSnoc([op], op);
  }

  lemma TwoHits(env: Env, sigs: Signatures, key: Key, op: MetricOperation)
    requires Hits(env, sigs, key, op)
    ensures Touches(env, sigs, key, [op, op])
    ensures Total(env, sigs, key, [op, op]) == 2 * ToWord(env, op.value.value)
  {
    assert Total(env, sigs, key, []) == 0;
    hide Touches, LastLevel, ToWord, FirstHit, Hits, Total;
    assert [] + [op] == [op] && [op] + [op] == [op, op];
    TouchesLast(env, sigs, key, [], op);
    TouchesLast(env, sigs, key, [op], op);
    HitIsWrite(env, sigs, key, op);
  }

  /** Adding twice in one batch leaves twice the whole part, modulo 2^64. */
  lemma AddsUp(env: Env, group: string, view: View, op: MetricOperation, key: Key, n: nat)
    requires WellTyped(view) && op.action == "add" && op.value.Some?
    requires Hits(env, SignaturesOf(ApplyGroup(env, group, view, [op, op])), key, op)
    requires !Foreign(CellOf(view, key), group)
    requires IsWholePart(op.value.value, n) && n < TWO_64
    ensures var after := CellOf(ApplyGroup(env, group, view, [op, op]), key);
      OwnedBy(after, group) && after.value.value == Count(2 * n % TWO_64)
  {
    hide ApplyGroup, WellTyped, Touches, LastLevel, CellOf, IsWholePart, Total, AfterLastExpire, ToWord, FirstHit;
    WholePartIsAdded(env, op.value.value);
    GroupIsRebuilt(env, group, view, [op, op], key);
    TailOfTwo(op);
    TwoHits(env, SignaturesOf(ApplyGroup(env, group, view, [op, op])), key, op);
  }

  /** Setting leaves the level. */
  lemma LastLevelStays(env: Env, group: string, view: View, op: MetricOperation, key: Key)
    requires WellTyped(view) && op.action == "set" && op.value.Some?
    requires Hits(env, SignaturesOf(ApplyGroup(env, group, view, [op])), key, op)
    requires !Foreign(CellOf(view, key), group)
    ensures var after := CellOf(ApplyGroup(env, group, view, [op]), key);
      OwnedBy(after, group) && after.value.value == Level(op.value.value)
  {
    hide ApplyGroup, WellTyped, Touches, CellOf;
    GroupIsRebuilt(env, group, view, [op], key);
    assert [op][..0] == [] && [] + [op] == [op];
    assert AfterLastExpire([op]) == AfterLastExpire([]) + [op];
    TouchesLast(env, SignaturesOf(ApplyGroup(env, group, view, [op])), key, [], op);
  }
}
