/** Grouped metrics on values: what each operation does to the collectors of the vault. */
module Metrics {
  import opened Integers
  import opened Sequences
  import opened LabelEncoding

  type Word = x: int | 0 <= x < TWO_64

  datatype Kind = Counter | Gauge

  datatype Value = Count(count: Word) | Level(level: real)

  /** GroupedCounterMetric and GroupedGaugeMetric. */
  datatype Metric = Metric(value: Value, labelValues: seq<Bytes>, group: string)

  datatype Signature = Signature(kind: Kind, labelNames: seq<string>)

  /** What one collector holds. */
  datatype Column = Column(signature: Signature, cells: map<Hash, Metric>)

  /** What the vault holds, by metric name. */
  type View = map<string, Column>

  datatype MetricOperation = MetricOperation(
    name: string, group: string, action: string, value: Option<real>,
    add: Option<real>, set_: Option<real>, labels: map<string, Bytes>)

  /** What the operations are given from outside: the hash over the bytes written, the sorting of
      label names, Go's conversion of a float64 that no uint64 represents, and the common labels. */
  datatype Env = Env(hash: Bytes -> Hash, sorted: set<string> -> seq<string>, outOfRange: real -> Word,
                     common: map<string, Bytes>)

  /** uint64(value): the fraction is dropped. */
  function ToWord(env: Env, value: real): Word {
    if -1.0 < value < 0.0 then 0
    else if 0.0 <= value && value.Floor < TWO_64 then value.Floor
    else env.outOfRange(value)
  }

  /** `n` is the largest integer not above the value. */
  ghost predicate IsWholePart(value: real, n: nat) {
    n as real <= value < n as real + 1.0
  }

  /** A counter grows by the whole part of the value, and a negative fraction counts as nothing. */
  lemma WholePartIsAdded(env: Env, value: real)
    ensures forall n: nat :: IsWholePart(value, n) && n < TWO_64 ==> ToWord(env, value) == n
    ensures -1.0 < value < 0.0 ==> ToWord(env, value) == 0
  {
    forall n: nat | IsWholePart(value, n) && n < TWO_64 ensures ToWord(env, value) == n {
      assert value.Floor as real <= value < value.Floor as real + 1.0;
    }
  }

  function Labels(env: Env, op: MetricOperation): map<string, Bytes> {
    op.labels + env.common
  }

  function HashOf(env: Env, values: seq<Bytes>): Hash {
    env.hash(Encode(values))
  }

  /** Adding wraps around at 2^64; setting replaces. */
  function Updated(env: Env, kind: Kind, was: Value, value: real): Value {
    if kind.Gauge? then Level(value)
    else if was.Count? then Count((was.count + ToWord(env, value)) % TWO_64)
    else was
  }

  function Fresh(env: Env, kind: Kind, value: real): Value {
    if kind.Gauge? then Level(value) else Count(ToWord(env, value))
  }

  /** An existing metric keeps the group that created it. */
  function Stored(env: Env, kind: Kind, values: seq<Bytes>, group: string, value: real, was: Option<Metric>): Metric {
    match was
    case None => Metric(Fresh(env, kind, value), values, group)
    case Some(m) => m.(value := Updated(env, kind, m.value, value))
  }

  function CellAt(cells: map<Hash, Metric>, h: Hash): Option<Metric> {
    if h in cells then Some(cells[h]) else None
  }

  /** ConstCounterCollector.Add and ConstGaugeCollector.Set. */
  function Put(env: Env, column: Column, group: string, value: real, labels: map<string, Bytes>): Column {
    var values := LabelValues(labels, column.signature.labelNames);
    var h := HashOf(env, values);
    var stored := Stored(env, column.signature.kind, values, group, value, CellAt(column.cells, h));
    column.(cells := column.cells[h := stored])
  }

  function ExpireCells(cells: map<Hash, Metric>, group: string): map<Hash, Metric> {
    map h | h in cells && cells[h].group != group :: cells[h]
  }

  function Expire(view: View, group: string): View {
    map name | name in view :: view[name].(cells := ExpireCells(view[name].cells, group))
  }

  /** The collector of that name, or a new one for the kind and the sorted label names. */
  function ColumnFor(env: Env, view: View, name: string, kind: Kind, labels: map<string, Bytes>): Column {
    if name in view then view[name] else Column(Signature(kind, env.sorted(labels.Keys)), map[])
  }

  /** CounterAdd and GaugeSet: a collector of the other kind makes them do nothing. */
  function Write(env: Env, view: View, kind: Kind, group: string, name: string, value: real,
                 labels: map<string, Bytes>): View {
    var column := ColumnFor(env, view, name, kind, labels);
    if column.signature.kind == kind then view[name := Put(env, column, group, value, labels)] else view
  }

  predicate IsWrite(op: MetricOperation) {
    (op.action == "add" || op.action == "set") && op.value.Some?
  }

  function KindOf(op: MetricOperation): Kind {
    if op.action == "add" then Counter else Gauge
  }

  function ApplyOp(env: Env, group: string, view: View, op: MetricOperation): View {
    if op.action == "expire" then Expire(view, group)
    else if IsWrite(op) then Write(env, view, KindOf(op), group, op.name, op.value.value, Labels(env, op))
    else view
  }

  function ApplyOps(env: Env, group: string, view: View, ops: seq<MetricOperation>): View {
    if ops == [] then view
    else ApplyOp(env, group, ApplyOps(env, group, view, ops[..|ops| - 1]), ops[|ops| - 1])
  }

  /** ApplyGroupOperations */
  function ApplyGroup(env: Env, group: string, view: View, ops: seq<MetricOperation>): View {
    ApplyOps(env, group, Expire(view, group), ops)
  }

  /** All groups of a batch, in the order in which the map is walked. */
  function ApplyAll(env: Env, view: View, grouped: map<string, seq<MetricOperation>>, order: seq<string>): View
    requires forall group :: group in order ==> group in grouped
  {
    if order == [] then view
    else
      var last := order[|order| - 1];
      ApplyGroup(env, last, ApplyAll(env, view, grouped, order[..|order| - 1]), grouped[last])
  }

  /** The order is one of those in which Go may walk the map. */
  ghost predicate IsOrderOf(order: seq<string>, groups: set<string>) {
    && (forall group :: group in order <==> group in groups)
    && (forall i, j :: 0 <= i < j < |order| ==> order[i] != order[j])
  }

  // ---------- Batches ----------

  /** ValidateMetricOperation */
  predicate ValidOperation(op: MetricOperation) {
    && (op.action == "set" || op.action == "add" || (op.action == "expire" && op.group != ""))
    && (op.name == "" ==> op.action == "expire")
    && (op.action != "expire" ==> op.value.Some?)
    && !(op.set_.Some? && op.add.Some?)
  }

  predicate ValidOperations(ops: seq<MetricOperation>) {
    forall op :: op in ops ==> ValidOperation(op)
  }

  /** The operations of one group, in order. */
  function OfGroup(ops: seq<MetricOperation>, group: string): seq<MetricOperation> {
    if ops == [] then []
    else OfGroup(ops[..|ops| - 1], group) + if ops[|ops| - 1].group == group then [ops[|ops| - 1]] else []
  }

  lemma {:induction false} OfGroupHas(ops: seq<MetricOperation>, group: string, op: MetricOperation)
    ensures op in OfGroup(ops, group) <==> op in ops && op.group == group
  {
    if ops != [] {
      OfGroupHas(ops[..|ops| - 1], group, op);
      assert ops == ops[..|ops| - 1] + [ops[|ops| - 1]];
    }
  }

  function Groups(ops: seq<MetricOperation>): set<string> {
    set op | op in ops && op.group != "" :: op.group
  }

  /** The non-empty groups, each with its operations. */
  ghost predicate IsPartition(grouped: map<string, seq<MetricOperation>>, ops: seq<MetricOperation>) {
    && grouped.Keys == Groups(ops)
    && forall group :: group in grouped ==> grouped[group] == OfGroup(ops, group)
  }

  /** A call of the plain, non-grouped metric vectors. */
  datatype Sample = Sample(kind: Kind, name: string, value: real, labels: map<string, Bytes>)

  predicate HasShortcut(op: MetricOperation) {
    op.add.Some? || op.set_.Some?
  }

  predicate AllShortcuts(ops: seq<MetricOperation>) {
    forall op :: op in ops ==> HasShortcut(op)
  }

  function SampleOf(env: Env, op: MetricOperation): Sample
    requires HasShortcut(op)
  {
    if op.add.Some? then Sample(Counter, op.name, op.add.value, Labels(env, op))
    else Sample(Gauge, op.name, op.set_.value, Labels(env, op))
  }

  /** SendBatchV0 stops at the first operation without 'add' and 'set'. */
  function Samples(env: Env, ops: seq<MetricOperation>): seq<Sample> {
    if ops == [] || !HasShortcut(ops[0]) then [] else [SampleOf(env, ops[0])] + Samples(env, ops[1..])
  }

  /** The documented form of an operation without a group, an action and a value, is valid but has no shortcut. */
  lemma DocumentedFormIsRefused(op: MetricOperation)
    requires op.group == "" && op.name != "" && (op.action == "add" || op.action == "set") && op.value.Some?
    requires op.add == None && op.set_ == None
    ensures ValidOperations([op]) && !AllShortcuts(OfGroup([op], ""))
  {
    assert [op][..0] == [];
    assert op in [op];
    OfGroupHas([op], "", op);
  }
}
