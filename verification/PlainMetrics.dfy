/** A collector keeps its metrics under a hash of their label values. When that is as good as
    keeping them under the label values themselves. */
module PlainMetrics {
  import opened Sequences
  import opened LabelEncoding
  import opened Metrics

  type Tuple = seq<Bytes>

  datatype Step = PutStep(group: string, value: real, values: Tuple) | ExpireStep(group: string)

  function HashedStep(env: Env, kind: Kind, cells: map<Hash, Metric>, step: Step): map<Hash, Metric> {
    match step
    case PutStep(group, value, values) =>
      var h := HashOf(env, values);
      cells[h := Stored(env, kind, values, group, value, CellAt(cells, h))]
    case ExpireStep(group) => ExpireCells(cells, group)
  }

  /** The same on a map keyed by the label values. */
  function PlainStep(env: Env, kind: Kind, plain: map<Tuple, Metric>, step: Step): map<Tuple, Metric> {
    match step
    case PutStep(group, value, values) =>
      plain[values := Stored(env, kind, values, group, value, if values in plain then Some(plain[values]) else None)]
    case ExpireStep(group) => map values | values in plain && plain[values].group != group :: plain[values]
  }

  function HashedRun(env: Env, kind: Kind, steps: seq<Step>): map<Hash, Metric> {
    if steps == [] then map[]
    else HashedStep(env, kind, HashedRun(env, kind, steps[..|steps| - 1]), steps[|steps| - 1])
  }

  function PlainRun(env: Env, kind: Kind, steps: seq<Step>): map<Tuple, Metric> {
    if steps == [] then map[]
    else PlainStep(env, kind, PlainRun(env, kind, steps[..|steps| - 1]), steps[|steps| - 1])
  }

  ghost predicate Uses(steps: seq<Step>, used: set<Tuple>) {
    forall step :: step in steps && step.PutStep? ==> step.values in used
  }

  /** The hash tells the label values in use apart. */
  ghost predicate ToldApart(env: Env, used: set<Tuple>) {
    forall t, u :: t in used && u in used && HashOf(env, t) == HashOf(env, u) ==> t == u
  }

  /** Each plain entry is the cell under its hash, and each cell is a plain entry. */
  ghost predicate Represents(env: Env, cells: map<Hash, Metric>, plain: map<Tuple, Metric>, used: set<Tuple>) {
    && (forall t :: t in plain ==>
        t in used && plain[t].labelValues == t && CellAt(cells, HashOf(env, t)) == Some(plain[t]))
    && (forall h :: h in cells ==> cells[h].labelValues in plain && HashOf(env, cells[h].labelValues) == h)
  }

  lemma PutRepresents(env: Env, cells: map<Hash, Metric>, plain: map<Tuple, Metric>, t: Tuple, m: Metric,
                      used: set<Tuple>)
    requires ToldApart(env, used) && Represents(env, cells, plain, used)
    requires t in used && m.labelValues == t
    ensures Represents(env, cells[HashOf(env, t) := m], plain[t := m], used)
  {
    var after := cells[HashOf(env, t) := m];
    forall u | u in plain && u != t ensures CellAt(after, HashOf(env, u)) == Some(plain[u]) {
      assert HashOf(env, u) != HashOf(env, t);
    }
    forall h | h in after ensures after[h].labelValues in plain[t := m] && HashOf(env, after[h].labelValues) == h {
      if h != HashOf(env, t) {
        assert h in cells;
      }
    }
  }

  lemma ExpireRepresents(env: Env, cells: map<Hash, Metric>, plain: map<Tuple, Metric>, group: string, used: set<Tuple>)
    requires Represents(env, cells, plain, used)
    ensures Represents(env, ExpireCells(cells, group),
                       map values | values in plain && plain[values].group != group :: plain[values], used)
  {
    forall h | h in cells ensures CellAt(cells, h) == Some(plain[cells[h].labelValues]) {}
  }

  lemma StepRepresents(env: Env, kind: Kind, cells: map<Hash, Metric>, plain: map<Tuple, Metric>, step: Step,
                       used: set<Tuple>)
    requires ToldApart(env, used) && Represents(env, cells, plain, used)
    requires step.PutStep? ==> step.values in used
    ensures Represents(env, HashedStep(env, kind, cells, step), PlainStep(env, kind, plain, step), used)
  {
    match step
    case PutStep(group, value, values) =>
      var h := HashOf(env, values);
      assert h in cells ==> cells[h].labelValues == values;
      assert CellAt(cells, h) == if values in plain then Some(plain[values]) else None;
      PutRepresents(env, cells, plain, values, Stored(env, kind, values, group, value, CellAt(cells, h)), used);
    case ExpireStep(group) =>
      ExpireRepresents(env, cells, plain, group, used);
  }

  lemma {:induction false} RunRepresents(env: Env, kind: Kind, steps: seq<Step>, used: set<Tuple>)
    requires ToldApart(env, used) && Uses(steps, used)
    ensures Represents(env, HashedRun(env, kind, steps), PlainRun(env, kind, steps), used)
  {
    if steps != [] {
      var before, last := steps[..|steps| - 1], steps[|steps| - 1];
      assert last in steps && forall step :: step in before ==> step in steps;
      RunRepresents(env, kind, before, used);
      StepRepresents(env, kind, HashedRun(env, kind, before), PlainRun(env, kind, before), last, used);
    }
  }

  lemma SameMetrics(env: Env, cells: map<Hash, Metric>, plain: map<Tuple, Metric>, used: set<Tuple>)
    requires Represents(env, cells, plain, used)
    ensures cells.Values == plain.Values
  {
    forall m | m in cells.Values ensures m in plain.Values {
      var h :| h in cells && cells[h] == m;
      var t := m.labelValues;
      assert t in plain && CellAt(cells, HashOf(env, t)) == Some(plain[t]);
    }
    forall m | m in plain.Values ensures m in cells.Values {
      var t :| t in plain && plain[t] == m;
      assert CellAt(cells, HashOf(env, t)) == Some(m) && HashOf(env, t) in cells;
    }
  }

  lemma CollisionLosesMetric(env: Env, kind: Kind, t: Tuple, u: Tuple)
    requires t != u && HashOf(env, t) == HashOf(env, u)
    ensures
      var steps := [PutStep("", 1.0, t), PutStep("", 1.0, u)];
      HashedRun(env, kind, steps).Values != PlainRun(env, kind, steps).Values
  {
    var first, second := PutStep("", 1.0, t), PutStep("", 1.0, u);
    var steps := [first, second];
    var h := HashOf(env, t);
    assert steps[..1] == [first] && [first][..0] == [];
    assert HashedRun(env, kind, [first]) == HashedStep(env, kind, map[], first);
    assert PlainRun(env, kind, [first]) == PlainStep(env, kind, map[], first);
    var cells, plain := HashedRun(env, kind, steps), PlainRun(env, kind, steps);
    assert cells == HashedStep(env, kind, HashedRun(env, kind, [first]), second);
    assert plain == PlainStep(env, kind, PlainRun(env, kind, [first]), second);
    assert cells.Keys == {h} && cells[h].labelValues == t;
    assert u in plain && plain[u].labelValues == u && plain[u] in plain.Values;
    assert forall m :: m in cells.Values ==> m.labelValues == t;
  }

  /** What a collector reports after any Adds, Sets and expirations is what a map keyed by the label
      values would report, exactly when the hash tells the values in use apart. */
  lemma CollectorIsPlainMapExactly(env: Env, kind: Kind, used: set<Tuple>)
    ensures ToldApart(env, used)
       <==> forall steps :: Uses(steps, used) ==>
           HashedRun(env, kind, steps).Values == PlainRun(env, kind, steps).Values
  {
    if ToldApart(env, used) {
      forall steps | Uses(steps, used)
        ensures HashedRun(env, kind, steps).Values == PlainRun(env, kind, steps).Values
      {
        RunRepresents(env, kind, steps, used);
        SameMetrics(env, HashedRun(env, kind, steps), PlainRun(env, kind, steps), used);
      }
    } else {
      var t, u :| t in used && u in used && HashOf(env, t) == HashOf(env, u) && t != u;
      CollisionLosesMetric(env, kind, t, u);
      assert Uses([PutStep("", 1.0, t), PutStep("", 1.0, u)], used);
    }
  }

  /** Values without the byte 255 are told apart by any hash which is injective on what it is fed. */
  lemma CleanValuesToldApart(env: Env, used: set<Tuple>)
    requires forall t, i :: t in used && 0 <= i < |t| ==> Clean(t[i])
    requires forall t, u :: t in used && u in used && env.hash(Encode(t)) == env.hash(Encode(u)) ==>
        Encode(t) == Encode(u)
    ensures ToldApart(env, used)
  {
    forall t, u | t in used && u in used && HashOf(env, t) == HashOf(env, u) ensures t == u {
      assert env.hash(Encode(t)) == env.hash(Encode(u));
      EncodeInjective(t, u);
    }
  }

  /** With two labels or more, a value with the byte 255 shares its cell with other values, whatever
      the hash. */
  lemma SeparatorSharesCell(env: Env, t: Tuple) returns (u: Tuple)
    requires |t| > 1 && exists i :: 0 <= i < |t| && !Clean(t[i])
    ensures u != t && |u| == |t| && !ToldApart(env, {t, u})
  {
    UniquelyEncodedExactly(t);
    u :| |u| == |t| && Encode(u) == Encode(t) && u != t;
    assert HashOf(env, t) == HashOf(env, u);
  }

  // ---------- Such runs are what collectors do ----------

  /** A call of Add or Set, or of ExpireGroupMetrics. */
  datatype Call = PutCall(group: string, value: real, labels: map<string, Bytes>) | ExpireCall(group: string)

  function Called(env: Env, column: Column, calls: seq<Call>): Column {
    if calls == [] then column
    else
      var before := Called(env, column, calls[..|calls| - 1]);
      match calls[|calls| - 1]
      case PutCall(group, value, labels) => Put(env, before, group, value, labels)
      case ExpireCall(group) => before.(cells := ExpireCells(before.cells, group))
  }

  function StepOf(labelNames: seq<string>, call: Call): Step {
    match call
    case PutCall(group, value, labels) => PutStep(group, value, LabelValues(labels, labelNames))
    case ExpireCall(group) => ExpireStep(group)
  }

  function StepsOf(labelNames: seq<string>, calls: seq<Call>): seq<Step> {
    if calls == [] then []
    else StepsOf(labelNames, calls[..|calls| - 1]) + [StepOf(labelNames, calls[|calls| - 1])]
  }

  lemma PutIsHashedStep(env: Env, column: Column, group: string, value: real, labels: map<string, Bytes>)
    ensures Put(env, column, group, value, labels).cells
         == HashedStep(env, column.signature.kind, column.cells,
                       PutStep(group, value, LabelValues(labels, column.signature.labelNames)))
  {
  }

  /** The calls of a new collector, whose labels may have any names, are a run on the values of its own
      label names. */
  lemma {:induction false} CollectorRuns(env: Env, signature: Signature, calls: seq<Call>)
    ensures Called(env, Column(signature, map[]), calls)
         == Column(signature, HashedRun(env, signature.kind, StepsOf(signature.labelNames, calls)))
  {
    if calls != [] {
      var before, last := calls[..|calls| - 1], calls[|calls| - 1];
      CollectorRuns(env, signature, before);
      var steps := StepsOf(signature.labelNames, before);
      assert (steps + [StepOf(signature.labelNames, last)])[..|steps|] == steps;
    }
  }
}
