/** When the order in which the groups of a batch are applied does not matter. */
module MetricOrder {
  import opened Integers
  import opened Sequences
  import opened Metrics
  import opened MetricGroups

  type Grouped = map<string, Operations>

  /** The collector which these operations create for a new name. */
  function Created(env: Env, ops: Operations, name: string): Signature
    requires Writes(ops, name)
  {
    var before, last := ops[..|ops| - 1], ops[|ops| - 1];
    assert ops == before + [last];
    if Writes(before, name) then Created(env, before, name)
    else Signature(KindOf(last), env.sorted(Labels(env, last).Keys))
  }

  /** Whichever group comes first creates the same collector, of the same type and label names. */
  ghost predicate OneSignature(env: Env, sigs: Signatures, view: View, grouped: Grouped) {
    && Fits(view, sigs)
    && forall group, name :: group in grouped && name !in view && Writes(grouped[group], name) ==>
         name in sigs && sigs[name] == Created(env, grouped[group], name)
  }

  /** No metric is written by two groups of the batch, and none by a group of the batch while
      another group of the batch owns it. */
  ghost predicate Separate(env: Env, sigs: Signatures, view: View, grouped: Grouped) {
    forall group, key :: group in grouped && Touches(env, sigs, key, grouped[group]) ==>
      && (forall other :: other in grouped && other != group ==> !Touches(env, sigs, key, grouped[other]))
      && (CellOf(view, key).Some? && CellOf(view, key).value.group in grouped ==>
          CellOf(view, key).value.group == group)
  }

  lemma WritesLast(env: Env, before: Operations, last: MetricOperation, name: string)
    ensures Writes(before + [last], name) <==> Writes(before, name) || (IsWrite(last) && last.name == name)
    ensures Writes(before, name) ==> Created(env, before + [last], name) == Created(env, before, name)
    ensures !Writes(before, name) && IsWrite(last) && last.name == name ==>
              Created(env, before + [last], name) == Signature(KindOf(last), env.sorted(Labels(env, last).Keys))
  {
    var ops := before + [last];
    assert ops[..|ops| - 1] == before && ops[|ops| - 1] == last;
    assert last in ops && forall op :: op in before ==> op in ops;
  }

  /** An existing collector stays as it is, and a new one is the one created first. */
  lemma {:induction false} SignatureAfter(env: Env, group: string, view: View, ops: Operations, name: string)
    ensures name in view ==>
              name in ApplyOps(env, group, view, ops)
              && ApplyOps(env, group, view, ops)[name].signature == view[name].signature
    ensures name !in view ==>
              && (name in ApplyOps(env, group, view, ops) <==> Writes(ops, name))
              && (Writes(ops, name) ==>
                    ApplyOps(env, group, view, ops)[name].signature == Created(env, ops, name))
  {
    if ops != [] {
      var before, last := ops[..|ops| - 1], ops[|ops| - 1];
      assert ops == before + [last];
      SignatureAfter(env, group, view, before, name);
      WritesLast(env, before, last, name);
    }
  }

  lemma GroupFits(env: Env, sigs: Signatures, group: string, view: View, ops: Operations)
    requires Fits(view, sigs)
    requires forall name :: name !in view && Writes(ops, name) ==> name in sigs && sigs[name] == Created(env, ops, name)
    ensures Fits(ApplyGroup(env, group, view, ops), sigs)
    ensures forall name :: name in view ==> name in ApplyGroup(env, group, view, ops)
  {
    forall name {
      SignatureAfter(env, group, Expire(view, group), ops, name);
    }
  }

  lemma {:induction false} AllFit(env: Env, sigs: Signatures, view: View, grouped: Grouped, order: seq<string>)
    requires forall group :: group in order ==> group in grouped
    requires OneSignature(env, sigs, view, grouped)
    ensures Fits(ApplyAll(env, view, grouped, order), sigs)
    ensures forall name :: name in view ==> name in ApplyAll(env, view, grouped, order)
  {
    if order != [] {
      var last := order[|order| - 1];
      AllFit(env, sigs, view, grouped, order[..|order| - 1]);
      GroupFits(env, sigs, last, ApplyAll(env, view, grouped, order[..|order| - 1]), grouped[last]);
    }
  }

  lemma {:induction false} AllNames(env: Env, view: View, grouped: Grouped, order: seq<string>, name: string)
    requires forall group :: group in order ==> group in grouped
    ensures name in ApplyAll(env, view, grouped, order)
       <==> name in view || exists group :: group in order && Writes(grouped[group], name)
  {
    if order != [] {
      var before, last := order[..|order| - 1], order[|order| - 1];
      assert order == before + [last];
      AllNames(env, view, grouped, before, name);
      NamesAfter(env, last, Expire(ApplyAll(env, view, grouped, before), last), grouped[last], name);
    }
  }

  /** A group which does not touch a cell can only expire it. */
  lemma {:induction false} Untouched(env: Env, sigs: Signatures, group: string, key: Key, cell: Option<Metric>,
                                     ops: Operations)
    requires !Touches(env, sigs, key, ops)
    ensures KeyFold(env, sigs, group, key, ExpireCell(cell, group), ops) == ExpireCell(cell, group)
  {
    if ops != [] {
      var before, last := ops[..|ops| - 1], ops[|ops| - 1];
      assert last in ops && forall op :: op in before ==> op in ops;
      Untouched(env, sigs, group, key, cell, before);
    }
  }

  lemma {:induction false} OwnerAfter(env: Env, sigs: Signatures, group: string, key: Key, cell: Option<Metric>,
                                      ops: Operations)
    ensures Foreign(cell, group) ==>
              && KeyFold(env, sigs, group, key, cell, ops).Some?
              && KeyFold(env, sigs, group, key, cell, ops).value.group == cell.value.group
    ensures !Foreign(cell, group) ==> !Foreign(KeyFold(env, sigs, group, key, cell, ops), group)
  {
    if ops != [] {
      OwnerAfter(env, sigs, group, key, cell, ops[..|ops| - 1]);
    }
  }

  /** The one group which touches a cell decides, or else its owner's expiry. */
  ghost predicate Decided(env: Env, sigs: Signatures, grouped: Grouped, order: seq<string>, key: Key,
                          cell: Option<Metric>, r: Option<Metric>)
    requires forall group :: group in order ==> group in grouped
  {
    && (forall group :: group in order && Touches(env, sigs, key, grouped[group]) ==>
          r == KeyGroup(env, sigs, group, key, cell, grouped[group]))
    && ((forall group :: group in order ==> !Touches(env, sigs, key, grouped[group])) ==>
          r == if cell.Some? && cell.value.group in order then None else cell)
  }

  lemma UntouchedStep(env: Env, sigs: Signatures, grouped: Grouped, before: seq<string>, last: string, key: Key,
                      cell: Option<Metric>, c: Option<Metric>)
    requires (forall group :: group in before ==> group in grouped) && last in grouped && last !in before
    requires Decided(env, sigs, grouped, before, key, cell, c)
    requires !Touches(env, sigs, key, grouped[last])
    requires forall group :: group in before && Touches(env, sigs, key, grouped[group]) ==> ExpireCell(c, last) == c
    ensures Decided(env, sigs, grouped, before + [last], key, cell, ExpireCell(c, last))
  {
    hide Touches, KeyGroup;
  }

  /** One cell after all groups. */
  lemma {:induction false} AllAt(env: Env, sigs: Signatures, view: View, grouped: Grouped, order: seq<string>, key: Key)
    requires forall group :: group in order ==> group in grouped
    requires forall i, j :: 0 <= i < j < |order| ==> order[i] != order[j]
    requires OneSignature(env, sigs, view, grouped)
    requires Separate(env, sigs, view, grouped)
    ensures Decided(env, sigs, grouped, order, key, CellOf(view, key), CellOf(ApplyAll(env, view, grouped, order), key))
  {
    hide Touches, ApplyGroup, OneSignature, Fits, CellOf, KeyFold;
    if order != [] {
      var before, last := order[..|order| - 1], order[|order| - 1];
      assert order == before + [last] && last !in before;
      AllAt(env, sigs, view, grouped, before, key);
      AllFit(env, sigs, view, grouped, order);
      var middle := ApplyAll(env, view, grouped, before);
      var cell, c := CellOf(view, key), CellOf(middle, key);
      GroupAt(env, sigs, last, middle, grouped[last], key);
      if Touches(env, sigs, key, grouped[last]) {
        assert c == cell;
      } else {
        Untouched(env, sigs, last, key, c, grouped[last]);
        forall group | group in before && Touches(env, sigs, key, grouped[group])
          ensures ExpireCell(c, last) == c
        {
          OwnerAfter(env, sigs, group, key, ExpireCell(cell, group), grouped[group]);
        }
        UntouchedStep(env, sigs, grouped, before, last, key, cell, c);
      }
    }
  }

  /** The order in which Go walks the map of groups does not matter. */
  lemma OrderIsIrrelevant(env: Env, sigs: Signatures, view: View, grouped: Grouped, a: seq<string>, b: seq<string>)
    requires IsOrderOf(a, grouped.Keys) && IsOrderOf(b, grouped.Keys)
    requires OneSignature(env, sigs, view, grouped)
    requires Separate(env, sigs, view, grouped)
    ensures ApplyAll(env, view, grouped, a) == ApplyAll(env, view, grouped, b)
  {
    hide ApplyAll, CellOf, Fits, KeyGroup, Touches;
    AllFit(env, sigs, view, grouped, a);
    AllFit(env, sigs, view, grouped, b);
    forall key ensures CellOf(ApplyAll(env, view, grouped, a), key) == CellOf(ApplyAll(env, view, grouped, b), key) {
      AllAt(env, sigs, view, grouped, a, key);
      AllAt(env, sigs, view, grouped, b, key);
    }
    forall name ensures name in ApplyAll(env, view, grouped, a) <==> name in ApplyAll(env, view, grouped, b) {
      AllNames(env, view, grouped, a, name);
      AllNames(env, view, grouped, b, name);
    }
    SameView(ApplyAll(env, view, grouped, a), ApplyAll(env, view, grouped, b), sigs);
  }

  lemma OneMore(env: Env, view: View, grouped: Grouped, order: seq<string>, last: string)
    requires forall group :: group in order + [last] ==> group in grouped
    ensures forall group :: group in order ==> group in grouped
    ensures last in grouped
    ensures ApplyAll(env, view, grouped, order + [last])
         == ApplyGroup(env, last, ApplyAll(env, view, grouped, order), grouped[last])
  {
    assert (order + [last])[..|order|] == order && last in order + [last];
    assert forall group :: group in order ==> group in order + [last];
  }

  lemma InOrder(env: Env, sigs: Signatures, view: View, grouped: Grouped, g: string, h: string, key: Key)
    requires g in grouped && h in grouped && OneSignature(env, sigs, view, grouped)
    ensures CellOf(ApplyAll(env, view, grouped, [g, h]), key)
         == KeyGroup(env, sigs, h, key, KeyGroup(env, sigs, g, key, CellOf(view, key), grouped[g]), grouped[h])
    ensures Fits(ApplyAll(env, view, grouped, [g, h]), sigs)
  {
    AllFit(env, sigs, view, grouped, [g]);
    AllFit(env, sigs, view, grouped, [g, h]);
    var one := ApplyGroup(env, g, view, grouped[g]);
    OneMore(env, view, grouped, [], g);
    OneMore(env, view, grouped, [g], h);
    assert [] + [g] == [g] && [g] + [h] == [g, h];
    GroupAt(env, sigs, g, view, grouped[g], key);
    GroupAt(env, sigs, h, one, grouped[h], key);
  }

  lemma PairAt(env: Env, sigs: Signatures, view: View, g: string, h: string, grouped: Grouped, key: Key)
    requires g in grouped && h in grouped && g != h
    requires OneSignature(env, sigs, view, grouped)
    requires CellOf(view, key) == None
    requires KeyFold(env, sigs, g, key, None, grouped[g]).Some?
    ensures CellOf(ApplyAll(env, view, grouped, [g, h]), key).Some?
    ensures CellOf(ApplyAll(env, view, grouped, [g, h]), key).value.group == g
  {
    hide ApplyAll, CellOf, OneSignature, Hits, KeyFold;
    InOrder(env, sigs, view, grouped, g, h, key);
    var mine := KeyFold(env, sigs, g, key, None, grouped[g]);
    OwnerAfter(env, sigs, g, key, None, grouped[g]);
    OwnerAfter(env, sigs, h, key, mine, grouped[h]);
  }

  /** Why groups must not share a metric: whenever two groups each leave something in a new cell,
      the group that is applied first owns it. */
  lemma SharedMetricDependsOnOrder(env: Env, sigs: Signatures, view: View, g: string, h: string, grouped: Grouped,
                                   key: Key)
    requires g in grouped && h in grouped && g != h
    requires OneSignature(env, sigs, view, grouped)
    requires CellOf(view, key) == None
    requires KeyFold(env, sigs, g, key, None, grouped[g]).Some? && KeyFold(env, sigs, h, key, None, grouped[h]).Some?
    ensures ApplyAll(env, view, grouped, [g, h]) != ApplyAll(env, view, grouped, [h, g])
  {
    PairAt(env, sigs, view, g, h, grouped, key);
    PairAt(env, sigs, view, h, g, grouped, key);
  }

  // ---------- Two groups, exactly ----------

  /** The group leaves something in a cell that it owns or that nobody owns. */
  predicate Keeps(env: Env, sigs: Signatures, key: Key, ops: Operations) {
    Touches(env, sigs, key, AfterLastExpire(ops))
  }

  predicate IsGauge(sigs: Signatures, key: Key) {
    key.name in sigs && sigs[key.name].kind.Gauge?
  }

  /** Operations of another group leave this value as it is. */
  predicate LeavesAlone(env: Env, sigs: Signatures, key: Key, ops: Operations, value: Value) {
    Touches(env, sigs, key, ops) ==>
      if IsGauge(sigs, key) then Level(LastLevel(env, sigs, key, ops)) == value
      else Total(env, sigs, key, ops) % TWO_64 == 0
  }

  /** What the group leaves is a last level or a count, and `others` do not change it. */
  predicate LeavesKept(env: Env, sigs: Signatures, key: Key, kept: Operations, others: Operations) {
    var tail := AfterLastExpire(kept);
    Touches(env, sigs, key, tail) ==>
      LeavesAlone(env, sigs, key, others,
                  if IsGauge(sigs, key) then Level(LastLevel(env, sigs, key, tail))
                  else Count(Total(env, sigs, key, tail) % TWO_64))
  }

  /** Whether the order of two groups matters for a cell, told from the cell's owner, from who writes it,
      and from the sums and last levels written:
      - a cell of a third group is only updated, and only two different last levels tell the order;
      - a new cell goes to the first group that leaves something, so at most one may;
      - a cell of one of the two must not pass to the other;
      - and what the owner leaves must not be changed by the other group. */
  predicate Commutes(env: Env, sigs: Signatures, key: Key, cell: Option<Metric>, g: string, gs: Operations,
                     h: string, hs: Operations) {
    if Foreign(cell, g) && Foreign(cell, h) then
      Touches(env, sigs, key, gs) && Touches(env, sigs, key, hs) && IsGauge(sigs, key) ==>
        LastLevel(env, sigs, key, gs) == LastLevel(env, sigs, key, hs)
    else
      && (cell == None ==> !(Keeps(env, sigs, key, gs) && Keeps(env, sigs, key, hs)))
      && (OwnedBy(cell, g) && Keeps(env, sigs, key, hs) ==> Keeps(env, sigs, key, gs))
      && (OwnedBy(cell, h) && Keeps(env, sigs, key, gs) ==> Keeps(env, sigs, key, hs))
      && (!OwnedBy(cell, h) ==> LeavesKept(env, sigs, key, gs, hs))
      && (!OwnedBy(cell, g) ==> LeavesKept(env, sigs, key, hs, gs))
  }

  /** One group on one cell. */
  lemma GroupEffect(env: Env, sigs: Signatures, group: string, key: Key, cell: Option<Metric>, ops: Operations)
    requires CellTyped(sigs, key, cell)
    ensures var r := KeyGroup(env, sigs, group, key, cell, ops);
      && CellTyped(sigs, key, r)
      && (Foreign(cell, group) ==> CountedOn(env, sigs, group, key, cell, ops, r))
      && (!Foreign(cell, group) ==>
            && r == KeyGroup(env, sigs, group, key, None, ops)
            && CountedOn(env, sigs, group, key, None, AfterLastExpire(ops), r))
  {
    if Foreign(cell, group) {
      FoldCountsOn(env, sigs, group, key, cell, ops);
    } else {
      OwnRestarts(env, sigs, group, key, ops);
      TailHasNoExpire(ops);
      FoldCountsOn(env, sigs, group, key, None, AfterLastExpire(ops));
    }
  }

  lemma CountRests(count: Word, total: nat)
    ensures (count + total) % TWO_64 == count <==> total % TWO_64 == 0
  {
    var t := total % TWO_64;
    WrapOnce(total, count);
    assert (count + t) % TWO_64 == if count + t < TWO_64 then count + t else count + t - TWO_64;
  }

  lemma ForeignRestsExactly(env: Env, sigs: Signatures, group: string, key: Key, cell: Option<Metric>, ops: Operations,
                            r: Option<Metric>)
    requires CellTyped(sigs, key, cell) && cell.Some? && CountedOn(env, sigs, group, key, cell, ops, r)
    ensures r == cell <==> LeavesAlone(env, sigs, key, ops, cell.value.value)
  {
    if Touches(env, sigs, key, ops) && !IsGauge(sigs, key) {
      CountRests(cell.value.value.count, Total(env, sigs, key, ops));
    }
  }

  /** A cell of a third group. */
  lemma ThirdOwner(env: Env, sigs: Signatures, key: Key, cell: Option<Metric>, g: string, gs: Operations, h: string,
                   hs: Operations)
    requires CellTyped(sigs, key, cell) && Foreign(cell, g) && Foreign(cell, h)
    ensures KeyGroup(env, sigs, h, key, KeyGroup(env, sigs, g, key, cell, gs), hs)
         == KeyGroup(env, sigs, g, key, KeyGroup(env, sigs, h, key, cell, hs), gs)
       <==> Commutes(env, sigs, key, cell, g, gs, h, hs)
  {
    var a, b := KeyGroup(env, sigs, g, key, cell, gs), KeyGroup(env, sigs, h, key, cell, hs);
    GroupEffect(env, sigs, g, key, cell, gs);
    GroupEffect(env, sigs, h, key, cell, hs);
    GroupEffect(env, sigs, h, key, a, hs);
    GroupEffect(env, sigs, g, key, b, gs);
    if Touches(env, sigs, key, gs) && Touches(env, sigs, key, hs) && !IsGauge(sigs, key) {
      var c, x, y := cell.value.value.count, Total(env, sigs, key, gs), Total(env, sigs, key, hs);
      WrapOnce(c + x, y);
      WrapOnce(c + y, x);
    }
  }

  /** A new cell, or one of the two groups' own. */
  lemma FirstOwner(env: Env, sigs: Signatures, key: Key, cell: Option<Metric>, g: string, gs: Operations, h: string,
                   hs: Operations)
    requires CellTyped(sigs, key, cell) && g != h && !Foreign(cell, g)
    ensures var both := KeyGroup(env, sigs, h, key, KeyGroup(env, sigs, g, key, cell, gs), hs);
      var mine, theirs := KeyGroup(env, sigs, g, key, None, gs), KeyGroup(env, sigs, h, key, None, hs);
      && (mine.Some? <==> Keeps(env, sigs, key, gs)) && (theirs.Some? <==> Keeps(env, sigs, key, hs))
      && (mine.Some? ==> OwnedBy(mine, g)) && (theirs.Some? ==> OwnedBy(theirs, h))
      && (mine == None ==> both == theirs)
      && (mine.Some? ==> OwnedBy(both, g) && (both == mine <==> LeavesKept(env, sigs, key, gs, hs)))
  {
    var mine := KeyGroup(env, sigs, g, key, None, gs);
    GroupEffect(env, sigs, g, key, cell, gs);
    GroupEffect(env, sigs, g, key, None, gs);
    GroupEffect(env, sigs, h, key, None, hs);
    if mine.Some? {
      GroupEffect(env, sigs, h, key, mine, hs);
      ForeignRestsExactly(env, sigs, h, key, mine, hs, KeyGroup(env, sigs, h, key, mine, hs));
    }
  }

  /** The owner `g` of a cell comes second. */
  lemma SecondOwner(env: Env, sigs: Signatures, key: Key, cell: Option<Metric>, g: string, gs: Operations, h: string,
                    hs: Operations)
    requires CellTyped(sigs, key, cell) && g != h && OwnedBy(cell, g)
    ensures KeyGroup(env, sigs, g, key, KeyGroup(env, sigs, h, key, cell, hs), gs)
         == KeyGroup(env, sigs, g, key, None, gs)
  {
    var middle := KeyGroup(env, sigs, h, key, cell, hs);
    GroupEffect(env, sigs, h, key, cell, hs);
    GroupEffect(env, sigs, g, key, middle, gs);
  }

  lemma OwnCell(env: Env, sigs: Signatures, key: Key, cell: Option<Metric>, g: string, gs: Operations, h: string,
                hs: Operations)
    requires CellTyped(sigs, key, cell) && g != h && OwnedBy(cell, g)
    ensures KeyGroup(env, sigs, h, key, KeyGroup(env, sigs, g, key, cell, gs), hs)
         == KeyGroup(env, sigs, g, key, KeyGroup(env, sigs, h, key, cell, hs), gs)
       <==> Commutes(env, sigs, key, cell, g, gs, h, hs)
  {
    FirstOwner(env, sigs, key, cell, g, gs, h, hs);
    SecondOwner(env, sigs, key, cell, g, gs, h, hs);
  }

  lemma CommutesEitherWay(env: Env, sigs: Signatures, key: Key, cell: Option<Metric>, g: string, gs: Operations,
                          h: string, hs: Operations)
    ensures Commutes(env, sigs, key, cell, g, gs, h, hs) <==> Commutes(env, sigs, key, cell, h, hs, g, gs)
  {
  }

  lemma NewCell(env: Env, sigs: Signatures, key: Key, g: string, gs: Operations, h: string, hs: Operations)
    requires g != h
    ensures KeyGroup(env, sigs, h, key, KeyGroup(env, sigs, g, key, None, gs), hs)
         == KeyGroup(env, sigs, g, key, KeyGroup(env, sigs, h, key, None, hs), gs)
       <==> Commutes(env, sigs, key, None, g, gs, h, hs)
  {
    FirstOwner(env, sigs, key, None, g, gs, h, hs);
    FirstOwner(env, sigs, key, None, h, hs, g, gs);
  }

  lemma CellCommutesExactly(env: Env, sigs: Signatures, key: Key, cell: Option<Metric>, g: string, gs: Operations,
                            h: string, hs: Operations)
    requires CellTyped(sigs, key, cell) && g != h
    ensures KeyGroup(env, sigs, h, key, KeyGroup(env, sigs, g, key, cell, gs), hs)
         == KeyGroup(env, sigs, g, key, KeyGroup(env, sigs, h, key, cell, hs), gs)
       <==> Commutes(env, sigs, key, cell, g, gs, h, hs)
  {
    if cell == None {
      NewCell(env, sigs, key, g, gs, h, hs);
    } else if OwnedBy(cell, g) {
      OwnCell(env, sigs, key, cell, g, gs, h, hs);
    } else if OwnedBy(cell, h) {
      OwnCell(env, sigs, key, cell, h, hs, g, gs);
      CommutesEitherWay(env, sigs, key, cell, g, gs, h, hs);
    } else {
      ThirdOwner(env, sigs, key, cell, g, gs, h, hs);
    }
  }

  /** When each metric name has one signature, the two orders of two groups give the same vault, exactly
      when the order does not matter for any cell. */
  lemma PairOrderIrrelevantExactly(env: Env, sigs: Signatures, view: View, grouped: Grouped, g: string, h: string)
    requires g in grouped && h in grouped && g != h
    requires OneSignature(env, sigs, view, grouped) && WellTyped(view)
    ensures ApplyAll(env, view, grouped, [g, h]) == ApplyAll(env, view, grouped, [h, g])
       <==> forall key :: Commutes(env, sigs, key, CellOf(view, key), g, grouped[g], h, grouped[h])
  {
    var a, b := ApplyAll(env, view, grouped, [g, h]), ApplyAll(env, view, grouped, [h, g]);
    forall key
      ensures Fits(a, sigs) && Fits(b, sigs)
      ensures CellOf(a, key) == CellOf(b, key) <==>
          Commutes(env, sigs, key, CellOf(view, key), g, grouped[g], h, grouped[h])
    {
      InOrder(env, sigs, view, grouped, g, h, key);
      InOrder(env, sigs, view, grouped, h, g, key);
      CellCommutesExactly(env, sigs, key, CellOf(view, key), g, grouped[g], h, grouped[h]);
    }
    forall name ensures name in a <==> name in b {
      AllNames(env, view, grouped, [g, h], name);
      AllNames(env, view, grouped, [h, g], name);
    }
    if forall key :: Commutes(env, sigs, key, CellOf(view, key), g, grouped[g], h, grouped[h]) {
      assert Fits(a, sigs) && Fits(b, sigs) by {
        assert CellOf(a, Key("", 0)) == CellOf(a, Key("", 0));
      }
      SameView(a, b, sigs);
    }
  }

  // ---------- Any number of groups, exactly ----------

  /** One cell under all groups. */
  function KeyAll(env: Env, sigs: Signatures, key: Key, cell: Option<Metric>, grouped: Grouped,
                  order: seq<string>): Option<Metric>
    requires forall group :: group in order ==> group in grouped
  {
    if order == [] then cell
    else
      var last := order[|order| - 1];
      KeyGroup(env, sigs, last, key, KeyAll(env, sigs, key, cell, grouped, order[..|order| - 1]), grouped[last])
  }

  lemma KeyAllSnoc(env: Env, sigs: Signatures, key: Key, cell: Option<Metric>, grouped: Grouped, order: seq<string>,
                   last: string)
    requires (forall group :: group in order ==> group in grouped) && last in grouped
    ensures KeyAll(env, sigs, key, cell, grouped, order + [last])
         == KeyGroup(env, sigs, last, key, KeyAll(env, sigs, key, cell, grouped, order), grouped[last])
  {
    assert (order + [last])[..|order|] == order;
  }

  lemma {:induction false} CellsAt(env: Env, sigs: Signatures, view: View, grouped: Grouped, order: seq<string>,
                                   key: Key)
    requires forall group :: group in order ==> group in grouped
    requires OneSignature(env, sigs, view, grouped)
    ensures CellOf(ApplyAll(env, view, grouped, order), key)
         == KeyAll(env, sigs, key, CellOf(view, key), grouped, order)
  {
    hide ApplyGroup, KeyGroup, CellOf, OneSignature, Fits;
    if order != [] {
      var before, last := order[..|order| - 1], order[|order| - 1];
      CellsAt(env, sigs, view, grouped, before, key);
      AllFit(env, sigs, view, grouped, order);
      GroupAt(env, sigs, last, ApplyAll(env, view, grouped, before), grouped[last], key);
    }
  }

  /** The owner of a cell keeps it, until its own turn. */
  lemma {:induction false} OwnerStays(env: Env, sigs: Signatures, key: Key, cell: Option<Metric>, grouped: Grouped,
                                      order: seq<string>)
    requires forall group :: group in order ==> group in grouped
    requires CellTyped(sigs, key, cell) && cell.Some? && cell.value.group !in order
    ensures var r := KeyAll(env, sigs, key, cell, grouped, order);
      CellTyped(sigs, key, r) && OwnedBy(r, cell.value.group)
  {
    hide KeyGroup, Touches, Total, LastLevel, FirstHit;
    if order != [] {
      var before, last := order[..|order| - 1], order[|order| - 1];
      OwnerStays(env, sigs, key, cell, grouped, before);
      GroupEffect(env, sigs, last, key, KeyAll(env, sigs, key, cell, grouped, before), grouped[last]);
    }
  }

  /** What a group leaves in a new cell. */
  function Left(env: Env, sigs: Signatures, key: Key, group: string, ops: Operations): Option<Metric> {
    KeyGroup(env, sigs, group, key, None, ops)
  }

  lemma LeftIsKept(env: Env, sigs: Signatures, key: Key, group: string, ops: Operations)
    ensures Left(env, sigs, key, group, ops).Some? <==> Keeps(env, sigs, key, ops)
    ensures Keeps(env, sigs, key, ops) ==> OwnedBy(Left(env, sigs, key, group, ops), group)
    ensures CellTyped(sigs, key, Left(env, sigs, key, group, ops))
  {
    hide KeyGroup, Touches, Total, LastLevel, FirstHit;
    GroupEffect(env, sigs, group, key, None, ops);
  }

  /** A new cell to which no group so far has left anything. */
  lemma {:induction false} StaysNew(env: Env, sigs: Signatures, key: Key, grouped: Grouped, order: seq<string>)
    requires forall group :: group in order ==> group in grouped
    requires forall group :: group in order ==> !Keeps(env, sigs, key, grouped[group])
    ensures KeyAll(env, sigs, key, None, grouped, order) == None
  {
    hide KeyGroup, Keeps, CellTyped;
    if order != [] {
      var before, last := order[..|order| - 1], order[|order| - 1];
      StaysNew(env, sigs, key, grouped, before);
      LeftIsKept(env, sigs, key, last, grouped[last]);
    }
  }

  /** Only the orders of the cell's owner with the other groups count, when the owner is in the batch. */
  predicate Decides(cell: Option<Metric>, grouped: Grouped, g: string) {
    cell.Some? && cell.value.group in grouped ==> g == cell.value.group
  }

  /** The order of the groups does not matter for a cell: the order of every pair which decides does not. */
  ghost predicate AllCommute(env: Env, sigs: Signatures, key: Key, cell: Option<Metric>, grouped: Grouped) {
    forall g, h :: g in grouped && h in grouped && g != h && Decides(cell, grouped, g) ==>
      Commutes(env, sigs, key, cell, g, grouped[g], h, grouped[h])
  }

  /** No group changes what the owner `w` leaves, or has left. */
  lemma {:induction false} RestsAt(env: Env, sigs: Signatures, key: Key, w: string, cell: Option<Metric>,
                                   grouped: Grouped, order: seq<string>)
    requires (forall group :: group in order ==> group in grouped) && w in grouped && w !in order
    requires cell == Left(env, sigs, key, w, grouped[w]) && cell.Some?
    requires forall h :: h in order ==> LeavesKept(env, sigs, key, grouped[w], grouped[h])
    ensures KeyAll(env, sigs, key, cell, grouped, order) == cell
  {
    hide Touches, Total, LastLevel, FirstHit, CellTyped, LeavesKept, Keeps;
    if order != [] {
      var before, last := order[..|order| - 1], order[|order| - 1];
      RestsAt(env, sigs, key, w, cell, grouped, before);
      FirstOwner(env, sigs, key, None, w, grouped[w], last, grouped[last]);
    }
  }

  lemma {:induction false} KeyAllAppend(env: Env, sigs: Signatures, key: Key, cell: Option<Metric>, grouped: Grouped,
                                        a: seq<string>, b: seq<string>)
    requires forall group :: group in a || group in b ==> group in grouped
    ensures KeyAll(env, sigs, key, cell, grouped, a + b)
         == KeyAll(env, sigs, key, KeyAll(env, sigs, key, cell, grouped, a), grouped, b)
  {
    hide KeyGroup;
    if b == [] {
      assert a + b == a;
    } else {
      var before, last := b[..|b| - 1], b[|b| - 1];
      KeyAllAppend(env, sigs, key, cell, grouped, a, before);
      assert a + b == (a + before) + [last];
      KeyAllSnoc(env, sigs, key, cell, grouped, a + before, last);
    }
  }

  lemma InOrderOf(order: seq<string>, groups: set<string>)
    requires IsOrderOf(order, groups)
    ensures forall group :: group in order <==> group in groups
  {
  }

  lemma SplitAt(order: seq<string>, groups: set<string>, w: string) returns (before: seq<string>, after: seq<string>)
    requires IsOrderOf(order, groups) && w in groups
    ensures order == (before + [w]) + after && w !in before && w !in after
    ensures forall group :: group in before || group in after ==> group in groups
  {
    var i :| 0 <= i < |order| && order[i] == w;
    before, after := order[..i], order[i + 1..];
    assert order == (before + [w]) + after;
    forall group | group in before || group in after ensures group in order {}
  }

  /** When it is the turn of a cell's owner, or of the first to keep a new cell. */
  lemma OwnTurn(env: Env, sigs: Signatures, key: Key, w: string, cell: Option<Metric>, grouped: Grouped,
                before: seq<string>, after: seq<string>)
    requires w in grouped && w !in after && forall group :: group in before || group in after ==> group in grouped
    requires !Foreign(KeyAll(env, sigs, key, cell, grouped, before), w)
    requires CellTyped(sigs, key, KeyAll(env, sigs, key, cell, grouped, before))
    requires forall h :: h in after ==> LeavesKept(env, sigs, key, grouped[w], grouped[h])
    requires forall h :: h in after && Keeps(env, sigs, key, grouped[h]) ==> Keeps(env, sigs, key, grouped[w])
    ensures KeyAll(env, sigs, key, cell, grouped, (before + [w]) + after) == Left(env, sigs, key, w, grouped[w])
  {
    hide Touches, Total, LastLevel, FirstHit, LeavesKept, Keeps, CellTyped, KeyAll, KeyGroup;
    var left := Left(env, sigs, key, w, grouped[w]);
    KeyAllSnoc(env, sigs, key, cell, grouped, before, w);
    GroupEffect(env, sigs, w, key, KeyAll(env, sigs, key, cell, grouped, before), grouped[w]);
    KeyAllAppend(env, sigs, key, cell, grouped, before + [w], after);
    LeftIsKept(env, sigs, key, w, grouped[w]);
    if left.Some? {
      RestsAt(env, sigs, key, w, left, grouped, after);
    } else {
      StaysNew(env, sigs, key, grouped, after);
    }
  }

  /** A cell of a group of the batch: what the owner leaves. */
  lemma OwnerDecides(env: Env, sigs: Signatures, key: Key, cell: Option<Metric>, grouped: Grouped, order: seq<string>)
    requires IsOrderOf(order, grouped.Keys)
    requires CellTyped(sigs, key, cell) && cell.Some? && cell.value.group in grouped
    requires AllCommute(env, sigs, key, cell, grouped)
    ensures KeyAll(env, sigs, key, cell, grouped, order)
         == Left(env, sigs, key, cell.value.group, grouped[cell.value.group])
  {
    hide IsOrderOf, CellTyped, KeyAll, KeyGroup, LeavesKept, Keeps;
    var w := cell.value.group;
    var before, after := SplitAt(order, grouped.Keys, w);
    OwnerStays(env, sigs, key, cell, grouped, before);
    forall h | h in after ensures Commutes(env, sigs, key, cell, w, grouped[w], h, grouped[h]) {}
    OwnTurn(env, sigs, key, w, cell, grouped, before, after);
  }

  /** A new cell: what the only group which keeps it leaves. */
  lemma KeeperDecides(env: Env, sigs: Signatures, key: Key, grouped: Grouped, order: seq<string>, k: string)
    requires IsOrderOf(order, grouped.Keys) && k in grouped && Keeps(env, sigs, key, grouped[k])
    requires AllCommute(env, sigs, key, None, grouped)
    ensures KeyAll(env, sigs, key, None, grouped, order) == Left(env, sigs, key, k, grouped[k])
  {
    hide IsOrderOf, KeyAll, KeyGroup, LeavesKept, Keeps;
    var before, after := SplitAt(order, grouped.Keys, k);
    forall h | h in before || h in after ensures Commutes(env, sigs, key, None, k, grouped[k], h, grouped[h]) {}
    StaysNew(env, sigs, key, grouped, before);
    OwnTurn(env, sigs, key, k, None, grouped, before, after);
  }

  /** A cell of a third group: each group commutes with all that follow it. */
  lemma {:induction false} MovesToEnd(env: Env, sigs: Signatures, key: Key, cell: Option<Metric>, grouped: Grouped,
                                      x: string, rest: seq<string>)
    requires (forall group :: group in rest ==> group in grouped) && x in grouped && x !in rest
    requires CellTyped(sigs, key, cell) && cell.Some? && cell.value.group !in grouped
    requires AllCommute(env, sigs, key, cell, grouped)
    ensures KeyAll(env, sigs, key, cell, grouped, [x] + rest) == KeyAll(env, sigs, key, cell, grouped, rest + [x])
  {
    hide KeyGroup, CellTyped, Touches, Total, LastLevel, FirstHit, LeavesKept, Keeps;
    if rest == [] {
      assert [x] + rest == rest + [x];
    } else {
      var before, y := rest[..|rest| - 1], rest[|rest| - 1];
      MovesToEnd(env, sigs, key, cell, grouped, x, before);
      assert [x] + rest == ([x] + before) + [y];
      KeyAllSnoc(env, sigs, key, cell, grouped, [x] + before, y);
      KeyAllSnoc(env, sigs, key, cell, grouped, before, x);
      KeyAllSnoc(env, sigs, key, cell, grouped, rest, x);
      var c := KeyAll(env, sigs, key, cell, grouped, before);
      OwnerStays(env, sigs, key, cell, grouped, before);
      assert Commutes(env, sigs, key, cell, x, grouped[x], y, grouped[y]);
      CellCommutesExactly(env, sigs, key, c, x, grouped[x], y, grouped[y]);
    }
  }

  lemma WithoutOne(before: seq<string>, x: string, after: seq<string>, groups: set<string>)
    requires IsOrderOf((before + [x]) + after, groups)
    ensures IsOrderOf(before + after, groups - {x})
  {
    var order := (before + [x]) + after;
    assert order[|before|] == x;
    forall i | 0 <= i < |before + after|
      ensures (before + after)[i] == order[if i < |before| then i else i + 1]
    {
    }
    forall group ensures group in before + after <==> group in order && group != x {
      if group in order && group != x {
        var i :| 0 <= i < |order| && order[i] == group;
        assert group == (before + after)[if i < |before| then i else i - 1];
      }
    }
  }

  lemma HeadIsIn(a: seq<string>)
    ensures a == [] || a[0] in a
  {
  }

  lemma {:induction false} ThirdOwnerAgrees(env: Env, sigs: Signatures, key: Key, cell: Option<Metric>,
                                            grouped: Grouped, groups: set<string>, a: seq<string>, b: seq<string>)
    requires IsOrderOf(a, groups) && IsOrderOf(b, groups) && groups <= grouped.Keys
    requires CellTyped(sigs, key, cell) && cell.Some? && cell.value.group !in grouped
    requires AllCommute(env, sigs, key, cell, grouped)
    ensures KeyAll(env, sigs, key, cell, grouped, a) == KeyAll(env, sigs, key, cell, grouped, b)
    decreases |b|
  {
    hide KeyGroup, CellTyped, AllCommute, KeyAll, IsOrderOf;
    InOrderOf(a, groups);
    InOrderOf(b, groups);
    if b == [] {
      HeadIsIn(a);
      assert a == [];
    } else {
      var rest, x := b[..|b| - 1], b[|b| - 1];
      assert b == rest + [x] == (rest + [x]) + [] && rest + [] == rest;
      var before, after := SplitAt(a, groups, x);
      WithoutOne(before, x, after, groups);
      WithoutOne(rest, x, [], groups);
      assert a == before + ([x] + after);
      TakeToEnd(env, sigs, key, cell, grouped, before, x, after);
      ThirdOwnerAgrees(env, sigs, key, cell, grouped, groups - {x}, before + after, rest);
      KeyAllSnoc(env, sigs, key, cell, grouped, rest, x);
    }
  }

  lemma TakeToEnd(env: Env, sigs: Signatures, key: Key, cell: Option<Metric>, grouped: Grouped, before: seq<string>,
                  x: string, after: seq<string>)
    requires x in grouped && x !in after && forall group :: group in before || group in after ==> group in grouped
    requires CellTyped(sigs, key, cell) && cell.Some? && cell.value.group !in grouped
    requires AllCommute(env, sigs, key, cell, grouped)
    ensures KeyAll(env, sigs, key, cell, grouped, before + ([x] + after))
         == KeyGroup(env, sigs, x, key, KeyAll(env, sigs, key, cell, grouped, before + after), grouped[x])
  {
    hide KeyGroup, CellTyped, AllCommute, KeyAll;
    var c := KeyAll(env, sigs, key, cell, grouped, before);
    OwnerStays(env, sigs, key, cell, grouped, before);
    SameOwnerCommutes(env, sigs, key, cell, c, grouped);
    MovesToEnd(env, sigs, key, c, grouped, x, after);
    KeyAllAppend(env, sigs, key, cell, grouped, before, [x] + after);
    KeyAllAppend(env, sigs, key, cell, grouped, before, after);
    KeyAllSnoc(env, sigs, key, c, grouped, after, x);
  }

  /** The condition only depends on who owns the cell. */
  lemma SameOwnerCommutes(env: Env, sigs: Signatures, key: Key, a: Option<Metric>, b: Option<Metric>, grouped: Grouped)
    requires a.Some? && b.Some? && a.value.group == b.value.group
    requires AllCommute(env, sigs, key, a, grouped)
    ensures AllCommute(env, sigs, key, b, grouped)
  {
    hide Touches, LastLevel, LeavesKept, Keeps;
    forall g, h | g in grouped && h in grouped && g != h && Decides(b, grouped, g)
      ensures Commutes(env, sigs, key, b, g, grouped[g], h, grouped[h])
    {
      assert Commutes(env, sigs, key, a, g, grouped[g], h, grouped[h]);
    }
  }

  /** Where all deciding pairs commute, any two orders of the groups agree on the cell. */
  lemma CellAgrees(env: Env, sigs: Signatures, key: Key, cell: Option<Metric>, grouped: Grouped, a: seq<string>,
                   b: seq<string>)
    requires CellTyped(sigs, key, cell) && AllCommute(env, sigs, key, cell, grouped)
    requires IsOrderOf(a, grouped.Keys) && IsOrderOf(b, grouped.Keys)
    ensures KeyAll(env, sigs, key, cell, grouped, a) == KeyAll(env, sigs, key, cell, grouped, b)
  {
    hide KeyAll, AllCommute, CellTyped;
    if cell.Some? && cell.value.group in grouped {
      OwnerDecides(env, sigs, key, cell, grouped, a);
      OwnerDecides(env, sigs, key, cell, grouped, b);
    } else if cell.Some? {
      ThirdOwnerAgrees(env, sigs, key, cell, grouped, grouped.Keys, a, b);
    } else if k :| k in grouped && Keeps(env, sigs, key, grouped[k]) {
      KeeperDecides(env, sigs, key, grouped, a, k);
      KeeperDecides(env, sigs, key, grouped, b, k);
    } else {
      StaysNew(env, sigs, key, grouped, a);
      StaysNew(env, sigs, key, grouped, b);
    }
  }

  lemma SomeOrder(groups: set<string>) returns (order: seq<string>)
    ensures IsOrderOf(order, groups)
    decreases |groups|
  {
    if groups == {} {
      order := [];
    } else {
      var group :| group in groups;
      var before := SomeOrder(groups - {group});
      order := before + [group];
    }
  }

  /** All groups, with two of them first, or last. */
  lemma Around(groups: set<string>, g: string, h: string, rest: seq<string>)
    requires g in groups && h in groups && g != h && IsOrderOf(rest, groups - {g, h})
    ensures IsOrderOf([g, h] + rest, groups) && IsOrderOf(rest + [g, h], groups)
  {
  }

  /** Whoever first keeps a new cell owns it in the end. */
  lemma FirstKeeperOwns(env: Env, sigs: Signatures, key: Key, grouped: Grouped, g: string, rest: seq<string>)
    requires g in grouped && g !in rest && forall group :: group in rest ==> group in grouped
    requires Keeps(env, sigs, key, grouped[g])
    ensures OwnedBy(KeyAll(env, sigs, key, None, grouped, [g] + rest), g)
  {
    hide Keeps, CellTyped, KeyGroup, Commutes;
    KeyAllSnoc(env, sigs, key, None, grouped, [], g);
    KeyAllAppend(env, sigs, key, None, grouped, [g], rest);
    assert [] + [g] == [g];
    LeftIsKept(env, sigs, key, g, grouped[g]);
    OwnerStays(env, sigs, key, Left(env, sigs, key, g, grouped[g]), grouped, rest);
  }

  lemma TwoLast(env: Env, sigs: Signatures, key: Key, cell: Option<Metric>, grouped: Grouped, rest: seq<string>,
                g: string, h: string)
    requires (forall group :: group in rest ==> group in grouped) && g in grouped && h in grouped
    ensures KeyAll(env, sigs, key, cell, grouped, rest + [g, h])
         == KeyGroup(env, sigs, h, key,
                     KeyGroup(env, sigs, g, key, KeyAll(env, sigs, key, cell, grouped, rest), grouped[g]), grouped[h])
  {
    hide KeyGroup;
    assert rest + [g, h] == (rest + [g]) + [h];
    KeyAllSnoc(env, sigs, key, cell, grouped, rest, g);
    KeyAllSnoc(env, sigs, key, cell, grouped, rest + [g], h);
  }

  /** Two orders which tell the difference. */
  ghost predicate Tell(env: Env, sigs: Signatures, key: Key, cell: Option<Metric>, grouped: Grouped, a: seq<string>,
                       b: seq<string>) {
    && IsOrderOf(a, grouped.Keys) && IsOrderOf(b, grouped.Keys)
    && KeyAll(env, sigs, key, cell, grouped, a) != KeyAll(env, sigs, key, cell, grouped, b)
  }

  lemma OwnedPairTells(env: Env, sigs: Signatures, key: Key, cell: Option<Metric>, grouped: Grouped, g: string,
                       h: string) returns (a: seq<string>, b: seq<string>)
    requires CellTyped(sigs, key, cell) && cell.Some? && g in grouped && h in grouped && g != h
    requires Decides(cell, grouped, g) && !Commutes(env, sigs, key, cell, g, grouped[g], h, grouped[h])
    ensures Tell(env, sigs, key, cell, grouped, a, b)
  {
    hide CellTyped, KeyGroup, KeyAll, Keeps, LeavesKept, Touches;
    var rest := SomeOrder(grouped.Keys - {g, h});
    a, b := rest + [g, h], rest + [h, g];
    Around(grouped.Keys, g, h, rest);
    Around(grouped.Keys, h, g, rest);
    OwnerStays(env, sigs, key, cell, grouped, rest);
    var c := KeyAll(env, sigs, key, cell, grouped, rest);
    CellCommutesExactly(env, sigs, key, c, g, grouped[g], h, grouped[h]);
    TwoLast(env, sigs, key, cell, grouped, rest, g, h);
    TwoLast(env, sigs, key, cell, grouped, rest, h, g);
  }

  lemma KeepersTell(env: Env, sigs: Signatures, key: Key, grouped: Grouped, g: string, h: string)
    returns (a: seq<string>, b: seq<string>)
    requires g in grouped && h in grouped && g != h
    requires Keeps(env, sigs, key, grouped[g]) && Keeps(env, sigs, key, grouped[h])
    ensures Tell(env, sigs, key, None, grouped, a, b)
  {
    hide KeyAll, Keeps, IsOrderOf;
    var rest := SomeOrder(grouped.Keys - {g, h});
    InOrderOf(rest, grouped.Keys - {g, h});
    a, b := [g, h] + rest, [h, g] + rest;
    assert grouped.Keys - {g, h} == grouped.Keys - {h, g};
    Around(grouped.Keys, g, h, rest);
    Around(grouped.Keys, h, g, rest);
    assert [g, h] + rest == [g] + ([h] + rest) && [h, g] + rest == [h] + ([g] + rest);
    FirstKeeperOwns(env, sigs, key, grouped, g, [h] + rest);
    FirstKeeperOwns(env, sigs, key, grouped, h, [g] + rest);
  }

  lemma NewPairTells(env: Env, sigs: Signatures, key: Key, grouped: Grouped, g: string, h: string)
    returns (a: seq<string>, b: seq<string>)
    requires g in grouped && h in grouped && g != h
    requires !Commutes(env, sigs, key, None, g, grouped[g], h, grouped[h])
    ensures Tell(env, sigs, key, None, grouped, a, b)
  {
    hide KeyGroup, KeyAll;
    if k, l :| k in grouped && l in grouped && k != l && Keeps(env, sigs, key, grouped[k])
               && Keeps(env, sigs, key, grouped[l]) {
      a, b := KeepersTell(env, sigs, key, grouped, k, l);
    } else {
      var rest := SomeOrder(grouped.Keys - {g, h});
      a, b := rest + [g, h], rest + [h, g];
      Around(grouped.Keys, g, h, rest);
      Around(grouped.Keys, h, g, rest);
      assert Keeps(env, sigs, key, grouped[g]) || Keeps(env, sigs, key, grouped[h]);
      StaysNew(env, sigs, key, grouped, rest);
      CellCommutesExactly(env, sigs, key, None, g, grouped[g], h, grouped[h]);
      TwoLast(env, sigs, key, None, grouped, rest, g, h);
      TwoLast(env, sigs, key, None, grouped, rest, h, g);
    }
  }

  /** The walk over the groups ends in one vault. */
  ghost predicate OneResult(env: Env, view: View, grouped: Grouped) {
    forall a, b :: IsOrderOf(a, grouped.Keys) && IsOrderOf(b, grouped.Keys) ==>
      ApplyAll(env, view, grouped, a) == ApplyAll(env, view, grouped, b)
  }

  ghost predicate CellsCommute(env: Env, sigs: Signatures, view: View, grouped: Grouped) {
    forall key :: AllCommute(env, sigs, key, CellOf(view, key), grouped)
  }

  lemma TypedCell(sigs: Signatures, view: View, key: Key)
    requires Fits(view, sigs) && WellTyped(view)
    ensures CellTyped(sigs, key, CellOf(view, key))
  {
  }

  lemma CommutingAgrees(env: Env, sigs: Signatures, view: View, grouped: Grouped, a: seq<string>, b: seq<string>)
    requires OneSignature(env, sigs, view, grouped) && WellTyped(view) && CellsCommute(env, sigs, view, grouped)
    requires IsOrderOf(a, grouped.Keys) && IsOrderOf(b, grouped.Keys)
    ensures ApplyAll(env, view, grouped, a) == ApplyAll(env, view, grouped, b)
  {
    hide AllCommute, KeyAll, ApplyAll, CellTyped, CellOf, WellTyped;
    AllFit(env, sigs, view, grouped, a);
    AllFit(env, sigs, view, grouped, b);
    forall key ensures CellOf(ApplyAll(env, view, grouped, a), key) == CellOf(ApplyAll(env, view, grouped, b), key) {
      CellsAt(env, sigs, view, grouped, a, key);
      CellsAt(env, sigs, view, grouped, b, key);
      TypedCell(sigs, view, key);
      CellAgrees(env, sigs, key, CellOf(view, key), grouped, a, b);
    }
    forall name ensures name in ApplyAll(env, view, grouped, a) <==> name in ApplyAll(env, view, grouped, b) {
      AllNames(env, view, grouped, a, name);
      AllNames(env, view, grouped, b, name);
    }
    SameView(ApplyAll(env, view, grouped, a), ApplyAll(env, view, grouped, b), sigs);
  }

  /** Where one of them does not, two orders of the groups end in different vaults. */
  lemma PairTells(env: Env, sigs: Signatures, view: View, grouped: Grouped, key: Key, g: string, h: string)
    requires OneSignature(env, sigs, view, grouped) && WellTyped(view) && g in grouped && h in grouped && g != h
    requires Decides(CellOf(view, key), grouped, g)
    requires !Commutes(env, sigs, key, CellOf(view, key), g, grouped[g], h, grouped[h])
    ensures !OneResult(env, view, grouped)
  {
    hide Commutes, KeyAll, ApplyAll, CellTyped, CellOf, WellTyped, IsOrderOf;
    var cell := CellOf(view, key);
    TypedCell(sigs, view, key);
    var a, b;
    if cell.Some? {
      a, b := OwnedPairTells(env, sigs, key, cell, grouped, g, h);
    } else {
      a, b := NewPairTells(env, sigs, key, grouped, g, h);
    }
    InOrderOf(a, grouped.Keys);
    InOrderOf(b, grouped.Keys);
    CellsAt(env, sigs, view, grouped, a, key);
    CellsAt(env, sigs, view, grouped, b, key);
  }

  /** The collector of a new name is the one which the first group to write it creates. */
  lemma {:induction false} SignatureStays(env: Env, view: View, grouped: Grouped, first: string, rest: seq<string>,
                                          name: string)
    requires first in grouped && forall group :: group in rest ==> group in grouped
    ensures var after := ApplyAll(env, view, grouped, [first] + rest);
      && (name in view ==> name in after && after[name].signature == view[name].signature)
      && (name !in view && Writes(grouped[first], name) ==>
            name in after && after[name].signature == Created(env, grouped[first], name))
  {
    hide ApplyOps, Writes, Created;
    if rest == [] {
      OneMore(env, view, grouped, [], first);
      assert [] + [first] == [first] == [first] + rest;
      SignatureAfter(env, first, Expire(view, first), grouped[first], name);
    } else {
      var before, last := rest[..|rest| - 1], rest[|rest| - 1];
      SignatureStays(env, view, grouped, first, before, name);
      assert [first] + rest == ([first] + before) + [last];
      OneMore(env, view, grouped, [first] + before, last);
      var middle := ApplyAll(env, view, grouped, [first] + before);
      SignatureAfter(env, last, Expire(middle, last), grouped[last], name);
    }
  }

  /** An order which starts with this group. */
  lemma StartingWith(groups: set<string>, first: string) returns (rest: seq<string>)
    requires first in groups
    ensures IsOrderOf([first] + rest, groups)
    ensures forall group :: group in rest ==> group in groups
  {
    rest := SomeOrder(groups - {first});
  }

  /** Two groups which would create a new collector differently: the one that comes first in fact does. */
  lemma SecondSignatureTells(env: Env, view: View, grouped: Grouped, g: string, h: string, name: string)
    requires g in grouped && h in grouped && name !in view
    requires Writes(grouped[g], name) && Writes(grouped[h], name)
    requires Created(env, grouped[g], name) != Created(env, grouped[h], name)
    ensures !OneResult(env, view, grouped)
  {
    hide ApplyAll, IsOrderOf, Writes, Created;
    var gs := StartingWith(grouped.Keys, g);
    var hs := StartingWith(grouped.Keys, h);
    SignatureStays(env, view, grouped, g, gs, name);
    SignatureStays(env, view, grouped, h, hs, name);
  }

  lemma FinalSignatures(env: Env, view: View, grouped: Grouped) returns (sigs: Signatures)
    requires OneResult(env, view, grouped)
    ensures OneSignature(env, sigs, view, grouped)
  {
    hide ApplyAll, IsOrderOf, Writes, Created;
    if grouped.Keys == {} {
      sigs := SignaturesOf(view);
    } else {
      var g :| g in grouped.Keys;
      var rest := StartingWith(grouped.Keys, g);
      var result := ApplyAll(env, view, grouped, [g] + rest);
      sigs := SignaturesOf(result);
      forall name | name in view ensures name in sigs && sigs[name] == view[name].signature {
        SignatureStays(env, view, grouped, g, rest, name);
      }
      forall group, name | group in grouped && name !in view && Writes(grouped[group], name)
        ensures name in sigs && sigs[name] == Created(env, grouped[group], name)
      {
        var others := StartingWith(grouped.Keys, group);
        SignatureStays(env, view, grouped, group, others, name);
        assert ApplyAll(env, view, grouped, [group] + others) == result;
      }
    }
  }

  /** The walk over any number of groups ends in one vault, whatever the order, exactly when each new name
      gets one signature and the order does not matter for any cell. */
  lemma OneResultExactly(env: Env, view: View, grouped: Grouped)
    requires WellTyped(view)
    ensures OneResult(env, view, grouped)
       <==> exists sigs :: OneSignature(env, sigs, view, grouped) && CellsCommute(env, sigs, view, grouped)
  {
    hide ApplyAll, Commutes, OneSignature, WellTyped, CellOf;
    if OneResult(env, view, grouped) {
      var sigs := FinalSignatures(env, view, grouped);
      forall key, g, h | g in grouped && h in grouped && g != h && Decides(CellOf(view, key), grouped, g)
        ensures Commutes(env, sigs, key, CellOf(view, key), g, grouped[g], h, grouped[h])
      {
        if !Commutes(env, sigs, key, CellOf(view, key), g, grouped[g], h, grouped[h]) {
          PairTells(env, sigs, view, grouped, key, g, h);
        }
      }
      assert CellsCommute(env, sigs, view, grouped);
    }
    if sigs :| OneSignature(env, sigs, view, grouped) && CellsCommute(env, sigs, view, grouped) {
      forall a, b | IsOrderOf(a, grouped.Keys) && IsOrderOf(b, grouped.Keys)
        ensures ApplyAll(env, view, grouped, a) == ApplyAll(env, view, grouped, b)
      {
        CommutingAgrees(env, sigs, view, grouped, a, b);
      }
    }
  }
}
