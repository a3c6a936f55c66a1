/**
 Binding contexts and the two independent implementations of group compaction:
 the look-ahead loop run before a hook is executed, and the overwrite-in-place
 loop of the hook testing library. Both are proved equal to `Compact`, and
 `Compact` is proved to keep exactly the last context of every maximal run.
 */
module BindingContexts {
  import opened Sequences

  datatype BindingType = NoBindingType | OnStartup | Schedule | OnKubernetesEvent

  datatype KubeEventType = NoKubeEvent | Synchronization | Event

  datatype BindingContext = BindingContext(
    binding: string,
    bindingType: BindingType,
    kubeType: KubeEventType,
    group: string,
    objects: seq<string>)

  /** Neighbours of one non-empty group: the first of the two is dropped. */
  predicate SameGroup(a: BindingContext, b: BindingContext) {
    a.group != "" && b.group == a.group
  }

  function Compact(xs: seq<BindingContext>): (r: seq<BindingContext>)
  {
    if xs == [] then []
    else if |xs| > 1 && SameGroup(xs[0], xs[1]) then Compact(xs[1..])
    else [xs[0]] + Compact(xs[1..])
  }

  // ---------- Algebra of compaction ----------

  lemma {:induction false} CompactEnds(xs: seq<BindingContext>)
    requires xs != []
    ensures Compact(xs) != []
    ensures Compact(xs)[0].group == xs[0].group
    ensures Compact(xs)[|Compact(xs)| - 1] == xs[|xs| - 1]
  {
    if |xs| > 1 {
      CompactEnds(xs[1..]);
    }
  }

  /** Contexts compacted early and compacted again later lose nothing:
      this is what makes absorbing new tasks on every retry sound. */
  lemma {:induction false} CompactAbsorb(xs: seq<BindingContext>, ys: seq<BindingContext>)
    ensures Compact(Compact(xs) + ys) == Compact(xs + ys)
  {
    if xs == [] {
      assert Compact(xs) + ys == xs + ys;
    } else if |xs| == 1 {
      assert Compact(xs) == xs;
    } else {
      var c := Compact(xs[1..]);
      CompactEnds(xs[1..]);
      CompactAbsorb(xs[1..], ys);
      assert (xs + ys)[1..] == xs[1..] + ys;
      if !SameGroup(xs[0], xs[1]) {
        var whole := [xs[0]] + c + ys;
        assert Compact(xs) + ys == whole;
        assert whole[0] == xs[0] && whole[1] == c[0] && whole[1..] == c + ys;
      }
    }
  }

  /** The rule followed by the overwrite-in-place loop. */
  lemma {:induction false} CompactSnoc(xs: seq<BindingContext>, y: BindingContext)
    ensures xs == [] ==> Compact(xs + [y]) == [y]
    ensures xs != [] ==> Compact(xs) != []
    ensures xs != [] && SameGroup(xs[|xs| - 1], y) ==>
      Compact(xs + [y]) == Compact(xs)[..|Compact(xs)| - 1] + [y]
    ensures xs != [] && !SameGroup(xs[|xs| - 1], y) ==> Compact(xs + [y]) == Compact(xs) + [y]
  {
    if xs == [] {
      assert xs + [y] == [y];
      assert Compact([y]) == [y] + Compact([]);
    } else {
      assert (xs + [y])[1..] == xs[1..] + [y];
      CompactEnds(xs);
      CompactSnoc(xs[1..], y);
      if |xs| == 1 {
        assert xs[1..] + [y] == [y];
        assert (xs + [y])[1] == y;
      } else {
        CompactEnds(xs[1..]);
        assert (xs + [y])[1] == xs[1];
      }
    }
  }

  /** No two neighbours left to merge. */
  predicate Compacted(xs: seq<BindingContext>) {
    forall i :: 0 <= i < |xs| - 1 ==> !SameGroup(xs[i], xs[i + 1])
  }

  lemma {:induction false} CompactFixpoint(xs: seq<BindingContext>)
    ensures Compacted(Compact(xs))
    ensures Compact(xs) == xs <==> Compacted(xs)
    ensures |Compact(xs)| <= |xs|
  {
    if |xs| > 1 {
      CompactFixpoint(xs[1..]);
      CompactEnds(xs[1..]);
      var c := Compact(xs[1..]);
      if SameGroup(xs[0], xs[1]) {
        assert |Compact(xs)| < |xs|;
      } else {
        assert Compact(xs) == [xs[0]] + c;
        forall i | 0 <= i < |Compact(xs)| - 1 ensures !SameGroup(Compact(xs)[i], Compact(xs)[i + 1]) {
          if i > 0 {
            assert Compact(xs)[i] == c[i - 1] && Compact(xs)[i + 1] == c[i];
          }
        }
        if Compacted(xs) {
          forall i | 0 <= i < |xs[1..]| - 1 ensures !SameGroup(xs[1..][i], xs[1..][i + 1]) {
            assert !SameGroup(xs[i + 1], xs[i + 2]);
          }
        }
        if Compact(xs) == xs {
          assert c == xs[1..];
        }
      }
    }
  }

  // ---------- Reference: the last context of every maximal run ----------

  /** One run: a lone ungrouped context, or neighbours that share one non-empty group. */
  predicate IsRun(run: seq<BindingContext>) {
    && run != []
    && (|run| > 1 ==> forall i :: 0 <= i < |run| ==> run[i].group == run[0].group && run[0].group != "")
  }

  /** `runs` cuts `xs` into maximal runs. */
  predicate CutsIntoRuns(runs: seq<seq<BindingContext>>, xs: seq<BindingContext>) {
    && Flatten(runs) == xs
    && (forall i :: 0 <= i < |runs| ==> IsRun(runs[i]))
    && (forall i :: 0 <= i < |runs| - 1 ==> !SameGroup(runs[i][0], runs[i + 1][0]))
  }

  function Lasts(runs: seq<seq<BindingContext>>): (r: seq<BindingContext>)
    requires forall i :: 0 <= i < |runs| ==> IsRun(runs[i])
  {
    if runs == [] then [] else assert IsRun(runs[0]); [runs[0][|runs[0]| - 1]] + Lasts(runs[1..])
  }

  lemma {:induction false} CompactOneRun(run: seq<BindingContext>, rest: seq<BindingContext>)
    requires IsRun(run)
    requires rest != [] ==> !SameGroup(run[0], rest[0])
    ensures Compact(run + rest) == [run[|run| - 1]] + Compact(rest)
    decreases |run|
  {
    var all := run + rest;
    assert all[1..] == run[1..] + rest;
    if |run| == 1 {
      assert run[1..] + rest == rest;
    } else {
      assert all[0] == run[0] && all[1] == run[1];
      CompactOneRun(run[1..], rest);
    }
  }

  /** However the contexts are cut into maximal runs, compaction keeps the last of each. */
  lemma {:induction false} CompactKeepsLastOfEachRun(runs: seq<seq<BindingContext>>, xs: seq<BindingContext>)
    requires CutsIntoRuns(runs, xs)
    ensures Compact(xs) == Lasts(runs)
    decreases |runs|
  {
    if runs != [] {
      var rest := Flatten(runs[1..]);
      CompactKeepsLastOfEachRun(runs[1..], rest);
      if |runs| > 1 {
        assert rest[0] == runs[1][0];
      }
      CompactOneRun(runs[0], rest);
    }
  }

  /** Such a cut always exists, so the lemma above speaks about every input. */
  lemma {:induction false} RunsExist(xs: seq<BindingContext>) returns (runs: seq<seq<BindingContext>>)
    ensures CutsIntoRuns(runs, xs)
  {
    if xs == [] {
      runs := [];
    } else {
      var rest := RunsExist(xs[1..]);
      if rest != [] && SameGroup(xs[0], rest[0][0]) {
        runs := [[xs[0]] + rest[0]] + rest[1..];
        assert runs[1..] == rest[1..];
        assert Flatten(runs) == [xs[0]] + (rest[0] + Flatten(rest[1..]));
      } else {
        runs := [[xs[0]]] + rest;
        assert runs[1..] == rest;
        assert Flatten(runs) == [xs[0]] + Flatten(rest);
      }
    }
  }

  /** Every Synchronization context stands before every Event context. */
  predicate SynchronizationFirst(xs: seq<BindingContext>) {
    forall i, j :: 0 <= i < j < |xs| && xs[i].kubeType == Event ==> xs[j].kubeType != Synchronization
  }

  /** Compaction drops contexts but never moves one. */
  lemma {:induction false} CompactKeepsOrder(xs: seq<BindingContext>)
    ensures forall c :: c in Compact(xs) ==> c in xs
    ensures SynchronizationFirst(xs) ==> SynchronizationFirst(Compact(xs))
  {
    if xs != [] {
      CompactKeepsOrder(xs[1..]);
      var c := Compact(xs[1..]);
      if SynchronizationFirst(xs) {
        assert forall i :: 0 <= i < |xs[1..]| ==> xs[1..][i] == xs[i + 1];
        assert SynchronizationFirst(xs[1..]);
        var r := Compact(xs);
        if r != c {
          forall i, j | 0 <= i < j < |r| && r[i].kubeType == Event ensures r[j].kubeType != Synchronization {
            assert r[j] == c[j - 1];
            if i == 0 {
              assert r[j] in xs[1..];
            } else {
              assert r[i] == c[i - 1];
            }
          }
        }
      }
    }
  }

  // ---------- The two loops ----------

  method CompactLookahead(combined: seq<BindingContext>) returns (compacted: seq<BindingContext>)
    ensures compacted == Compact(combined)
  {
    compacted := [];
    var i := 0;
    while i < |combined|
      invariant 0 <= i <= |combined|
      invariant compacted + Compact(combined[i..]) == Compact(combined)
    {
      var shouldSkip := false;
      var groupName := combined[i].group;
      if groupName != "" && i + 1 <= |combined| - 1 && combined[i + 1].group == groupName {
        shouldSkip := true;
      }
      assert combined[i..][1..] == combined[i + 1..];
      if !shouldSkip {
        compacted := compacted + [combined[i]];
      }
      i := i + 1;
    }
  }

  method CompactInPlace(contexts: seq<BindingContext>) returns (compacted: seq<BindingContext>)
    ensures compacted == Compact(contexts)
  {
    var lastGroup := "";
    var lastGroupIndex := 0;
    compacted := [];
    var i := 0;
    while i < |contexts|
      invariant 0 <= i <= |contexts|
      invariant compacted == Compact(contexts[..i])
      invariant lastGroup == if i == 0 then "" else contexts[i - 1].group
      invariant lastGroup != "" ==> |compacted| > 0 && lastGroupIndex == |compacted| - 1
    {
      var bc := contexts[i];
      assert contexts[..i + 1] == contexts[..i] + [bc];
      CompactSnoc(contexts[..i], bc);
      i := i + 1;
      if bc.group == "" {
        lastGroup := "";
        compacted := compacted + [bc];
      } else if lastGroup != bc.group {
        compacted := compacted + [bc];
        lastGroup := bc.group;
        lastGroupIndex := |compacted| - 1;
      } else {
        compacted := compacted[lastGroupIndex := bc];
      }
    }
    assert contexts[..i] == contexts;
  }
}
