/** Task values, and what combining does to a list of them. */
module Tasks {
  import opened Sequences
  import opened BindingContexts

  datatype TaskKind = HookRun | EnableKubernetesBindings | EnableScheduleBindings | OtherKind

  datatype HookMetadata = HookMetadata(
    hookName: string,
    binding: string,
    group: string,
    bindingType: BindingType,
    contexts: seq<BindingContext>,
    allowFailure: bool)

  datatype Task = Task(
    id: string,
    kind: TaskKind,
    queueName: string,
    meta: Option<HookMetadata>,
    failures: nat)

  function Contexts(t: Task): seq<BindingContext> {
    if t.meta.Some? then t.meta.value.contexts else []
  }

  function WithContexts(t: Task, bcs: seq<BindingContext>): (r: Task)
    ensures t.meta.Some? ==> Contexts(r) == bcs
    ensures r.id == t.id && r.kind == t.kind && r.queueName == t.queueName && r.failures == t.failures
  {
    if t.meta.Some? then t.(meta := Some(t.meta.value.(contexts := bcs))) else t
  }

  function AllContexts(ts: seq<Task>): seq<BindingContext> {
    if ts == [] then [] else Contexts(ts[0]) + AllContexts(ts[1..])
  }

  lemma {:induction false} AllContextsAppend(a: seq<Task>, b: seq<Task>)
    ensures AllContexts(a + b) == AllContexts(a) + AllContexts(b)
  {
    if a == [] {
      assert a + b == b;
    } else {
      assert (a + b)[0] == a[0] && (a + b)[1..] == a[1..] + b;
      AllContextsAppend(a[1..], b);
    }
  }

  function Ids(ts: seq<Task>): (r: set<string>)
  {
    set t | t in ts :: t.id
  }

  ghost predicate DistinctIds(ts: seq<Task>) {
    forall i, j :: 0 <= i < j < |ts| ==> ts[i].id != ts[j].id
  }

  // ---------- Combining ----------

  predicate SameHookAndKind(t: Task, x: Task) {
    t.meta.Some? && x.meta.Some? && x.meta.value.hookName == t.meta.value.hookName && x.kind == t.kind
  }

  /** The tasks that `t` absorbs from a queue: those of the same hook and kind, up to
      the first one that is neither `t` itself nor absorbable. */
  function Scan(items: seq<Task>, t: Task, stop: Task -> bool): (r: seq<Task>)
    ensures |r| <= |items|
    ensures forall x :: x in r ==> x in items && x.id != t.id && SameHookAndKind(t, x) && !stop(x)
  {
    if items == [] then []
    else if items[0].id == t.id then Scan(items[1..], t, stop)
    else if SameHookAndKind(t, items[0]) && !stop(items[0]) then [items[0]] + Scan(items[1..], t, stop)
    else []
  }

  function NeverStop(): Task -> bool { (t: Task) => false }

  /** Deletion by id, as the queue's filter does it. */
  function Without(items: seq<Task>, ids: set<string>): (r: seq<Task>)
  {
    if items == [] then []
    else (if items[0].id in ids then [] else [items[0]]) + Without(items[1..], ids)
  }

  lemma {:induction false} WithoutAppend(a: seq<Task>, b: seq<Task>, ids: set<string>)
    ensures Without(a + b, ids) == Without(a, ids) + Without(b, ids)
  {
    if a == [] {
      assert a + b == b;
    } else {
      assert (a + b)[0] == a[0] && (a + b)[1..] == a[1..] + b;
      WithoutAppend(a[1..], b, ids);
    }
  }

  lemma {:induction false} WithoutNothing(items: seq<Task>, ids: set<string>)
    requires forall i :: 0 <= i < |items| ==> items[i].id !in ids
    ensures Without(items, ids) == items
  {
    if items != [] {
      WithoutNothing(items[1..], ids);
    }
  }

  lemma {:induction false} WithoutEverything(items: seq<Task>, ids: set<string>)
    requires forall i :: 0 <= i < |items| ==> items[i].id in ids
    ensures Without(items, ids) == []
  {
    if items != [] {
      WithoutEverything(items[1..], ids);
    }
  }

  /** When `t` heads the queue, it absorbs a stretch of its direct successors. */
  lemma {:induction false} ScanIsPrefix(t: Task, rest: seq<Task>, stop: Task -> bool)
    requires forall i :: 0 <= i < |rest| ==> rest[i].id != t.id
    ensures Scan(rest, t, stop) == rest[..|Scan(rest, t, stop)|]
  {
    if rest != [] {
      var tail := rest[1..];
      var k := |Scan(tail, t, stop)|;
      ScanIsPrefix(t, tail, stop);
      assert [rest[0]] + tail[..k] == rest[..1 + k];
    }
  }

  lemma ScanSkipsSelf(t: Task, rest: seq<Task>, stop: Task -> bool)
    ensures Scan([t] + rest, t, stop) == Scan(rest, t, stop)
  {
    assert ([t] + rest)[1..] == rest;
  }

  lemma MiddleIsApart(head: Task, mid: seq<Task>, rest: seq<Task>)
    requires DistinctIds([head] + mid + rest)
    ensures head.id !in Ids(mid)
    ensures forall j :: 0 <= j < |rest| ==> rest[j].id !in Ids(mid)
  {
    var all := [head] + mid + rest;
    forall i | 0 <= i < |mid| ensures mid[i].id != head.id {
      assert all[0] == head && all[1 + i] == mid[i];
    }
    forall i, j | 0 <= i < |mid| && 0 <= j < |rest| ensures mid[i].id != rest[j].id {
      assert all[1 + i] == mid[i] && all[1 + |mid| + j] == rest[j];
    }
  }

  /** The filter deletes exactly the tasks it was given, and keeps what precedes and follows them. */
  lemma DeleteMiddle(head: Task, mid: seq<Task>, rest: seq<Task>)
    requires DistinctIds([head] + mid + rest)
    ensures Without([head] + mid + rest, Ids(mid)) == [head] + rest
  {
    var ids := Ids(mid);
    MiddleIsApart(head, mid, rest);
    WithoutAppend([head] + mid, rest, ids);
    WithoutAppend([head], mid, ids);
    WithoutNothing([head], ids);
    WithoutEverything(mid, ids);
    WithoutNothing(rest, ids);
  }

  /** The whole combine step on a queue headed by the running task. */
  function Combined(items: seq<Task>, stop: Task -> bool): (r: seq<Task>)
    requires items != []
  {
    var others := Scan(items[1..], items[0], stop);
    if others == [] then items
    else [WithContexts(items[0], Compact(Contexts(items[0]) + AllContexts(others)))] + items[1 + |others|..]
  }

  // ---------- What combining means ----------

  /** The first `n` tasks are for one hook and of one kind. The next one, if there is one, has no
      metadata, or is for another hook or of another kind. */
  ghost predicate IsLongestStretch(items: seq<Task>, n: nat) {
    && 1 <= n <= |items| && items[0].meta.Some?
    && (forall i :: 1 <= i < n ==>
          && items[i].meta.Some? && items[i].meta.value.hookName == items[0].meta.value.hookName
          && items[i].kind == items[0].kind)
    && (n < |items| ==>
          || items[n].meta == None
          || items[n].meta.value.hookName != items[0].meta.value.hookName
          || items[n].kind != items[0].kind)
  }

  /** The head has absorbed the longest stretch behind it. Alone it keeps its contexts; otherwise it
      gets `passed`, all contexts of the stretch in order and compacted. */
  ghost predicate Absorbs(before: seq<Task>, after: seq<Task>, n: nat, passed: seq<BindingContext>) {
    && IsLongestStretch(before, n)
    && passed == (if n == 1 then before[0].meta.value.contexts else Compact(AllContexts(before[..n])))
    && after == [before[0].(meta := Some(before[0].meta.value.(contexts := passed)))] + before[n..]
  }

  lemma {:induction false} ScanStops(t: Task, rest: seq<Task>)
    requires t.meta.Some? && forall i :: 0 <= i < |rest| ==> rest[i].id != t.id
    ensures var n := |Scan(rest, t, NeverStop())|;
      && (forall i :: 0 <= i < n ==>
            && rest[i].meta.Some? && rest[i].meta.value.hookName == t.meta.value.hookName && rest[i].kind == t.kind)
      && (n < |rest| ==>
            rest[n].meta == None || rest[n].meta.value.hookName != t.meta.value.hookName || rest[n].kind != t.kind)
  {
    if rest != [] && SameHookAndKind(t, rest[0]) {
      ScanStops(t, rest[1..]);
    }
  }

  lemma LongestStretch(items: seq<Task>)
    requires items != [] && items[0].meta.Some? && DistinctIds(items)
    ensures var others := Scan(items[1..], items[0], NeverStop());
      IsLongestStretch(items, 1 + |others|) && others == items[1..1 + |others|]
  {
    var rest := items[1..];
    ScanStops(items[0], rest);
    ScanIsPrefix(items[0], rest, NeverStop());
    var n := 1 + |Scan(rest, items[0], NeverStop())|;
    assert forall i :: 1 <= i < |items| ==> items[i] == rest[i - 1];
    assert items[1..n] == rest[..n - 1];
  }

  lemma CombinedAbsorbs(items: seq<Task>)
    requires items != [] && items[0].meta.Some? && DistinctIds(items)
    ensures var after := Combined(items, NeverStop());
      after != [] && exists n :: Absorbs(items, after, n, Contexts(after[0]))
  {
    LongestStretch(items);
    var others := Scan(items[1..], items[0], NeverStop());
    var n, after := 1 + |others|, Combined(items, NeverStop());
    if n > 1 {
      assert items[..n] == [items[0]] + others;
      assert AllContexts(items[..n]) == Contexts(items[0]) + AllContexts(others);
    } else {
      assert after == items == [items[0]] + items[1..];
    }
    assert Absorbs(items, after, n, Contexts(after[0]));
  }
}
