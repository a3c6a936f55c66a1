/** The snapshots that are put into binding contexts right before a hook runs. */
module Snapshots {
  import opened BindingContexts
  import opened HookConfigs

  type Objects = seq<string>

  /** A binding context with the snapshots added to it. */
  datatype FreshContext = FreshContext(context: BindingContext, snapshots: map<string, Objects>)

  // ---------- Specification ----------

  /** The objects of the last binding of that name which has a monitor. */
  function SnapshotOf(kubes: Kubes, monitors: map<string, Objects>, name: string): Objects {
    if kubes == [] then []
    else
      var last := kubes[|kubes| - 1];
      if last.bindingName == name && last.monitorId in monitors then monitors[last.monitorId]
      else SnapshotOf(kubes[..|kubes| - 1], monitors, name)
  }

  ghost predicate AreSnapshots(kubes: Kubes, monitors: map<string, Objects>, names: seq<string>,
                               r: map<string, Objects>) {
    forall name :: if name in names then name in r && r[name] == SnapshotOf(kubes, monitors, name) else name !in r
  }

  /** The include list of the first binding of that name. */
  function KubernetesIncludes(kubes: Kubes, name: string): seq<string> {
    if kubes == [] then []
    else if kubes[0].bindingName == name then kubes[0].includes
    else KubernetesIncludes(kubes[1..], name)
  }

  function ScheduleIncludes(schedules: seq<ScheduleBinding>, name: string): seq<string> {
    if schedules == [] then []
    else if schedules[0].bindingName == name then schedules[0].includes
    else ScheduleIncludes(schedules[1..], name)
  }

  function IncludesFor(kubes: Kubes, schedules: seq<ScheduleBinding>, bindingType: BindingType,
                       name: string): seq<string> {
    match bindingType
    case OnKubernetesEvent => KubernetesIncludes(kubes, name)
    case Schedule => ScheduleIncludes(schedules, name)
    case OnStartup => []
    case NoBindingType => []
  }

  // ---------- The controllers ----------

  method SnapshotsFrom(kubes: Kubes, monitors: map<string, Objects>, names: seq<string>)
    returns (res: map<string, Objects>)
    ensures AreSnapshots(kubes, monitors, names, res)
  {
    res := map[];
    for i := 0 to |names|
      invariant AreSnapshots(kubes, monitors, names[..i], res)
    {
      var bindingName := names[i];
      ghost var before := res;
      assert names[..i + 1] == names[..i] + [bindingName];
      res := res[bindingName := []];
      for j := 0 to |kubes|
        invariant res == before[bindingName := SnapshotOf(kubes[..j], monitors, bindingName)]
      {
        assert kubes[..j + 1][..j] == kubes[..j];
        var monitorId := kubes[j].monitorId;
        if bindingName == kubes[j].bindingName && monitorId in monitors {
          res := res[bindingName := monitors[monitorId]];
        }
      }
      assert kubes[..|kubes|] == kubes;
    }
    assert names[..|names|] == names;
  }

  method KubernetesSnapshotsFor(kubes: Kubes, schedules: seq<ScheduleBinding>, monitors: map<string, Objects>,
                                bindingType: BindingType, bindingName: string) returns (res: map<string, Objects>)
    ensures AreSnapshots(kubes, monitors, IncludesFor(kubes, schedules, bindingType, bindingName), res)
  {
    var includeSnapshots := [];
    var i := 0;
    match bindingType {
      case OnKubernetesEvent =>
        while i < |kubes|
          invariant 0 <= i <= |kubes| && includeSnapshots == []
          invariant KubernetesIncludes(kubes[i..], bindingName) == KubernetesIncludes(kubes, bindingName)
        {
          assert kubes[i..][1..] == kubes[i + 1..];
          if bindingName == kubes[i].bindingName {
            includeSnapshots := kubes[i].includes;
            break;
          }
          i := i + 1;
        }
      case Schedule =>
        while i < |schedules|
          invariant 0 <= i <= |schedules| && includeSnapshots == []
          invariant ScheduleIncludes(schedules[i..], bindingName) == ScheduleIncludes(schedules, bindingName)
        {
          assert schedules[i..][1..] == schedules[i + 1..];
          if bindingName == schedules[i].bindingName {
            includeSnapshots := schedules[i].includes;
            break;
          }
          i := i + 1;
        }
      case OnStartup =>
      case NoBindingType =>
    }
    res := SnapshotsFrom(kubes, monitors, includeSnapshots);
  }

  method UpdateSnapshots(kubes: Kubes, schedules: seq<ScheduleBinding>, monitors: map<string, Objects>,
                         contexts: seq<BindingContext>) returns (newContext: seq<FreshContext>)
    ensures |newContext| == |contexts|
    ensures forall i :: 0 <= i < |contexts| ==>
      && newContext[i].context == contexts[i]
      && AreSnapshots(kubes, monitors, IncludesFor(kubes, schedules, contexts[i].bindingType, contexts[i].binding),
                      newContext[i].snapshots)
  {
    newContext := [];
    for i := 0 to |contexts|
      invariant |newContext| == i
      invariant forall k :: 0 <= k < i ==>
        && newContext[k].context == contexts[k]
        && AreSnapshots(kubes, monitors, IncludesFor(kubes, schedules, contexts[k].bindingType, contexts[k].binding),
                        newContext[k].snapshots)
    {
      var snapshots := KubernetesSnapshotsFor(kubes, schedules, monitors, contexts[i].bindingType, contexts[i].binding);
      newContext := newContext + [FreshContext(contexts[i], snapshots)];
    }
  }

  // ---------- Whose list a context gets ----------

  lemma {:induction false} FirstKubernetesList(kubes: Kubes, name: string, i: nat)
    requires i < |kubes| && kubes[i].bindingName == name && forall j :: 0 <= j < i ==> kubes[j].bindingName != name
    ensures KubernetesIncludes(kubes, name) == kubes[i].includes
  {
    if i > 0 {
      FirstKubernetesList(kubes[1..], name, i - 1);
    }
  }

  lemma {:induction false} FirstScheduleList(schedules: seq<ScheduleBinding>, name: string, i: nat)
    requires i < |schedules| && schedules[i].bindingName == name
    requires forall j :: 0 <= j < i ==> schedules[j].bindingName != name
    ensures ScheduleIncludes(schedules, name) == schedules[i].includes
  {
    if i > 0 {
      FirstScheduleList(schedules[1..], name, i - 1);
    }
  }

  /** The context of a kubernetes event has snapshots for the list of the first kubernetes binding of its
      name, that of a crontab for the list of the first schedule of its name, and others have none. */
  lemma ContextsGetTheirLists(kubes: Kubes, schedules: seq<ScheduleBinding>, monitors: map<string, Objects>,
                              contexts: seq<BindingContext>, given: seq<FreshContext>, n: nat)
    requires n < |contexts| == |given|
    requires forall i :: 0 <= i < |contexts| ==>
      && given[i].context == contexts[i]
      && AreSnapshots(kubes, monitors, IncludesFor(kubes, schedules, contexts[i].bindingType, contexts[i].binding),
                      given[i].snapshots)
    ensures var c, r := contexts[n], given[n].snapshots;
      && (forall i :: 0 <= i < |kubes| && c.bindingType == OnKubernetesEvent && kubes[i].bindingName == c.binding
                      && (forall j :: 0 <= j < i ==> kubes[j].bindingName != c.binding) ==>
            forall name :: name in r <==> name in kubes[i].includes)
      && (forall i :: 0 <= i < |schedules| && c.bindingType == Schedule && schedules[i].bindingName == c.binding
                      && (forall j :: 0 <= j < i ==> schedules[j].bindingName != c.binding) ==>
            forall name :: name in r <==> name in schedules[i].includes)
      && (c.bindingType == OnStartup || c.bindingType == NoBindingType ==> r == map[])
  {
    var c := contexts[n];
    forall i | 0 <= i < |kubes| && kubes[i].bindingName == c.binding
               && forall j :: 0 <= j < i ==> kubes[j].bindingName != c.binding
      ensures KubernetesIncludes(kubes, c.binding) == kubes[i].includes
    {
      FirstKubernetesList(kubes, c.binding, i);
    }
    forall i | 0 <= i < |schedules| && schedules[i].bindingName == c.binding
               && forall j :: 0 <= j < i ==> schedules[j].bindingName != c.binding
      ensures ScheduleIncludes(schedules, c.binding) == schedules[i].includes
    {
      FirstScheduleList(schedules, c.binding, i);
    }
  }

  // ---------- Which snapshots a binding gets ----------

  predicate SameElements(a: seq<string>, b: seq<string>) {
    (forall x :: x in a ==> x in b) && (forall x :: x in b ==> x in a)
  }

  /** The context of this binding gets snapshots under exactly the names it includes. */
  ghost predicate GetsItsOwn(kubes: Kubes, monitors: map<string, Objects>, b: KubernetesBinding) {
    forall r :: AreSnapshots(kubes, monitors, KubernetesIncludes(kubes, b.bindingName), r) ==>
      forall name :: name in r <==> name in b.includes
  }

  lemma {:induction false} FirstOfName(kubes: Kubes, name: string) returns (i: nat)
    requires exists k :: k in kubes && k.bindingName == name
    ensures i < |kubes| && kubes[i].bindingName == name && KubernetesIncludes(kubes, name) == kubes[i].includes
  {
    if kubes[0].bindingName == name {
      i := 0;
    } else {
      assert forall k :: k in kubes && k != kubes[0] ==> k in kubes[1..];
      i := FirstOfName(kubes[1..], name);
      i := i + 1;
    }
  }

  lemma SnapshotsExist(kubes: Kubes, monitors: map<string, Objects>, names: seq<string>)
    returns (r: map<string, Objects>)
    ensures AreSnapshots(kubes, monitors, names, r)
  {
    r := map name | name in names :: SnapshotOf(kubes, monitors, name);
  }

  lemma OwnExactly(kubes: Kubes, monitors: map<string, Objects>, b: KubernetesBinding)
    ensures GetsItsOwn(kubes, monitors, b) <==> SameElements(KubernetesIncludes(kubes, b.bindingName), b.includes)
  {
    var includes := KubernetesIncludes(kubes, b.bindingName);
    var r := SnapshotsExist(kubes, monitors, includes);
    assert forall name :: name in r <==> name in includes;
  }

  lemma OneOfTheName(kubes: Kubes, b: KubernetesBinding) returns (a: KubernetesBinding)
    requires b in kubes
    ensures a in kubes && a.bindingName == b.bindingName && KubernetesIncludes(kubes, b.bindingName) == a.includes
  {
    var i := FirstOfName(kubes, b.bindingName);
    a := kubes[i];
  }

  /** Bindings of one name include the same snapshots. */
  ghost predicate NamesakesAgree(kubes: Kubes) {
    forall a, b :: a in kubes && b in kubes && a.bindingName == b.bindingName ==> SameElements(a.includes, b.includes)
  }

  lemma OwnWhenNamesakesAgree(kubes: Kubes, monitors: map<string, Objects>, b: KubernetesBinding)
    requires NamesakesAgree(kubes) && b in kubes
    ensures GetsItsOwn(kubes, monitors, b)
  {
    var a := OneOfTheName(kubes, b);
    OwnExactly(kubes, monitors, b);
  }

  lemma NamesakesAgreeWhenOwn(kubes: Kubes, monitors: map<string, Objects>, b: KubernetesBinding, c: KubernetesBinding)
    requires b in kubes && c in kubes && b.bindingName == c.bindingName
    requires GetsItsOwn(kubes, monitors, b) && GetsItsOwn(kubes, monitors, c)
    ensures SameElements(b.includes, c.includes)
  {
    hide GetsItsOwn;
    OwnExactly(kubes, monitors, b);
    OwnExactly(kubes, monitors, c);
  }

  /** Include lists are looked up by binding name and the first binding of a name decides. So all
      bindings of a hook get the snapshots they include, exactly when bindings with one name include
      the same snapshots. */
  lemma AllGetTheirOwnExactly(kubes: Kubes, monitors: map<string, Objects>)
    ensures (forall b :: b in kubes ==> GetsItsOwn(kubes, monitors, b))
       <==> forall a, b :: a in kubes && b in kubes && a.bindingName == b.bindingName ==>
           SameElements(a.includes, b.includes)
  {
    hide GetsItsOwn, SameElements;
    if NamesakesAgree(kubes) {
      forall b | b in kubes ensures GetsItsOwn(kubes, monitors, b) {
        OwnWhenNamesakesAgree(kubes, monitors, b);
      }
    }
    if forall b :: b in kubes ==> GetsItsOwn(kubes, monitors, b) {
      forall b, c | b in kubes && c in kubes && b.bindingName == c.bindingName
        ensures SameElements(b.includes, c.includes)
      {
        NamesakesAgreeWhenOwn(kubes, monitors, b, c);
      }
    }
  }

  // ---------- Bindings of a configuration ----------

  /** The binding's include list, closed over its group, has the name. */
  predicate Includes(kubes: Kubes, includes: seq<string>, group: string, name: string) {
    name in includes || (group != "" && name in GroupNames(kubes, group))
  }

  /** Two bindings include the same names. */
  ghost predicate IncludeAlike(kubes: Kubes, a: seq<string>, groupA: string, b: seq<string>, groupB: string) {
    forall name :: Includes(kubes, a, groupA, name) <==> Includes(kubes, b, groupB, name)
  }

  lemma ClosedHas(kubes: Kubes, includes: seq<string>, group: string, name: string)
    ensures name in Closed(kubes, includes, group) <==> Includes(kubes, includes, group, name)
  {
    if group != "" {
      ExtrasAre(includes, GroupNames(kubes, group), name);
    }
  }

  lemma AlikeWhenClosed(kubes: Kubes, a: seq<string>, groupA: string, b: seq<string>, groupB: string)
    ensures SameElements(Closed(kubes, a, groupA), Closed(kubes, b, groupB)) <==>
        IncludeAlike(kubes, a, groupA, b, groupB)
  {
    forall name
      ensures name in Closed(kubes, a, groupA) <==> Includes(kubes, a, groupA, name)
      ensures name in Closed(kubes, b, groupB) <==> Includes(kubes, b, groupB, name)
    {
      ClosedHas(kubes, a, groupA, name);
      ClosedHas(kubes, b, groupB, name);
    }
  }

  ghost predicate NamesakesAlike(kubes: Kubes) {
    forall a, b :: a in kubes && b in kubes && a.bindingName == b.bindingName ==>
      IncludeAlike(kubes, a.includes, a.group, b.includes, b.group)
  }

  /** For the kubernetes bindings of any configuration: they all get the snapshots they include exactly
      when, as configured, those of one name have the same explicit names and group members together. */
  lemma ConfiguredGetTheirOwnExactly(env: Env, v1: HookConfigV1, monitors: map<string, Objects>)
    ensures var kubes := CloseKubernetes(Explicit(env, v1));
      (forall b :: b in kubes ==> GetsItsOwn(kubes, monitors, b)) <==> NamesakesAlike(Explicit(env, v1))
  {
    hide GetsItsOwn, SameElements, IncludeAlike, Closed;
    var raw := Explicit(env, v1);
    var kubes := CloseKubernetes(raw);
    AllGetTheirOwnExactly(kubes, monitors);
    forall i, j | 0 <= i < |raw| && 0 <= j < |raw|
      ensures SameElements(kubes[i].includes, kubes[j].includes)
         <==> IncludeAlike(raw, raw[i].includes, raw[i].group, raw[j].includes, raw[j].group)
    {
      AlikeWhenClosed(raw, raw[i].includes, raw[i].group, raw[j].includes, raw[j].group);
    }
    IndexedForm(raw, kubes);
  }

  lemma IndexedForm(raw: Kubes, kubes: Kubes)
    requires |raw| == |kubes| && forall i :: 0 <= i < |raw| ==> raw[i].bindingName == kubes[i].bindingName
    requires forall i, j :: 0 <= i < |raw| && 0 <= j < |raw| ==>
      (SameElements(kubes[i].includes, kubes[j].includes)
       <==> IncludeAlike(raw, raw[i].includes, raw[i].group, raw[j].includes, raw[j].group))
    ensures (forall a, b :: a in kubes && b in kubes && a.bindingName == b.bindingName ==>
        SameElements(a.includes, b.includes))
       <==> NamesakesAlike(raw)
  {
    hide SameElements;
    hide IncludeAlike;
    if NamesakesAlike(raw) {
      forall a, b | a in kubes && b in kubes && a.bindingName == b.bindingName
        ensures SameElements(a.includes, b.includes)
      {
        var i, j :| 0 <= i < |kubes| && 0 <= j < |kubes| && kubes[i] == a && kubes[j] == b;
        assert raw[i] in raw && raw[j] in raw;
      }
    }
    if forall a, b :: a in kubes && b in kubes && a.bindingName == b.bindingName ==>
        SameElements(a.includes, b.includes) {
      forall a, b | a in raw && b in raw && a.bindingName == b.bindingName
        ensures IncludeAlike(raw, a.includes, a.group, b.includes, b.group)
      {
        var i, j :| 0 <= i < |raw| && 0 <= j < |raw| && raw[i] == a && raw[j] == b;
        assert kubes[i] in kubes && kubes[j] in kubes;
      }
    }
  }

  lemma NoNamesNoSnapshots(kubes: Kubes, monitors: map<string, Objects>)
    requires |kubes| == 2 && kubes[0].bindingName == kubes[1].bindingName
    requires kubes[0].includes == [] && kubes[1].includes != []
    ensures !GetsItsOwn(kubes, monitors, kubes[1])
    ensures forall r :: AreSnapshots(kubes, monitors, KubernetesIncludes(kubes, kubes[1].bindingName), r) ==> r == map[]
  {
    assert KubernetesIncludes(kubes, kubes[1].bindingName) == [];
    OwnExactly(kubes, monitors, kubes[1]);
    assert kubes[1].includes[0] in kubes[1].includes;
    forall r | AreSnapshots(kubes, monitors, [], r) ensures r == map[] {
      assert forall name :: name !in r;
    }
  }

  /** The ambiguous configuration is on the bad side: its second binding gets no snapshots at all. */
  lemma AcceptedMissesSnapshots(env: Env, monitors: map<string, Objects>)
    ensures Accepts(env, TwoUnnamed())
    ensures var kubes := CloseKubernetes(Explicit(env, TwoUnnamed()));
      && |kubes| == 2 && !GetsItsOwn(kubes, monitors, kubes[1])
      && forall r :: AreSnapshots(kubes, monitors, KubernetesIncludes(kubes, kubes[1].bindingName), r) ==> r == map[]
  {
    hide Explicit;
    hide CloseKubernetes;
    AcceptedWithAmbiguousName(env);
    NoNamesNoSnapshots(CloseKubernetes(Explicit(env, TwoUnnamed())), monitors);
  }

  // ---------- The same for schedule bindings ----------

  ghost predicate ScheduleGetsItsOwn(kubes: Kubes, schedules: seq<ScheduleBinding>, monitors: map<string, Objects>,
                                     b: ScheduleBinding) {
    forall r :: AreSnapshots(kubes, monitors, ScheduleIncludes(schedules, b.bindingName), r) ==>
      forall name :: name in r <==> name in b.includes
  }

  lemma {:induction false} FirstScheduleOfName(schedules: seq<ScheduleBinding>, name: string) returns (i: nat)
    requires exists b :: b in schedules && b.bindingName == name
    ensures i < |schedules| && schedules[i].bindingName == name &&
        ScheduleIncludes(schedules, name) == schedules[i].includes
  {
    if schedules[0].bindingName == name {
      i := 0;
    } else {
      assert forall b :: b in schedules && b != schedules[0] ==> b in schedules[1..];
      i := FirstScheduleOfName(schedules[1..], name);
      i := i + 1;
    }
  }

  lemma ScheduleOwnExactly(kubes: Kubes, schedules: seq<ScheduleBinding>, monitors: map<string, Objects>,
                           b: ScheduleBinding)
    ensures ScheduleGetsItsOwn(kubes, schedules, monitors, b)
       <==> SameElements(ScheduleIncludes(schedules, b.bindingName), b.includes)
  {
    var includes := ScheduleIncludes(schedules, b.bindingName);
    var r := SnapshotsExist(kubes, monitors, includes);
    assert forall name :: name in r <==> name in includes;
  }

  ghost predicate SchedulesAgree(schedules: seq<ScheduleBinding>) {
    forall a, b :: a in schedules && b in schedules && a.bindingName == b.bindingName ==>
      SameElements(a.includes, b.includes)
  }

  lemma OwnWhenSchedulesAgree(kubes: Kubes, schedules: seq<ScheduleBinding>, monitors: map<string, Objects>,
                              b: ScheduleBinding)
    requires SchedulesAgree(schedules) && b in schedules
    ensures ScheduleGetsItsOwn(kubes, schedules, monitors, b)
  {
    var i := FirstScheduleOfName(schedules, b.bindingName);
    assert schedules[i] in schedules;
    ScheduleOwnExactly(kubes, schedules, monitors, b);
  }

  lemma SchedulesAgreeWhenOwn(kubes: Kubes, schedules: seq<ScheduleBinding>, monitors: map<string, Objects>,
                              b: ScheduleBinding, c: ScheduleBinding)
    requires b in schedules && c in schedules && b.bindingName == c.bindingName
    requires ScheduleGetsItsOwn(kubes, schedules, monitors, b) && ScheduleGetsItsOwn(kubes, schedules, monitors, c)
    ensures SameElements(b.includes, c.includes)
  {
    hide ScheduleGetsItsOwn;
    ScheduleOwnExactly(kubes, schedules, monitors, b);
    ScheduleOwnExactly(kubes, schedules, monitors, c);
  }

  /** All schedule bindings get the snapshots they include exactly when those of one name include the
      same. */
  lemma AllSchedulesGetTheirOwnExactly(kubes: Kubes, schedules: seq<ScheduleBinding>, monitors: map<string, Objects>)
    ensures (forall b :: b in schedules ==> ScheduleGetsItsOwn(kubes, schedules, monitors, b))
       <==> forall a, b :: a in schedules && b in schedules && a.bindingName == b.bindingName ==>
           SameElements(a.includes, b.includes)
  {
    hide ScheduleGetsItsOwn, SameElements;
    if SchedulesAgree(schedules) {
      forall b | b in schedules ensures ScheduleGetsItsOwn(kubes, schedules, monitors, b) {
        OwnWhenSchedulesAgree(kubes, schedules, monitors, b);
      }
    }
    if forall b :: b in schedules ==> ScheduleGetsItsOwn(kubes, schedules, monitors, b) {
      forall b, c | b in schedules && c in schedules && b.bindingName == c.bindingName
        ensures SameElements(b.includes, c.includes)
      {
        SchedulesAgreeWhenOwn(kubes, schedules, monitors, b, c);
      }
    }
  }

  /** With a name that is used once and a monitor that is registered, the snapshot is the monitor's
      list of objects. */
  lemma {:induction false} UniqueNameSnapshot(kubes: Kubes, monitors: map<string, Objects>, k: KubernetesBinding)
    requires k in kubes && CountName(kubes, k.bindingName) == 1 && k.monitorId in monitors
    ensures SnapshotOf(kubes, monitors, k.bindingName) == monitors[k.monitorId]
  {
    var before, last := kubes[..|kubes| - 1], kubes[|kubes| - 1];
    assert kubes == before + [last];
    CountsExist(before, k.bindingName);
    if last.bindingName != k.bindingName {
      UniqueNameSnapshot(before, monitors, k);
    }
  }
}
