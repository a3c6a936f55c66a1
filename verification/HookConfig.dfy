/** Hook configurations of version 1: conversion, checks, and the closure of the include lists over
    groups; and the snapshots which a hook is given because of them. */
module HookConfigs {
  datatype KubernetesConfigV1 = KubernetesConfigV1(
    name: string, allowFailure: bool, includeSnapshotsFrom: seq<string>, queue: string, group: string,
    executeHookOnSynchronization: string, waitForSynchronization: string,
    wellFormed: bool)   // CheckOnKubernetesEventV1: apiVersion and selectors can be parsed

  datatype ScheduleConfigV1 = ScheduleConfigV1(
    name: string, crontab: string, allowFailure: bool, includeSnapshotsFrom: seq<string>, queue: string, group: string)

  datatype HookConfigV1 = HookConfigV1(
    onStartupValid: bool, schedule: seq<ScheduleConfigV1>, onKubernetesEvent: seq<KubernetesConfigV1>)

  datatype KubernetesBinding = KubernetesBinding(
    bindingName: string, monitorId: string, allowFailure: bool, includes: seq<string>, queue: string, group: string,
    executeHookOnSynchronization: bool, waitForSynchronization: bool)

  datatype ScheduleBinding = ScheduleBinding(
    bindingName: string, crontab: string, id: string, allowFailure: bool, includes: seq<string>, queue: string,
    group: string)

  /** What is given from outside: the cron parser and the UUIDs drawn for monitors and schedules. */
  datatype Env = Env(parses: string -> bool, monitorIds: nat -> string, scheduleIds: nat -> string)

  type Kubes = seq<KubernetesBinding>

  // ---------- Specification ----------

  function Default(value: string, default_: string): string {
    if value == "" then default_ else value
  }

  function ConvertKubernetes(c: KubernetesConfigV1, monitorId: string): KubernetesBinding {
    KubernetesBinding(Default(c.name, "kubernetes"), monitorId, c.allowFailure, c.includeSnapshotsFrom,
                      Default(c.queue, "main"), c.group,
                      c.executeHookOnSynchronization != "false",
                      !(c.waitForSynchronization == "false" && c.queue != ""))
  }

  function ConvertSchedule(c: ScheduleConfigV1, id: string): ScheduleBinding {
    ScheduleBinding(Default(c.name, "schedule"), c.crontab, id, c.allowFailure, c.includeSnapshotsFrom,
                    Default(c.queue, "main"), c.group)
  }

  /** What a kubernetes binding is made of, field by field; its include list comes later. */
  ghost predicate IsConverted(c: KubernetesConfigV1, monitorId: string, b: KubernetesBinding) {
    && b.bindingName == (if c.name == "" then "kubernetes" else c.name)
    && b.queue == (if c.queue == "" then "main" else c.queue)
    && b.monitorId == monitorId && b.allowFailure == c.allowFailure && b.group == c.group
    && (b.executeHookOnSynchronization <==> c.executeHookOnSynchronization != "false")
    && (!b.waitForSynchronization <==> c.waitForSynchronization == "false" && c.queue != "")
  }

  ghost predicate IsConvertedSchedule(c: ScheduleConfigV1, id: string, b: ScheduleBinding) {
    && b.bindingName == (if c.name == "" then "schedule" else c.name)
    && b.queue == (if c.queue == "" then "main" else c.queue)
    && b.crontab == c.crontab && b.id == id && b.allowFailure == c.allowFailure && b.group == c.group
  }

  /** The kubernetes bindings before the groups are taken into account. */
  function Explicit(env: Env, v1: HookConfigV1): (r: Kubes)
    ensures |r| == |v1.onKubernetesEvent|
    ensures forall i :: 0 <= i < |r| ==> r[i] == ConvertKubernetes(v1.onKubernetesEvent[i], env.monitorIds(i))
  {
    seq(|v1.onKubernetesEvent|, i requires 0 <= i < |v1.onKubernetesEvent| =>
      ConvertKubernetes(v1.onKubernetesEvent[i], env.monitorIds(i)))
  }

  function ExplicitSchedules(env: Env, v1: HookConfigV1): (r: seq<ScheduleBinding>)
    ensures |r| == |v1.schedule|
    ensures forall i :: 0 <= i < |r| ==> r[i] == ConvertSchedule(v1.schedule[i], env.scheduleIds(i))
  {
    seq(|v1.schedule|, i requires 0 <= i < |v1.schedule| => ConvertSchedule(v1.schedule[i], env.scheduleIds(i)))
  }

  /** How many bindings have the name. */
  function CountName(kubes: Kubes, name: string): nat {
    if kubes == [] then 0
    else CountName(kubes[..|kubes| - 1], name) + if kubes[|kubes| - 1].bindingName == name then 1 else 0
  }

  ghost predicate EachNamesOne(kubes: Kubes, includes: seq<string>) {
    forall name :: name in includes ==> CountName(kubes, name) == 1
  }

  ghost predicate AcceptsKubernetes(kubes: Kubes, v1: HookConfigV1) {
    forall c :: c in v1.onKubernetesEvent ==> c.wellFormed && EachNamesOne(kubes, c.includeSnapshotsFrom)
  }

  ghost predicate AcceptsSchedules(env: Env, kubes: Kubes, v1: HookConfigV1) {
    forall c :: c in v1.schedule ==> env.parses(c.crontab) && EachNamesOne(kubes, c.includeSnapshotsFrom)
  }

  ghost predicate Accepts(env: Env, v1: HookConfigV1) {
    v1.onStartupValid && AcceptsKubernetes(Explicit(env, v1), v1) && AcceptsSchedules(env, Explicit(env, v1), v1)
  }

  /** The names of the bindings of a group, in order. */
  function GroupNames(kubes: Kubes, group: string): seq<string> {
    if kubes == [] then []
    else GroupNames(kubes[..|kubes| - 1], group)
         + if kubes[|kubes| - 1].group == group then [kubes[|kubes| - 1].bindingName] else []
  }

  /** The elements of `b` which are not in `a`, each where it comes first. */
  function Extras(a: seq<string>, b: seq<string>): seq<string> {
    if b == [] then []
    else
      var before, last := b[..|b| - 1], b[|b| - 1];
      Extras(a, before) + if last in a || last in before then [] else [last]
  }

  function Closed(kubes: Kubes, includes: seq<string>, group: string): seq<string> {
    if group == "" then includes else includes + Extras(includes, GroupNames(kubes, group))
  }

  function CloseKubernetes(kubes: Kubes): (r: Kubes)
    ensures |r| == |kubes|
    ensures forall i :: 0 <= i < |r| ==> r[i] == kubes[i].(includes := Closed(kubes, kubes[i].includes, kubes[i].group))
  {
    seq(|kubes|, i requires 0 <= i < |kubes| => kubes[i].(includes := Closed(kubes, kubes[i].includes, kubes[i].group)))
  }

  function CloseSchedules(kubes: Kubes, schedules: seq<ScheduleBinding>): (r: seq<ScheduleBinding>)
    ensures |r| == |schedules|
    ensures forall i :: 0 <= i < |r| ==>
              r[i] == schedules[i].(includes := Closed(kubes, schedules[i].includes, schedules[i].group))
  {
    seq(|schedules|, i requires 0 <= i < |schedules| =>
      schedules[i].(includes := Closed(kubes, schedules[i].includes, schedules[i].group)))
  }

  // ---------- Conversion ----------

  method MergeArrays(a1: seq<string>, a2: seq<string>) returns (res: seq<string>)
    ensures res == a1 + Extras(a1, a2)
  {
    var union: map<string, bool> := map[];
    for i := 0 to |a2|
      invariant forall a :: a in a2[..i] ==> a in union && union[a]
    {
      assert a2[..i + 1] == a2[..i] + [a2[i]];
      union := union[a2[i] := true];
    }
    assert a2[..|a2|] == a2;
    res := [];
    for i := 0 to |a1|
      invariant res == a1[..i]
      invariant forall a :: a in a2 ==> a in union && (union[a] <==> a !in a1[..i])
    {
      assert a1[..i + 1] == a1[..i] + [a1[i]];
      res := res + [a1[i]];
      union := union[a1[i] := false];
    }
    assert a1[..|a1|] == a1;
    for i := 0 to |a2|
      invariant res == a1 + Extras(a1, a2[..i])
      invariant forall a :: a in a2 ==> a in union && (union[a] <==> a !in a1 && a !in a2[..i])
    {
      assert a2[..i + 1] == a2[..i] + [a2[i]];
      assert a2[..i + 1][..i] == a2[..i];
      if union[a2[i]] {
        res := res + [a2[i]];
        union := union[a2[i] := false];
      }
    }
  }

  method CheckIncludeSnapshots(kubes: Kubes, includes: seq<string>) returns (ok: bool)
    ensures ok <==> EachNamesOne(kubes, includes)
  {
    for i := 0 to |includes|
      invariant EachNamesOne(kubes, includes[..i])
    {
      var bindings := 0;
      for j := 0 to |kubes|
        invariant bindings == CountName(kubes[..j], includes[i])
      {
        assert kubes[..j + 1][..j] == kubes[..j];
        if kubes[j].bindingName == includes[i] {
          bindings := bindings + 1;
        }
      }
      assert kubes[..|kubes|] == kubes;
      assert includes[..i + 1] == includes[..i] + [includes[i]];
      if bindings != 1 {
        assert includes[i] in includes;
        return false;
      }
    }
    assert includes[..|includes|] == includes;
    return true;
  }

  /** Execution on Synchronization and waiting for it are enabled by default; waiting can be disabled for
      named queues only. */
  method ConvertKubernetesBinding(kubeCfg: KubernetesConfigV1, monitorId: string) returns (b: KubernetesBinding)
    ensures b == ConvertKubernetes(kubeCfg, monitorId)
  {
    var bindingName, queue := kubeCfg.name, kubeCfg.queue;
    if kubeCfg.name == "" {
      bindingName := "kubernetes";
    }
    if kubeCfg.queue == "" {
      queue := "main";
    }
    var executeHookOnSynchronization := true;
    if kubeCfg.executeHookOnSynchronization == "false" {
      executeHookOnSynchronization := false;
    }
    var waitForSynchronization := true;
    if kubeCfg.waitForSynchronization == "false" && kubeCfg.queue != "" {
      waitForSynchronization := false;
    }
    b := KubernetesBinding(bindingName, monitorId, kubeCfg.allowFailure, kubeCfg.includeSnapshotsFrom, queue,
                           kubeCfg.group, executeHookOnSynchronization, waitForSynchronization);
  }

  method ConvertScheduleV1(rawSchedule: ScheduleConfigV1, id: string) returns (b: ScheduleBinding)
    ensures b == ConvertSchedule(rawSchedule, id)
  {
    var bindingName, queue := rawSchedule.name, rawSchedule.queue;
    if rawSchedule.name == "" {
      bindingName := "schedule";
    }
    if rawSchedule.queue == "" {
      queue := "main";
    }
    b := ScheduleBinding(bindingName, rawSchedule.crontab, id, rawSchedule.allowFailure,
                         rawSchedule.includeSnapshotsFrom, queue, rawSchedule.group);
  }

  class HookConfig {
    const V1: HookConfigV1
    var OnKubernetesEvents: Kubes
    var Schedules: seq<ScheduleBinding>

    constructor (V1: HookConfigV1)
      ensures this.V1 == V1 && OnKubernetesEvents == [] && Schedules == []
    {
      this.V1, OnKubernetesEvents, Schedules := V1, [], [];
    }

    method ConvertKubernetesBindings(env: Env) returns (ok: bool)
      modifies this`OnKubernetesEvents
      ensures ok <==> forall c :: c in V1.onKubernetesEvent ==> c.wellFormed
      ensures ok ==> OnKubernetesEvents == Explicit(env, V1)
    {
      OnKubernetesEvents := [];
      for i := 0 to |V1.onKubernetesEvent|
        invariant OnKubernetesEvents == Explicit(env, V1)[..i]
        invariant forall c :: c in V1.onKubernetesEvent[..i] ==> c.wellFormed
      {
        var kubeCfg := V1.onKubernetesEvent[i];
        assert V1.onKubernetesEvent[..i + 1] == V1.onKubernetesEvent[..i] + [kubeCfg];
        if !kubeCfg.wellFormed {
          assert kubeCfg in V1.onKubernetesEvent;
          return false;
        }
        var kubeConfig := ConvertKubernetesBinding(kubeCfg, env.monitorIds(i));
        OnKubernetesEvents := OnKubernetesEvents + [kubeConfig];
      }
      assert V1.onKubernetesEvent[..|V1.onKubernetesEvent|] == V1.onKubernetesEvent;
      return true;
    }

    method CheckKubernetesIncludes() returns (ok: bool)
      ensures ok <==> forall c :: c in V1.onKubernetesEvent ==> EachNamesOne(OnKubernetesEvents, c.includeSnapshotsFrom)
    {
      for i := 0 to |V1.onKubernetesEvent|
        invariant forall c :: c in V1.onKubernetesEvent[..i] ==>
            EachNamesOne(OnKubernetesEvents, c.includeSnapshotsFrom)
      {
        var includes := V1.onKubernetesEvent[i].includeSnapshotsFrom;
        assert V1.onKubernetesEvent[..i + 1] == V1.onKubernetesEvent[..i] + [V1.onKubernetesEvent[i]];
        if |includes| > 0 {
          var found := CheckIncludeSnapshots(OnKubernetesEvents, includes);
          if !found {
            assert V1.onKubernetesEvent[i] in V1.onKubernetesEvent;
            return false;
          }
        }
      }
      assert V1.onKubernetesEvent[..|V1.onKubernetesEvent|] == V1.onKubernetesEvent;
      return true;
    }

    method CheckSchedule(env: Env, c: ScheduleConfigV1) returns (ok: bool)
      ensures ok <==> env.parses(c.crontab) && EachNamesOne(OnKubernetesEvents, c.includeSnapshotsFrom)
    {
      ok := env.parses(c.crontab);
      if |c.includeSnapshotsFrom| > 0 {
        var found := CheckIncludeSnapshots(OnKubernetesEvents, c.includeSnapshotsFrom);
        ok := ok && found;
      }
    }

    method ConvertScheduleBindings(env: Env) returns (ok: bool)
      modifies this`Schedules
      ensures ok <==> AcceptsSchedules(env, OnKubernetesEvents, V1)
      ensures ok ==> Schedules == ExplicitSchedules(env, V1)
    {
      Schedules := [];
      for i := 0 to |V1.schedule|
        invariant Schedules == ExplicitSchedules(env, V1)[..i]
        invariant forall c :: c in V1.schedule[..i] ==>
            env.parses(c.crontab) && EachNamesOne(OnKubernetesEvents, c.includeSnapshotsFrom)
      {
        var rawSchedule := V1.schedule[i];
        assert V1.schedule[..i + 1] == V1.schedule[..i] + [rawSchedule];
        var valid := CheckSchedule(env, rawSchedule);
        if !valid {
          assert rawSchedule in V1.schedule;
          return false;
        }
        var schedule := ConvertScheduleV1(rawSchedule, env.scheduleIds(i));
        Schedules := Schedules + [schedule];
      }
      assert V1.schedule[..|V1.schedule|] == V1.schedule;
      return true;
    }

    method GroupSnapshots() returns (groupSnapshots: map<string, seq<string>>)
      ensures IsGrouping(groupSnapshots, OnKubernetesEvents)
    {
      groupSnapshots := map[];
      for i := 0 to |OnKubernetesEvents|
        invariant IsGrouping(groupSnapshots, OnKubernetesEvents[..i])
      {
        var kubeCfg := OnKubernetesEvents[i];
        assert OnKubernetesEvents[..i + 1] == OnKubernetesEvents[..i] + [kubeCfg];
        GroupNamesSnoc(OnKubernetesEvents[..i], kubeCfg);
        if kubeCfg.group != "" {
          var names := if kubeCfg.group in groupSnapshots then groupSnapshots[kubeCfg.group] else [];
          groupSnapshots := groupSnapshots[kubeCfg.group := names + [kubeCfg.bindingName]];
        }
      }
      assert OnKubernetesEvents[..|OnKubernetesEvents|] == OnKubernetesEvents;
    }

    method CloseGroups()
      modifies this
      ensures OnKubernetesEvents == CloseKubernetes(old(OnKubernetesEvents))
      ensures Schedules == CloseSchedules(old(OnKubernetesEvents), old(Schedules))
    {
      var groupSnapshots := GroupSnapshots();
      var newKubeEvents := CloseEach(groupSnapshots, OnKubernetesEvents);
      var newSchedules := CloseEachSchedule(groupSnapshots, OnKubernetesEvents, Schedules);
      OnKubernetesEvents, Schedules := newKubeEvents, newSchedules;
    }

    method ConvertAndCheckV1(env: Env) returns (ok: bool)
      modifies this
      ensures ok <==> Accepts(env, V1)
      ensures ok ==> OnKubernetesEvents == CloseKubernetes(Explicit(env, V1))
      ensures ok ==> Schedules == CloseSchedules(Explicit(env, V1), ExplicitSchedules(env, V1))
      ensures ok ==> |OnKubernetesEvents| == |V1.onKubernetesEvent| && |Schedules| == |V1.schedule|
      ensures ok ==> forall i :: 0 <= i < |OnKubernetesEvents| ==>
        IsConverted(V1.onKubernetesEvent[i], env.monitorIds(i), OnKubernetesEvents[i])
      ensures ok ==> forall i :: 0 <= i < |Schedules| ==>
        IsConvertedSchedule(V1.schedule[i], env.scheduleIds(i), Schedules[i])
    {
      if !V1.onStartupValid {
        return false;
      }
      ok := ConvertKubernetesBindings(env);
      if !ok {
        return;
      }
      ok := CheckKubernetesIncludes();
      if !ok {
        return;
      }
      ok := ConvertScheduleBindings(env);
      if ok {
        CloseGroups();
      }
    }
  }

  /** Only non-empty groups with at least one binding are listed. */
  ghost predicate IsGrouping(groups: map<string, seq<string>>, kubes: Kubes) {
    forall group :: if group != "" && GroupNames(kubes, group) != []
                    then group in groups && groups[group] == GroupNames(kubes, group)
                    else group !in groups
  }

  method CloseIncludes(groups: map<string, seq<string>>, ghost kubes: Kubes, includes: seq<string>, group: string)
    returns (r: seq<string>)
    requires IsGrouping(groups, kubes)
    ensures r == Closed(kubes, includes, group)
  {
    r := includes;
    if group in groups {
      r := MergeArrays(includes, groups[group]);
    } else {
      assert Extras(includes, []) == [];
    }
  }

  method CloseEach(groups: map<string, seq<string>>, kubes: Kubes) returns (r: Kubes)
    requires IsGrouping(groups, kubes)
    ensures r == CloseKubernetes(kubes)
  {
    r := [];
    for i := 0 to |kubes|
      invariant r == CloseKubernetes(kubes)[..i]
    {
      var includes := CloseIncludes(groups, kubes, kubes[i].includes, kubes[i].group);
      r := r + [kubes[i].(includes := includes)];
    }
  }

  method CloseEachSchedule(groups: map<string, seq<string>>, ghost kubes: Kubes, schedules: seq<ScheduleBinding>)
    returns (r: seq<ScheduleBinding>)
    requires IsGrouping(groups, kubes)
    ensures r == CloseSchedules(kubes, schedules)
  {
    r := [];
    for i := 0 to |schedules|
      invariant r == CloseSchedules(kubes, schedules)[..i]
    {
      var includes := CloseIncludes(groups, kubes, schedules[i].includes, schedules[i].group);
      r := r + [schedules[i].(includes := includes)];
    }
  }

  lemma GroupNamesSnoc(kubes: Kubes, k: KubernetesBinding)
    ensures forall group :: GroupNames(kubes + [k], group)
                         == GroupNames(kubes, group) + if k.group == group then [k.bindingName] else []
  {
    assert (kubes + [k])[..|kubes|] == kubes;
  }

  // ---------- The include lists are closed over groups ----------

  lemma {:induction false} ExtrasAre(a: seq<string>, b: seq<string>, x: string)
    ensures x in Extras(a, b) <==> x in b && x !in a
    ensures forall i, j :: 0 <= i < j < |Extras(a, b)| ==> Extras(a, b)[i] != Extras(a, b)[j]
  {
    if b != [] {
      var before, last := b[..|b| - 1], b[|b| - 1];
      assert b == before + [last];
      ExtrasAre(a, before, x);
      ExtrasAre(a, before, last);
    }
  }

  lemma {:induction false} GroupNamesAre(kubes: Kubes, group: string, name: string)
    ensures name in GroupNames(kubes, group) <==> exists k :: k in kubes && k.group == group && k.bindingName == name
  {
    if kubes != [] {
      var before, last := kubes[..|kubes| - 1], kubes[|kubes| - 1];
      assert kubes == before + [last];
      GroupNamesAre(before, group, name);
    }
  }

  lemma {:induction false} CountsExist(kubes: Kubes, name: string)
    ensures CountName(kubes, name) > 0 <==> exists k :: k in kubes && k.bindingName == name
  {
    if kubes != [] {
      var before, last := kubes[..|kubes| - 1], kubes[|kubes| - 1];
      assert kubes == before + [last];
      CountsExist(before, name);
    }
  }

  /** The include list of a binding after a successful conversion, for explicit names that were
      checked: they come first, every binding of the group follows unless it is there, nothing is
      appended twice, and every name is the name of a kubernetes binding. */
  lemma IncludesAreClosed(kubes: Kubes, includes: seq<string>, group: string)
    requires EachNamesOne(kubes, includes)
    ensures includes <= Closed(kubes, includes, group)
    ensures forall k :: k in kubes && group != "" && k.group == group ==>
        k.bindingName in Closed(kubes, includes, group)
    ensures forall name :: name in Closed(kubes, includes, group) ==>
              name in includes || (group != "" && name in GroupNames(kubes, group))
    ensures forall name :: name in Closed(kubes, includes, group) ==> CountName(kubes, name) > 0
    ensures forall i, j :: |includes| <= j < |Closed(kubes, includes, group)| && 0 <= i < j ==>
              Closed(kubes, includes, group)[i] != Closed(kubes, includes, group)[j]
  {
    if group != "" {
      var names := GroupNames(kubes, group);
      var extras := Extras(includes, names);
      forall name ensures name in extras <==> name in names && name !in includes {
        ExtrasAre(includes, names, name);
      }
      forall k | k in kubes && k.group == group ensures k.bindingName in names {
        GroupNamesAre(kubes, group, k.bindingName);
      }
      forall name | name in names ensures CountName(kubes, name) > 0 {
        GroupNamesAre(kubes, group, name);
        CountsExist(kubes, name);
      }
      ExtrasAre(includes, names, "");
      forall i, j | |includes| <= j < |includes + extras| && 0 <= i < j
        ensures (includes + extras)[i] != (includes + extras)[j]
      {
        assert (includes + extras)[j] == extras[j - |includes|] && extras[j - |includes|] in extras;
        assert i >= |includes| ==> (includes + extras)[i] == extras[i - |includes|];
      }
    }
  }

  /** Only the explicit part is checked for ambiguous names; the whole list is free of them exactly
      when the names of the group's bindings are. */
  lemma UnambiguousExactly(kubes: Kubes, includes: seq<string>, group: string)
    requires EachNamesOne(kubes, includes)
    ensures EachNamesOne(kubes, Closed(kubes, includes, group))
       <==> forall k :: k in kubes && group != "" && k.group == group ==> CountName(kubes, k.bindingName) == 1
  {
    IncludesAreClosed(kubes, includes, group);
    forall name | group != "" && name in GroupNames(kubes, group)
      ensures exists k :: k in kubes && k.group == group && k.bindingName == name
    {
      GroupNamesAre(kubes, group, name);
    }
  }

  lemma {:induction false} SameNames(a: Kubes, b: Kubes, name: string)
    requires |a| == |b| && forall i :: 0 <= i < |a| ==> a[i].bindingName == b[i].bindingName
    ensures CountName(a, name) == CountName(b, name)
  {
    if a != [] {
      SameNames(a[..|a| - 1], b[..|b| - 1], name);
    }
  }

  /** All that together, about the bindings of an accepted configuration. */
  lemma AcceptedIncludes(env: Env, v1: HookConfigV1, i: nat)
    requires Accepts(env, v1) && i < |v1.onKubernetesEvent|
    ensures
      var kubes := CloseKubernetes(Explicit(env, v1));
      var b := kubes[i];
      && v1.onKubernetesEvent[i].includeSnapshotsFrom <= b.includes
      && EachNamesOne(kubes, v1.onKubernetesEvent[i].includeSnapshotsFrom)
      && (forall k :: k in kubes && b.group != "" && k.group == b.group ==> k.bindingName in b.includes)
      && (forall name :: name in b.includes ==> CountName(kubes, name) > 0)
  {
    var raw := Explicit(env, v1);
    var kubes := CloseKubernetes(raw);
    assert v1.onKubernetesEvent[i] in v1.onKubernetesEvent;
    assert raw[i].includes == v1.onKubernetesEvent[i].includeSnapshotsFrom;
    assert EachNamesOne(raw, raw[i].includes);
    IncludesAreClosed(raw, raw[i].includes, raw[i].group);
    forall name ensures CountName(kubes, name) == CountName(raw, name) {
      SameNames(kubes, raw, name);
    }
    forall k | k in kubes && kubes[i].group != "" && k.group == kubes[i].group
      ensures k.bindingName in kubes[i].includes
    {
      var j :| 0 <= j < |kubes| && kubes[j] == k;
      assert raw[j] in raw && raw[j].group == k.group;
    }
  }

  lemma AcceptedScheduleIncludes(env: Env, v1: HookConfigV1, i: nat)
    requires Accepts(env, v1) && i < |v1.schedule|
    ensures
      var raw := Explicit(env, v1);
      var b := CloseSchedules(raw, ExplicitSchedules(env, v1))[i];
      && v1.schedule[i].includeSnapshotsFrom <= b.includes
      && EachNamesOne(raw, v1.schedule[i].includeSnapshotsFrom)
      && (forall k :: k in raw && b.group != "" && k.group == b.group ==> k.bindingName in b.includes)
      && (forall name :: name in b.includes ==> CountName(raw, name) > 0)
  {
    assert v1.schedule[i] in v1.schedule;
    var raw, c := Explicit(env, v1), v1.schedule[i];
    assert CloseSchedules(raw, ExplicitSchedules(env, v1))[i].group == c.group;
    assert CloseSchedules(raw, ExplicitSchedules(env, v1))[i].includes == Closed(raw, c.includeSnapshotsFrom, c.group);
    IncludesAreClosed(raw, c.includeSnapshotsFrom, c.group);
  }

  // ---------- An accepted configuration with ambiguous names ----------

  /** Two bindings without names, of which the second is in a group. */
  function TwoUnnamed(): HookConfigV1 {
    var first := KubernetesConfigV1("", false, [], "", "", "", "", true);
    HookConfigV1(true, [], [first, first.(group := "g")])
  }

  /** Bindings without names all get the same one. In a group it is included once for all of them, so
      this configuration is accepted with an include list whose only name has two bindings. */
  lemma AcceptedWithAmbiguousName(env: Env)
    ensures Accepts(env, TwoUnnamed())
    ensures var kubes := CloseKubernetes(Explicit(env, TwoUnnamed()));
      && |kubes| == 2
      && kubes[0].bindingName == kubes[1].bindingName == "kubernetes"
      && kubes[0].includes == [] && kubes[1].includes == ["kubernetes"]
      && CountName(kubes, "kubernetes") == 2
      && !EachNamesOne(kubes, kubes[1].includes)
  {
    var v1 := TwoUnnamed();
    var raw := Explicit(env, v1);
    var kubes := CloseKubernetes(raw);
    var one := raw[..1];
    assert one[..0] == [] && raw[..|raw| - 1] == one && one[|one| - 1] == raw[0];
    assert GroupNames(one, "g") == GroupNames(one[..0], "g") + [];
    assert GroupNames(raw, "g") == GroupNames(one, "g") + ["kubernetes"];
    assert Extras([], ["kubernetes"]) == Extras([], ["kubernetes"][..0]) + ["kubernetes"];
    assert kubes[1].includes == [] + Extras([], ["kubernetes"]);
    var first := kubes[..1];
    assert first[..0] == [] && kubes[..|kubes| - 1] == first && first[|first| - 1] == kubes[0];
    assert CountName(first, "kubernetes") == CountName(first[..0], "kubernetes") + 1;
    assert "kubernetes" in kubes[1].includes;
  }
}
