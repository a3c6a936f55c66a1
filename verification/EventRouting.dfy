/** From kubernetes and schedule events to tasks in named queues. */
module EventRouting {
  import opened Sequences
  import opened BindingContexts
  import opened Tasks
  import opened HookConfigs
  import opened ScheduleManagers
  import opened WorkerMachine
  import MainQueueOrder

  datatype KubeEvent = KubeEvent(monitorId: string, kubeType: KubeEventType, objects: seq<string>, watchEvents: nat)

  /** One loaded hook with its controllers: the bindings of its configuration, and those enabled so far. */
  datatype Hook = Hook(
    name: string, kubes: Kubes, schedules: seq<ScheduleBinding>,
    monitorLinks: map<string, KubernetesBinding>, scheduleLinks: map<string, ScheduleBinding>)

  /** Links lead from the id of a binding to that binding. */
  ghost predicate LinksAreBindings(h: Hook) {
    && (forall id :: id in h.monitorLinks ==> h.monitorLinks[id] in h.kubes && h.monitorLinks[id].monitorId == id)
    && (forall id :: id in h.scheduleLinks ==> h.scheduleLinks[id] in h.schedules && h.scheduleLinks[id].id == id)
  }

  // ---------- Specification ----------

  /** ConvertKubeEventToBindingContext: one context for a Synchronization, one for each watch event. */
  function KubeContexts(link: KubernetesBinding, e: KubeEvent): seq<BindingContext> {
    var bc := BindingContext(link.bindingName, OnKubernetesEvent, e.kubeType, link.group, e.objects);
    match e.kubeType
    case Synchronization => [bc]
    case Event => seq(e.watchEvents, _ => bc)
    case NoKubeEvent => []
  }

  function KubeTask(hook: string, link: KubernetesBinding, e: KubeEvent, id: string): Task {
    Task(id, HookRun, link.queue,
         Some(HookMetadata(hook, link.bindingName, link.group, OnKubernetesEvent, KubeContexts(link, e),
                           link.allowFailure)), 0)
  }

  function ScheduleTask(hook: string, link: ScheduleBinding, id: string): Task {
    var bc := BindingContext(link.bindingName, Schedule, NoKubeEvent, link.group, []);
    Task(id, HookRun, link.queue,
         Some(HookMetadata(hook, link.bindingName, link.group, Schedule, [bc], link.allowFailure)), 0)
  }

  function KubeTasks(hooks: seq<Hook>, e: KubeEvent, newId: nat -> string): seq<Task> {
    if hooks == [] then []
    else
      var before, h := KubeTasks(hooks[..|hooks| - 1], e, newId), hooks[|hooks| - 1];
      if e.monitorId in h.monitorLinks
      then before + [KubeTask(h.name, h.monitorLinks[e.monitorId], e, newId(|before|))]
      else before
  }

  /** An enabled schedule binding of one of the hooks. */
  datatype Origin = Origin(hook: nat, id: string)

  predicate Fits(hooks: seq<Hook>, crontab: string, o: Origin) {
    && o.hook < |hooks|
    && o.id in hooks[o.hook].scheduleLinks
    && hooks[o.hook].scheduleLinks[o.id].crontab == crontab
  }

  function OriginTask(hooks: seq<Hook>, crontab: string, o: Origin, id: string): Task
    requires Fits(hooks, crontab, o)
  {
    ScheduleTask(hooks[o.hook].name, hooks[o.hook].scheduleLinks[o.id], id)
  }

  /** The tasks of a schedule event are in one-to-one correspondence with the enabled bindings of the
      crontab. */
  ghost predicate AreScheduleTasks(hooks: seq<Hook>, crontab: string, newId: nat -> string,
                                   tasks: seq<Task>, origins: seq<Origin>) {
    && (forall i, j :: 0 <= i < j < |origins| ==> origins[i] != origins[j])
    && (forall o :: o in origins <==> Fits(hooks, crontab, o))
    && MadeFrom(hooks, crontab, newId, 0, tasks, origins)
  }

  /** Each task is the one of its origin; `first` is the number of tasks made before. */
  ghost predicate MadeFrom(hooks: seq<Hook>, crontab: string, newId: nat -> string, first: nat,
                           tasks: seq<Task>, origins: seq<Origin>) {
    && |tasks| == |origins|
    && forall i :: 0 <= i < |tasks| ==>
         Fits(hooks, crontab, origins[i]) && tasks[i] == OriginTask(hooks, crontab, origins[i], newId(first + i))
  }

  function KubeQueues(hooks: seq<Hook>): set<string> {
    if hooks == [] then {}
    else KubeQueues(hooks[..|hooks| - 1]) + set b | b in hooks[|hooks| - 1].kubes :: b.queue
  }

  function ScheduleQueues(hooks: seq<Hook>): set<string> {
    if hooks == [] then {}
    else ScheduleQueues(hooks[..|hooks| - 1]) + set b | b in hooks[|hooks| - 1].schedules :: b.queue
  }

  lemma QueuesOfNext(hooks: seq<Hook>, i: nat)
    requires i < |hooks|
    ensures KubeQueues(hooks[..i + 1]) == KubeQueues(hooks[..i]) + set b | b in hooks[i].kubes :: b.queue
    ensures ScheduleQueues(hooks[..i + 1]) == ScheduleQueues(hooks[..i]) + set b | b in hooks[i].schedules :: b.queue
  {
    assert hooks[..i + 1][..i] == hooks[..i];
  }

  function ForQueue(tasks: seq<Task>, name: string): seq<Task> {
    if tasks == [] then []
    else
      var last := tasks[|tasks| - 1];
      ForQueue(tasks[..|tasks| - 1], name) + if last.queueName == name then [last] else []
  }

  lemma ForQueueOfNext(tasks: seq<Task>, i: nat)
    requires i < |tasks|
    ensures forall name :: ForQueue(tasks[..i + 1], name)
                        == ForQueue(tasks[..i], name) + if tasks[i].queueName == name then [tasks[i]] else []
  {
    assert tasks[..i + 1][..i] == tasks[..i];
  }

  // ---------- What a hook is run with ----------

  /** The task runs the hook for the binding from the queue, as the binding says. */
  ghost predicate RunsFor(t: Task, hook: string, binding: string, group: string, bindingType: BindingType,
                          allowFailure: bool, queue: string) {
    && t.kind == HookRun && t.failures == 0 && t.queueName == queue && t.meta.Some?
    && t.meta.value.hookName == hook && t.meta.value.binding == binding && t.meta.value.group == group
    && t.meta.value.bindingType == bindingType && t.meta.value.allowFailure == allowFailure
    && forall i :: 0 <= i < |t.meta.value.contexts| ==>
         && t.meta.value.contexts[i].binding == binding && t.meta.value.contexts[i].group == group
         && t.meta.value.contexts[i].bindingType == bindingType
  }

  /** All contexts are of this type and have these objects. */
  ghost predicate GetsObjects(t: Task, kubeType: KubeEventType, objects: seq<string>) {
    t.meta.Some? && forall i :: 0 <= i < |t.meta.value.contexts| ==>
      t.meta.value.contexts[i].kubeType == kubeType && t.meta.value.contexts[i].objects == objects
  }

  /** The hook is run for its link of the monitor, with a context for each watch event and the event's objects. */
  ghost predicate RunsForEvent(h: Hook, e: KubeEvent, t: Task) {
    && e.monitorId in h.monitorLinks
    && var link := h.monitorLinks[e.monitorId];
    && RunsFor(t, h.name, link.bindingName, link.group, OnKubernetesEvent, link.allowFailure, link.queue)
    && |t.meta.value.contexts| == e.watchEvents && GetsObjects(t, Event, e.objects)
  }

  lemma EventTaskFields(h: Hook, e: KubeEvent, id: string)
    requires e.kubeType == Event && e.monitorId in h.monitorLinks
    ensures var t := KubeTask(h.name, h.monitorLinks[e.monitorId], e, id);
      t.id == id && RunsForEvent(h, e, t)
  {
  }

  /** The task of a Synchronization: one context with the objects which exist, on the main queue. */
  lemma SynchronizationTaskFields(hook: string, b: KubernetesBinding, objects: string -> seq<string>, id: string)
    ensures var t := SynchronizationTask(hook, b, objects, id);
      && t.id == id
      && RunsFor(t, hook, b.bindingName, b.group, OnKubernetesEvent, b.allowFailure, "main")
      && |t.meta.value.contexts| == 1 && GetsObjects(t, Synchronization, objects(b.monitorId))
  {
  }

  ghost predicate RunsForSynchronization(hook: string, b: KubernetesBinding, objects: string -> seq<string>, t: Task) {
    && RunsFor(t, hook, b.bindingName, b.group, OnKubernetesEvent, b.allowFailure, "main")
    && |t.meta.value.contexts| == 1 && GetsObjects(t, Synchronization, objects(b.monitorId))
  }

  lemma HandedOverFields(hook: string, executed: Kubes, objects: string -> seq<string>, heads: seq<Task>)
    requires HandsOver(hook, executed, objects, heads)
    ensures |heads| == |executed|
    ensures forall i :: 0 <= i < |heads| ==> RunsForSynchronization(hook, executed[i], objects, heads[i])
  {
    hide SynchronizationTask, RunsFor, GetsObjects;
    forall i | 0 <= i < |heads| ensures RunsForSynchronization(hook, executed[i], objects, heads[i]) {
      SynchronizationTaskFields(hook, executed[i], objects, heads[i].id);
    }
  }

  /** The task of a crontab: one context without objects. */
  lemma ScheduleTaskFields(hook: string, link: ScheduleBinding, id: string)
    ensures var t := ScheduleTask(hook, link, id);
      && t.id == id
      && RunsFor(t, hook, link.bindingName, link.group, Schedule, link.allowFailure, link.queue)
      && |t.meta.value.contexts| == 1 && GetsObjects(t, NoKubeEvent, [])
  {
  }

  // ---------- The controllers of one hook ----------

  class HookController {
    const name: string
    const kubernetesBindings: Kubes
    const scheduleBindings: seq<ScheduleBinding>
    const version0: bool
    var BindingMonitorLinks: map<string, KubernetesBinding>
    var ScheduleLinks: map<string, ScheduleBinding>
    var startedMonitors: set<string>

    function View(): Hook
      reads this
    {
      Hook(name, kubernetesBindings, scheduleBindings, BindingMonitorLinks, ScheduleLinks)
    }

    ghost predicate Valid()
      reads this
    {
      LinksAreBindings(View())
    }

    constructor (name: string, kubes: Kubes, schedules: seq<ScheduleBinding>, version0: bool)
      ensures Valid() && View() == Hook(name, kubes, schedules, map[], map[])
      ensures this.version0 == version0 && startedMonitors == {}
    {
      this.name, kubernetesBindings, scheduleBindings, this.version0 := name, kubes, schedules, version0;
      BindingMonitorLinks, ScheduleLinks, startedMonitors := map[], map[], {};
    }

    /** Adds a monitor for every binding; `monitorFails` says which additions go wrong. The result
        holds the bindings to be run with their existing objects; the monitors of version 0 have no
        first event, so there are none. Links made before stay. */
    method EnableKubernetesBindings(monitorFails: nat -> bool) returns (synchronize: Kubes, ok: bool)
      requires Valid()
      modifies this`BindingMonitorLinks
      ensures Valid()
      ensures ok <==> AllAdded(monitorFails, |kubernetesBindings|)
      ensures ok ==> AllLinked(kubernetesBindings, BindingMonitorLinks)
      ensures ok ==> synchronize == Executed(kubernetesBindings, version0)
      ensures !ok ==> synchronize == []
      ensures old(BindingMonitorLinks).Keys <= BindingMonitorLinks.Keys
    {
      synchronize := [];
      assert kubernetesBindings[..0] == [] && Executed([], version0) == [] && AllLinked([], BindingMonitorLinks);
      assert AllAdded(monitorFails, 0);
      hide Executed, AllLinked, LinksAreBindings, AllAdded;
      for i := 0 to |kubernetesBindings|
        invariant Valid()
        invariant AllAdded(monitorFails, i)
        invariant AllLinked(kubernetesBindings[..i], BindingMonitorLinks)
        invariant synchronize == Executed(kubernetesBindings[..i], version0)
        invariant old(BindingMonitorLinks).Keys <= BindingMonitorLinks.Keys
      {
        var config := kubernetesBindings[i];
        assert kubernetesBindings[..i + 1] == kubernetesBindings[..i] + [config];
        ExecutedSnoc(kubernetesBindings[..i], config, version0);
        NextAdded(monitorFails, i, |kubernetesBindings|);
        if monitorFails(i) {
          return [], false;
        }
        LinkedSnoc(kubernetesBindings[..i], config, BindingMonitorLinks);
        LinkKeepsBindings(View(), config);
        BindingMonitorLinks := BindingMonitorLinks[config.monitorId := config];
        if !version0 && config.executeHookOnSynchronization {
          synchronize := synchronize + [config];
        }
      }
      assert kubernetesBindings[..|kubernetesBindings|] == kubernetesBindings;
      ok := true;
    }

    /** Informers run from here on; their events may arrive while the caller is still at work. */
    method StartMonitors()
      modifies this`startedMonitors
      ensures startedMonitors == old(startedMonitors) + BindingMonitorLinks.Keys
    {
      var ids := BindingMonitorLinks.Keys;
      while ids != {}
        invariant ids <= BindingMonitorLinks.Keys
        invariant startedMonitors == old(startedMonitors) + (BindingMonitorLinks.Keys - ids)
        decreases |ids|
      {
        var id :| id in ids;
        startedMonitors := startedMonitors + {id};
        ids := ids - {id};
      }
    }

    method CanHandleKubeEvent(e: KubeEvent) returns (r: bool)
      ensures r <==> e.monitorId in BindingMonitorLinks
    {
      var keys := BindingMonitorLinks.Keys;
      while keys != {}
        invariant keys <= BindingMonitorLinks.Keys
        invariant e.monitorId in BindingMonitorLinks ==> e.monitorId in keys
        decreases |keys|
      {
        var key :| key in keys;
        if key == e.monitorId {
          return true;
        }
        keys := keys - {key};
      }
      return false;
    }

    method EnableScheduleBindings(m: ScheduleManager)
      requires Valid() && m.Valid()
      modifies this`ScheduleLinks, m, m.cron
      ensures Valid() && m.Valid()
      ensures m.calls == old(m.calls) + seq(|scheduleBindings|, i requires 0 <= i < |scheduleBindings| =>
                        AddCall(ScheduleEntry(scheduleBindings[i].crontab, scheduleBindings[i].id)))
      ensures forall b :: b in scheduleBindings ==> b.id in ScheduleLinks
      ensures old(ScheduleLinks).Keys <= ScheduleLinks.Keys
    {
      hide Consistent;
      ghost var adds := seq(|scheduleBindings|, i requires 0 <= i < |scheduleBindings| =>
                              AddCall(ScheduleEntry(scheduleBindings[i].crontab, scheduleBindings[i].id)));
      for i := 0 to |scheduleBindings|
        invariant Valid() && m.Valid()
        invariant m.calls == old(m.calls) + adds[..i]
        invariant forall b :: b in scheduleBindings[..i] ==> b.id in ScheduleLinks
        invariant old(ScheduleLinks).Keys <= ScheduleLinks.Keys
      {
        var config := scheduleBindings[i];
        assert scheduleBindings[..i + 1] == scheduleBindings[..i] + [config];
        assert adds[..i + 1] == adds[..i] + [adds[i]];
        ScheduleLinks := ScheduleLinks[config.id := config];
        m.Add(ScheduleEntry(config.crontab, config.id));
      }
      assert adds[..|scheduleBindings|] == adds;
      assert scheduleBindings[..|scheduleBindings|] == scheduleBindings;
    }

    method DisableScheduleBindings(m: ScheduleManager)
      requires Valid() && m.Valid()
      modifies this`ScheduleLinks, m, m.cron
      ensures Valid() && m.Valid()
      ensures forall b :: b in scheduleBindings ==> b.id !in ScheduleLinks
      ensures m.calls == old(m.calls) + seq(|scheduleBindings|, i requires 0 <= i < |scheduleBindings| =>
                        RemoveCall(ScheduleEntry(scheduleBindings[i].crontab, scheduleBindings[i].id)))
    {
      hide Consistent;
      ghost var removes := seq(|scheduleBindings|, i requires 0 <= i < |scheduleBindings| =>
                                 RemoveCall(ScheduleEntry(scheduleBindings[i].crontab, scheduleBindings[i].id)));
      for i := 0 to |scheduleBindings|
        invariant Valid() && m.Valid()
        invariant m.calls == old(m.calls) + removes[..i]
        invariant forall b :: b in scheduleBindings[..i] ==> b.id !in ScheduleLinks
      {
        var config := scheduleBindings[i];
        assert scheduleBindings[..i + 1] == scheduleBindings[..i] + [config];
        assert removes[..i + 1] == removes[..i] + [removes[i]];
        m.Remove(ScheduleEntry(config.crontab, config.id));
        ScheduleLinks := ScheduleLinks - {config.id};
      }
      assert removes[..|scheduleBindings|] == removes;
      assert scheduleBindings[..|scheduleBindings|] == scheduleBindings;
    }

    /** The links with the crontab, in any order. */
    method HandleScheduleEvent(crontab: string) returns (ids: seq<string>)
      ensures forall i, j :: 0 <= i < j < |ids| ==> ids[i] != ids[j]
      ensures forall id :: id in ids <==> id in ScheduleLinks && ScheduleLinks[id].crontab == crontab
    {
      ids := [];
      var keys := ScheduleLinks.Keys;
      while keys != {}
        invariant keys <= ScheduleLinks.Keys
        invariant forall i, j :: 0 <= i < j < |ids| ==> ids[i] != ids[j]
        invariant forall id :: id in ids <==> id in ScheduleLinks && id !in keys && ScheduleLinks[id].crontab == crontab
        decreases |keys|
      {
        var id :| id in keys;
        if ScheduleLinks[id].crontab == crontab {
          ids := ids + [id];
        }
        keys := keys - {id};
      }
    }
  }

  /** One context for a Synchronization, and one for each watch event of an Event. */
  method ConvertKubeEventToBindingContext(link: KubernetesBinding, e: KubeEvent)
    returns (bindingContexts: seq<BindingContext>)
    ensures bindingContexts == KubeContexts(link, e)
  {
    bindingContexts := [];
    var bc := BindingContext(link.bindingName, OnKubernetesEvent, e.kubeType, link.group, e.objects);
    match e.kubeType {
      case Synchronization => bindingContexts := bindingContexts + [bc];
      case Event =>
        for i := 0 to e.watchEvents
          invariant |bindingContexts| == i && forall k :: 0 <= k < i ==> bindingContexts[k] == bc
        {
          bindingContexts := bindingContexts + [bc];
        }
      case NoKubeEvent =>
    }
  }

  /** The bindings whose hook is run with the objects that exist at first. */
  function Executed(kubes: Kubes, version0: bool): Kubes {
    if kubes == [] || version0 then []
    else Executed(kubes[..|kubes| - 1], version0)
         + if kubes[|kubes| - 1].executeHookOnSynchronization then [kubes[|kubes| - 1]] else []
  }

  /** The first `n` monitors can be added. */
  ghost predicate AllAdded(monitorFails: nat -> bool, n: nat) {
    forall i :: 0 <= i < n ==> !monitorFails(i)
  }

  lemma NextAdded(monitorFails: nat -> bool, i: nat, n: nat)
    requires i < n && AllAdded(monitorFails, i)
    ensures AllAdded(monitorFails, i + 1) <==> !monitorFails(i)
    ensures monitorFails(i) ==> !AllAdded(monitorFails, n)
  {
  }

  lemma LinkKeepsBindings(h: Hook, b: KubernetesBinding)
    requires LinksAreBindings(h) && b in h.kubes
    ensures LinksAreBindings(h.(monitorLinks := h.monitorLinks[b.monitorId := b]))
  {
  }

  /** Every binding has a monitor. */
  ghost predicate AllLinked(kubes: Kubes, links: map<string, KubernetesBinding>) {
    forall b :: b in kubes ==> b.monitorId in links
  }

  lemma LinkedSnoc(kubes: Kubes, b: KubernetesBinding, links: map<string, KubernetesBinding>)
    requires AllLinked(kubes, links)
    ensures AllLinked(kubes + [b], links[b.monitorId := b])
  {
  }

  lemma ExecutedSnoc(kubes: Kubes, b: KubernetesBinding, version0: bool)
    ensures Executed(kubes + [b], version0)
         == Executed(kubes, version0) + if !version0 && b.executeHookOnSynchronization then [b] else []
  {
    assert (kubes + [b])[..|kubes|] == kubes;
  }

  /** A run of the hook with the objects which existed when the monitor was added; the binding's own
      queue is ignored. */
  function SynchronizationTask(hook: string, b: KubernetesBinding, objects: string -> seq<string>, id: string): Task {
    KubeTask(hook, b, KubeEvent(b.monitorId, Synchronization, objects(b.monitorId), 0), id).(queueName := "main")
  }

  /** The head tasks of a hook whose monitors are enabled: one for each binding to be executed. */
  predicate HandsOver(hook: string, executed: Kubes, objects: string -> seq<string>, heads: seq<Task>) {
    && |heads| == |executed|
    && forall i :: 0 <= i < |heads| ==> heads[i] == SynchronizationTask(hook, executed[i], objects, heads[i].id)
  }

  lemma SynchronizationTaskIs(hook: string, b: KubernetesBinding, objects: string -> seq<string>, id: string)
    ensures SynchronizationTask(hook, b, objects, id)
         == Task(id, HookRun, "main",
                 Some(HookMetadata(hook, b.bindingName, b.group, OnKubernetesEvent,
                                   KubeContexts(b, KubeEvent(b.monitorId, Synchronization, objects(b.monitorId), 0)),
                                   b.allowFailure)), 0)
  {
  }

  lemma ScheduleTaskIs(hook: string, link: ScheduleBinding, id: string)
    ensures ScheduleTask(hook, link, id)
         == Task(id, HookRun, link.queue,
                 Some(HookMetadata(hook, link.bindingName, link.group, Schedule,
                                   [BindingContext(link.bindingName, Schedule, NoKubeEvent, link.group, [])],
                                   link.allowFailure)), 0)
  {
  }

  lemma HandedOver(t: Task, executed: Kubes, objects: string -> seq<string>, heads: seq<Task>)
    requires t.kind == EnableKubernetesBindings && t.meta.Some?
    requires HandsOver(t.meta.value.hookName, executed, objects, heads)
    ensures MainQueueOrder.HandlerReturns(t, TaskResult(Success, heads, [], 0))
  {
    forall x | x in heads ensures MainQueueOrder.IsSynchronizationTask(t.meta.value.hookName, x) {
      var i :| 0 <= i < |heads| && heads[i] == x;
      assert x == SynchronizationTask(t.meta.value.hookName, executed[i], objects, x.id);
    }
  }

  lemma HandsOverIds(hook: string, executed: Kubes, objects: string -> seq<string>, newId: nat -> string,
                     heads: seq<Task>)
    requires |heads| == |executed|
    requires forall i :: 0 <= i < |heads| ==> heads[i] == SynchronizationTask(hook, executed[i], objects, newId(i))
    ensures HandsOver(hook, executed, objects, heads)
    ensures forall i :: 0 <= i < |heads| ==> heads[i].id == newId(i)
  {
  }

  /** Enabling succeeds exactly when every monitor can be added. Then all of them are started, before
      the handler returns, and one run of the hook is handed over for each binding that wants it,
      which is what the order of the main queue relies on. */
  method TaskHandleEnableKubernetesBindings(t: Task, h: HookController, monitorFails: nat -> bool,
                                            objects: string -> seq<string>, newId: nat -> string)
    returns (res: TaskResult)
    requires h.Valid() && t.kind == EnableKubernetesBindings && t.meta.Some? && t.meta.value.hookName == h.name
    modifies h`BindingMonitorLinks, h`startedMonitors
    ensures h.Valid()
    ensures h.startedMonitors ==
              old(h.startedMonitors) + if res.status == Success then h.BindingMonitorLinks.Keys else {}
    ensures MainQueueOrder.HandlerReturns(t, res)
    ensures res.status == if AllAdded(monitorFails, |h.kubernetesBindings|) then Success else Fail
    ensures res.status == Success ==>
      && AllLinked(h.kubernetesBindings, h.BindingMonitorLinks)
      && HandsOver(h.name, Executed(h.kubernetesBindings, h.version0), objects, res.headTasks)
      && (forall i :: 0 <= i < |res.headTasks| ==> res.headTasks[i].id == newId(i))
      && forall i :: 0 <= i < |res.headTasks| ==>
           RunsForSynchronization(h.name, Executed(h.kubernetesBindings, h.version0)[i], objects, res.headTasks[i])
  {
    hide RunsForSynchronization;
    hide SynchronizationTask, HandsOver, Executed, AllAdded, AllLinked, KubeContexts;
    var synchronize, ok := h.EnableKubernetesBindings(monitorFails);
    if !ok {
      return TaskResult(Fail, [], [], 0);
    }
    var hookRunTasks: seq<Task> := [];
    for k := 0 to |synchronize|
      modifies {}
      invariant |hookRunTasks| == k
      invariant forall i :: 0 <= i < k ==>
          hookRunTasks[i] == SynchronizationTask(h.name, synchronize[i], objects, newId(i))
    {
      var link := synchronize[k];
      var firstKubeEvent := KubeEvent(link.monitorId, Synchronization, objects(link.monitorId), 0);
      var contexts := ConvertKubeEventToBindingContext(link, firstKubeEvent);
      SynchronizationTaskIs(h.name, link, objects, newId(k));
      hookRunTasks := hookRunTasks +
        [Task(newId(k), HookRun, "main",
              Some(HookMetadata(h.name, link.bindingName, link.group, OnKubernetesEvent, contexts, link.allowFailure)),
              0)];
    }
    h.StartMonitors();
    HandsOverIds(h.name, synchronize, objects, newId, hookRunTasks);
    HandedOverFields(h.name, synchronize, objects, hookRunTasks);
    HandedOver(t, synchronize, objects, hookRunTasks);
    res := TaskResult(Success, hookRunTasks, [], 0);
  }

  // ---------- From the configuration to the first runs ----------

  /** The positions, in order, of the kubernetes bindings which are not marked "false". */
  ghost predicate AreUnmarked(v1: HookConfigV1, at: seq<nat>) {
    && (forall k :: 0 <= k < |at| ==> at[k] < |v1.onKubernetesEvent|)
    && (forall j, k :: 0 <= j < k < |at| ==> at[j] < at[k])
    && forall i: nat :: i < |v1.onKubernetesEvent| ==>
         (i in at <==> v1.onKubernetesEvent[i].executeHookOnSynchronization != "false")
  }

  /** The task runs the hook once for the binding as configured, with these objects, on the main queue. */
  ghost predicate RunsAsConfigured(hook: string, c: KubernetesConfigV1, objects: seq<string>, t: Task) {
    && RunsFor(t, hook, if c.name == "" then "kubernetes" else c.name, c.group, OnKubernetesEvent, c.allowFailure,
               "main")
    && |t.meta.value.contexts| == 1 && GetsObjects(t, Synchronization, objects)
  }

  ghost predicate AreRuns(v1: HookConfigV1, monitorIds: nat -> string, at: seq<nat>, hook: string,
                          objects: string -> seq<string>, heads: seq<Task>) {
    && |heads| == |at| && (forall k :: 0 <= k < |at| ==> at[k] < |v1.onKubernetesEvent|)
    && forall k :: 0 <= k < |at| ==>
         RunsAsConfigured(hook, v1.onKubernetesEvent[at[k]], objects(monitorIds(at[k])), heads[k])
  }

  lemma {:induction false} ExecutedPositions(kubes: Kubes) returns (at: seq<nat>)
    ensures |at| == |Executed(kubes, false)|
    ensures forall k :: 0 <= k < |at| ==> at[k] < |kubes| && Executed(kubes, false)[k] == kubes[at[k]]
    ensures forall j, k :: 0 <= j < k < |at| ==> at[j] < at[k]
    ensures forall i: nat :: i < |kubes| ==> (i in at <==> kubes[i].executeHookOnSynchronization)
  {
    at := [];
    if kubes != [] {
      var n := |kubes| - 1;
      at := ExecutedPositions(kubes[..n]);
      assert forall i: nat :: i < n ==> kubes[..n][i] == kubes[i];
      if kubes[n].executeHookOnSynchronization {
        at := at + [n];
      }
    }
  }

  /** A hook whose configuration was accepted, and whose monitors are enabled, is run first for exactly the
      bindings which are not marked "false", in their order. */
  lemma ConfiguredRunsAreHandedOver(v1: HookConfigV1, monitorIds: nat -> string, kubes: Kubes, hook: string,
                                    objects: string -> seq<string>, heads: seq<Task>)
    requires |kubes| == |v1.onKubernetesEvent|
    requires forall i :: 0 <= i < |kubes| ==> IsConverted(v1.onKubernetesEvent[i], monitorIds(i), kubes[i])
    requires HandsOver(hook, Executed(kubes, false), objects, heads)
    ensures exists at: seq<nat> :: AreUnmarked(v1, at) && AreRuns(v1, monitorIds, at, hook, objects, heads)
  {
    hide HandsOver, Executed;
    var at := ExecutedPositions(kubes);
    HandedOverFields(hook, Executed(kubes, false), objects, heads);
    forall k | 0 <= k < |at|
      ensures RunsAsConfigured(hook, v1.onKubernetesEvent[at[k]], objects(monitorIds(at[k])), heads[k])
    {
      assert RunsForSynchronization(hook, kubes[at[k]], objects, heads[k]);
      assert IsConverted(v1.onKubernetesEvent[at[k]], monitorIds(at[k]), kubes[at[k]]);
    }
    assert AreUnmarked(v1, at) by {
      forall i: nat | i < |kubes| ensures i in at <==> v1.onKubernetesEvent[i].executeHookOnSynchronization != "false" {
        assert IsConverted(v1.onKubernetesEvent[i], monitorIds(i), kubes[i]);
      }
    }
  }

  // ---------- All hooks ----------

  class HookManager {
    const hooks: seq<HookController>

    constructor (hooks: seq<HookController>)
      ensures this.hooks == hooks
    {
      this.hooks := hooks;
    }

    ghost predicate Valid()
      reads this, hooks
    {
      forall i :: 0 <= i < |hooks| ==> hooks[i].Valid()
    }

    function Views(): (r: seq<Hook>)
      reads this, hooks
      ensures |r| == |hooks| && forall i :: 0 <= i < |hooks| ==> r[i] == hooks[i].View()
    {
      seq(|hooks|, i requires 0 <= i < |hooks| reads this, hooks => hooks[i].View())
    }

    /** The hooks of the index for kubernetes bindings are asked in order. */
    method HandleKubeEvent(e: KubeEvent, newId: nat -> string) returns (tasks: seq<Task>)
      requires Valid()
      ensures tasks == KubeTasks(Views(), e, newId)
    {
      tasks := [];
      for i := 0 to |hooks|
        invariant tasks == KubeTasks(Views()[..i], e, newId)
      {
        var h := hooks[i];
        assert Views()[..i + 1][..i] == Views()[..i];
        if |h.kubernetesBindings| > 0 {
          var canHandle := h.CanHandleKubeEvent(e);
          if canHandle {
            var link := h.BindingMonitorLinks[e.monitorId];
            var contexts := ConvertKubeEventToBindingContext(link, e);
            tasks := tasks +
              [Task(newId(|tasks|), HookRun, link.queue,
                    Some(HookMetadata(h.name, link.bindingName, link.group, OnKubernetesEvent, contexts,
                                      link.allowFailure)), 0)];
          }
        } else {
          assert hooks[i].Valid();
        }
      }
      assert Views()[..|hooks|] == Views();
    }

    method HandleScheduleEvent(crontab: string, newId: nat -> string) returns (tasks: seq<Task>)
      requires Valid()
      ensures exists origins :: AreScheduleTasks(Views(), crontab, newId, tasks, origins)
    {
      hide AreScheduleTasks, ScheduleTask, HookTasks, HookOrigins;
      tasks := [];
      ghost var origins := [];
      NoScheduleTasks(crontab, newId);
      assert Views()[..0] == [];
      for i := 0 to |hooks|
        invariant AreScheduleTasks(Views()[..i], crontab, newId, tasks, origins)
      {
        var h := hooks[i];
        var ids := [];
        if |h.scheduleBindings| > 0 {
          ids := h.HandleScheduleEvent(crontab);
        } else {
          assert hooks[i].Valid();
        }
        ghost var first := tasks;
        ghost var firstOrigins := origins;
        NoBinding(h.View(), i, |first|, newId);
        assert ids[..0] == [];
        for k := 0 to |ids|
          invariant tasks == first + HookTasks(h.View(), ids[..k], |first|, newId)
          invariant origins == firstOrigins + HookOrigins(i, ids[..k])
        {
          NextBinding(h.View(), i, ids, k, |first|, newId);
          var link := h.ScheduleLinks[ids[k]];
          var bc := BindingContext(link.bindingName, Schedule, NoKubeEvent, link.group, []);
          ScheduleTaskIs(h.name, link, newId(|tasks|));
          tasks := tasks +
            [Task(newId(|tasks|), HookRun, link.queue,
                  Some(HookMetadata(h.name, link.bindingName, link.group, Schedule, [bc], link.allowFailure)), 0)];
          origins := origins + [Origin(i, ids[k])];
        }
        assert ids[..|ids|] == ids;
        NextHook(Views(), i, crontab, newId, first, firstOrigins, ids);
      }
      assert Views()[..|hooks|] == Views();
    }
  }

  lemma NoScheduleTasks(crontab: string, newId: nat -> string)
    ensures AreScheduleTasks([], crontab, newId, [], [])
  {
  }

  function HookTasks(h: Hook, ids: seq<string>, first: nat, newId: nat -> string): (r: seq<Task>)
    requires forall id :: id in ids ==> id in h.scheduleLinks
    ensures |r| == |ids|
  {
    seq(|ids|, k requires 0 <= k < |ids| => ScheduleTask(h.name, h.scheduleLinks[ids[k]], newId(first + k)))
  }

  function HookOrigins(hook: nat, ids: seq<string>): (r: seq<Origin>)
    ensures |r| == |ids|
  {
    seq(|ids|, k requires 0 <= k < |ids| => Origin(hook, ids[k]))
  }

  lemma NoBinding(h: Hook, hook: nat, first: nat, newId: nat -> string)
    ensures HookTasks(h, [], first, newId) == [] && HookOrigins(hook, []) == []
  {
  }

  lemma NextBinding(h: Hook, hook: nat, ids: seq<string>, k: nat, first: nat, newId: nat -> string)
    requires k < |ids| && forall id :: id in ids ==> id in h.scheduleLinks
    ensures HookTasks(h, ids[..k + 1], first, newId)
         == HookTasks(h, ids[..k], first, newId) + [ScheduleTask(h.name, h.scheduleLinks[ids[k]], newId(first + k))]
    ensures HookOrigins(hook, ids[..k + 1]) == HookOrigins(hook, ids[..k]) + [Origin(hook, ids[k])]
  {
  }

  lemma OriginsListed(hooks: seq<Hook>, i: nat, crontab: string, origins: seq<Origin>, ids: seq<string>)
    requires i < |hooks| && (forall o :: o in origins <==> Fits(hooks[..i], crontab, o))
    requires forall id :: id in ids <==> id in hooks[i].scheduleLinks && hooks[i].scheduleLinks[id].crontab == crontab
    ensures forall o :: o in origins + HookOrigins(i, ids) <==> Fits(hooks[..i + 1], crontab, o)
  {
    var all := origins + HookOrigins(i, ids);
    forall o ensures o in all <==> Fits(hooks[..i + 1], crontab, o) {
      if o.hook == i {
        if o.id in ids {
          var k :| 0 <= k < |ids| && ids[k] == o.id;
          assert all[|origins| + k] == o;
        }
      } else {
        assert Fits(hooks[..i + 1], crontab, o) <==> Fits(hooks[..i], crontab, o);
      }
    }
  }

  lemma OriginsDistinct(hooks: seq<Hook>, i: nat, crontab: string, origins: seq<Origin>, ids: seq<string>)
    requires i < |hooks| && (forall o :: o in origins <==> Fits(hooks[..i], crontab, o))
    requires forall a, b :: 0 <= a < b < |origins| ==> origins[a] != origins[b]
    requires forall a, b :: 0 <= a < b < |ids| ==> ids[a] != ids[b]
    ensures
      var all := origins + HookOrigins(i, ids);
      forall a, b :: 0 <= a < b < |all| ==> all[a] != all[b]
  {
    forall a | 0 <= a < |origins| ensures origins[a].hook < i {
      assert Fits(hooks[..i], crontab, origins[a]);
    }
  }

  lemma StillMade(hooks: seq<Hook>, i: nat, crontab: string, newId: nat -> string, tasks: seq<Task>,
                  origins: seq<Origin>)
    requires i < |hooks| && MadeFrom(hooks[..i], crontab, newId, 0, tasks, origins)
    ensures MadeFrom(hooks[..i + 1], crontab, newId, 0, tasks, origins)
  {
    hide ScheduleTask;
    forall k | 0 <= k < |tasks|
      ensures Fits(hooks[..i + 1], crontab, origins[k])
      ensures tasks[k] == OriginTask(hooks[..i + 1], crontab, origins[k], newId(0 + k))
    {
      assert Fits(hooks[..i], crontab, origins[k]);
    }
  }

  lemma HookMakes(hooks: seq<Hook>, i: nat, crontab: string, newId: nat -> string, first: nat, ids: seq<string>)
    requires i < |hooks|
    requires forall id :: id in ids ==> id in hooks[i].scheduleLinks && hooks[i].scheduleLinks[id].crontab == crontab
    ensures MadeFrom(hooks[..i + 1], crontab, newId, first, HookTasks(hooks[i], ids, first, newId), HookOrigins(i, ids))
  {
    hide ScheduleTask;
    forall k | 0 <= k < |ids| ensures Fits(hooks[..i + 1], crontab, Origin(i, ids[k])) {
      assert ids[k] in ids;
    }
  }

  lemma MadeTogether(hooks: seq<Hook>, crontab: string, newId: nat -> string, a: seq<Task>, b: seq<Task>,
                     origins: seq<Origin>, more: seq<Origin>)
    requires MadeFrom(hooks, crontab, newId, 0, a, origins) && MadeFrom(hooks, crontab, newId, |a|, b, more)
    ensures MadeFrom(hooks, crontab, newId, 0, a + b, origins + more)
  {
    hide Fits, OriginTask;
  }

  lemma NextHook(hooks: seq<Hook>, i: nat, crontab: string, newId: nat -> string, tasks: seq<Task>,
                 origins: seq<Origin>, ids: seq<string>)
    requires i < |hooks| && AreScheduleTasks(hooks[..i], crontab, newId, tasks, origins)
    requires forall a, b :: 0 <= a < b < |ids| ==> ids[a] != ids[b]
    requires forall id :: id in ids <==> id in hooks[i].scheduleLinks && hooks[i].scheduleLinks[id].crontab == crontab
    ensures AreScheduleTasks(hooks[..i + 1], crontab, newId, tasks + HookTasks(hooks[i], ids, |tasks|, newId),
                             origins + HookOrigins(i, ids))
  {
    hide MadeFrom, Fits, HookTasks, HookOrigins;
    OriginsListed(hooks, i, crontab, origins, ids);
    OriginsDistinct(hooks, i, crontab, origins, ids);
    StillMade(hooks, i, crontab, newId, tasks, origins);
    HookMakes(hooks, i, crontab, newId, |tasks|, ids);
    MadeTogether(hooks[..i + 1], crontab, newId, tasks, HookTasks(hooks[i], ids, |tasks|, newId),
                 origins, HookOrigins(i, ids));
  }

  // ---------- Queues ----------

  class TaskQueueSet {
    var Queues: map<string, seq<Task>>

    constructor ()
      ensures Queues == map[]
    {
      Queues := map[];
    }

    method NewNamedQueue(name: string)
      modifies this
      ensures Queues == old(Queues)[name := []]
    {
      Queues := Queues[name := []];
    }

    method AddScheduleQueues(bindings: seq<ScheduleBinding>)
      modifies this
      ensures OnlyAdded(old(Queues), Queues, set b | b in bindings :: b.queue)
    {
      assert bindings[..|bindings|] == bindings;
      for i := 0 to |bindings|
        invariant OnlyAdded(old(Queues), Queues, set b | b in bindings[..i] :: b.queue)
      {
        assert bindings[..i + 1] == bindings[..i] + [bindings[i]];
        if bindings[i].queue !in Queues {
          NewNamedQueue(bindings[i].queue);
        }
      }
    }

    method AddKubeQueues(bindings: Kubes)
      modifies this
      ensures OnlyAdded(old(Queues), Queues, set b | b in bindings :: b.queue)
    {
      assert bindings[..|bindings|] == bindings;
      for i := 0 to |bindings|
        invariant OnlyAdded(old(Queues), Queues, set b | b in bindings[..i] :: b.queue)
      {
        assert bindings[..i + 1] == bindings[..i] + [bindings[i]];
        if bindings[i].queue !in Queues {
          NewNamedQueue(bindings[i].queue);
        }
      }
    }

    /** Creates the queue of every binding that has none yet. */
    method InitAndStartHookQueues(hooks: seq<Hook>)
      modifies this
      ensures OnlyAdded(old(Queues), Queues, ScheduleQueues(hooks) + KubeQueues(hooks))
    {
      hide OnlyAdded, KubeQueues, ScheduleQueues;
      NothingAdded(Queues);
      assert hooks[..|hooks|] == hooks;
      NoHooksNoQueues(hooks[..0]);
      for i := 0 to |hooks|
        invariant OnlyAdded(old(Queues), Queues, ScheduleQueues(hooks[..i]))
      {
        QueuesOfNext(hooks, i);
        ghost var before, more := Queues, set b | b in hooks[i].schedules :: b.queue;
        AddScheduleQueues(hooks[i].schedules);
        AddedTogether(old(Queues), before, Queues, ScheduleQueues(hooks[..i]), more);
      }
      assert ScheduleQueues(hooks) + {} == ScheduleQueues(hooks);
      for i := 0 to |hooks|
        invariant OnlyAdded(old(Queues), Queues, ScheduleQueues(hooks) + KubeQueues(hooks[..i]))
      {
        QueuesOfNext(hooks, i);
        ghost var before, more := Queues, set b | b in hooks[i].kubes :: b.queue;
        AddKubeQueues(hooks[i].kubes);
        AddedTogether(old(Queues), before, Queues, ScheduleQueues(hooks) + KubeQueues(hooks[..i]), more);
        assert (ScheduleQueues(hooks) + KubeQueues(hooks[..i])) + more
            == ScheduleQueues(hooks) + KubeQueues(hooks[..i + 1]);
      }
    }

    /** The event loop appends each task to its queue; a task without a queue is only reported. */
    method AddTasks(tailTasks: seq<Task>)
      modifies this
      ensures Grown(old(Queues), Queues, tailTasks)
    {
      hide Grown;
      NothingGrown(Queues);
      assert tailTasks[..0] == [] && tailTasks[..|tailTasks|] == tailTasks;
      for i := 0 to |tailTasks|
        invariant Grown(old(Queues), Queues, tailTasks[..i])
      {
        var resTask := tailTasks[i];
        GrownByOne(old(Queues), Queues, tailTasks, i);
        if resTask.queueName in Queues {
          Queues := Queues[resTask.queueName := Queues[resTask.queueName] + [resTask]];
        }
      }
    }
  }

  /** The queues of these names exist, the new ones empty and the others as they were. */
  ghost predicate OnlyAdded(before: map<string, seq<Task>>, after: map<string, seq<Task>>, names: set<string>) {
    && after.Keys == before.Keys + names
    && forall name :: name in after ==> after[name] == if name in before then before[name] else []
  }

  lemma NothingAdded(queues: map<string, seq<Task>>)
    ensures OnlyAdded(queues, queues, {})
  {
  }

  lemma NoHooksNoQueues(hooks: seq<Hook>)
    requires hooks == []
    ensures KubeQueues(hooks) == ScheduleQueues(hooks) == {}
  {
  }

  lemma AddedTogether(before: map<string, seq<Task>>, middle: map<string, seq<Task>>, after: map<string, seq<Task>>,
                      names: set<string>, more: set<string>)
    requires OnlyAdded(before, middle, names) && OnlyAdded(middle, after, more)
    ensures OnlyAdded(before, after, names + more)
  {
  }

  /** Each queue has grown by its own tasks, in order. */
  ghost predicate Grown(before: map<string, seq<Task>>, after: map<string, seq<Task>>, tasks: seq<Task>) {
    && after.Keys == before.Keys
    && forall name :: name in after ==> after[name] == before[name] + ForQueue(tasks, name)
  }

  lemma NothingGrown(queues: map<string, seq<Task>>)
    ensures Grown(queues, queues, [])
  {
  }

  lemma GrownByOne(before: map<string, seq<Task>>, queues: map<string, seq<Task>>, tasks: seq<Task>, i: nat)
    requires i < |tasks| && Grown(before, queues, tasks[..i])
    ensures var t := tasks[i];
      Grown(before, if t.queueName in queues then queues[t.queueName := queues[t.queueName] + [t]] else queues,
            tasks[..i + 1])
  {
    hide ForQueue;
    ForQueueOfNext(tasks, i);
  }

  // ---------- Events and their tasks ----------

  ghost predicate AllValid(hooks: seq<Hook>) {
    forall i :: 0 <= i < |hooks| ==> LinksAreBindings(hooks[i])
  }

  /** Monitor ids are drawn at random: no two hooks have one in common. */
  ghost predicate UniqueMonitorIds(hooks: seq<Hook>) {
    forall i, j, a, b ::
      (0 <= i < |hooks| && 0 <= j < |hooks| && a in hooks[i].kubes && b in hooks[j].kubes && a.monitorId == b.monitorId)
      ==> i == j
  }

  lemma {:induction false} NoTaskWithoutLink(hooks: seq<Hook>, e: KubeEvent, newId: nat -> string)
    requires forall i :: 0 <= i < |hooks| ==> e.monitorId !in hooks[i].monitorLinks
    ensures KubeTasks(hooks, e, newId) == []
  {
    if hooks != [] {
      NoTaskWithoutLink(hooks[..|hooks| - 1], e, newId);
    }
  }

  lemma {:induction false} TaskOfOnlyLink(hooks: seq<Hook>, e: KubeEvent, newId: nat -> string, i: nat)
    requires i < |hooks| && e.monitorId in hooks[i].monitorLinks
    requires forall j :: 0 <= j < |hooks| && j != i ==> e.monitorId !in hooks[j].monitorLinks
    ensures KubeTasks(hooks, e, newId) == [KubeTask(hooks[i].name, hooks[i].monitorLinks[e.monitorId], e, newId(0))]
  {
    var before := hooks[..|hooks| - 1];
    if i == |hooks| - 1 {
      NoTaskWithoutLink(before, e, newId);
    } else {
      TaskOfOnlyLink(before, e, newId, i);
    }
  }

  /** An event of a monitor that some hook has registered makes exactly one task, for that hook and
      for the queue of the monitor's binding. */
  lemma OneTaskPerKubeEvent(hooks: seq<Hook>, e: KubeEvent, newId: nat -> string, i: nat)
    requires AllValid(hooks) && UniqueMonitorIds(hooks)
    requires i < |hooks| && e.monitorId in hooks[i].monitorLinks
    ensures
      var tasks := KubeTasks(hooks, e, newId);
      && |tasks| == 1
      && tasks[0].meta.Some? && tasks[0].meta.value.hookName == hooks[i].name
      && Contexts(tasks[0]) == KubeContexts(hooks[i].monitorLinks[e.monitorId], e)
      && (e.kubeType == Event ==> RunsForEvent(hooks[i], e, tasks[0]))
      && exists b :: b in hooks[i].kubes && b.monitorId == e.monitorId && b.queue == tasks[0].queueName
                     && b.bindingName == tasks[0].meta.value.binding
  {
    var b := hooks[i].monitorLinks[e.monitorId];
    assert b in hooks[i].kubes && b.monitorId == e.monitorId;
    forall j, c | 0 <= j < |hooks| && c in hooks[j].kubes && c.monitorId == e.monitorId ensures j == i {}
    TaskOfOnlyLink(hooks, e, newId, i);
    if e.kubeType == Event {
      EventTaskFields(hooks[i], e, newId(0));
    }
  }

  /** All tasks of an Event, also where several hooks registered the monitor. */
  lemma {:induction false} EventTasksFields(hooks: seq<Hook>, e: KubeEvent, newId: nat -> string, t: Task)
    requires e.kubeType == Event && t in KubeTasks(hooks, e, newId)
    ensures exists i :: 0 <= i < |hooks| && RunsForEvent(hooks[i], e, t)
  {
    hide KubeTask, RunsForEvent;
    var n := |hooks| - 1;
    var before := KubeTasks(hooks[..n], e, newId);
    if t in before {
      EventTasksFields(hooks[..n], e, newId, t);
      var i :| 0 <= i < n && RunsForEvent(hooks[..n][i], e, t);
      assert hooks[..n][i] == hooks[i];
    } else {
      EventTaskFields(hooks[n], e, newId(|before|));
    }
  }

  /** All tasks of a crontab. */
  lemma ScheduleTasksFields(hooks: seq<Hook>, crontab: string, newId: nat -> string, tasks: seq<Task>,
                            origins: seq<Origin>, k: nat)
    requires AreScheduleTasks(hooks, crontab, newId, tasks, origins) && k < |tasks|
    ensures |origins| == |tasks| && Fits(hooks, crontab, origins[k])
    ensures var h := hooks[origins[k].hook];
      var link := h.scheduleLinks[origins[k].id];
      && link.crontab == crontab && tasks[k].id == newId(k)
      && RunsFor(tasks[k], h.name, link.bindingName, link.group, Schedule, link.allowFailure, link.queue)
      && |tasks[k].meta.value.contexts| == 1 && GetsObjects(tasks[k], NoKubeEvent, [])
  {
    var o := origins[k];
    ScheduleTaskFields(hooks[o.hook].name, hooks[o.hook].scheduleLinks[o.id], newId(k));
  }

  lemma {:induction false} QueuesAreNamed(hooks: seq<Hook>, i: nat)
    requires i < |hooks|
    ensures forall b :: b in hooks[i].kubes ==> b.queue in KubeQueues(hooks)
    ensures forall b :: b in hooks[i].schedules ==> b.queue in ScheduleQueues(hooks)
  {
    if i < |hooks| - 1 {
      QueuesAreNamed(hooks[..|hooks| - 1], i);
    }
  }

  lemma {:induction false} KubeTaskQueues(hooks: seq<Hook>, e: KubeEvent, newId: nat -> string, n: nat)
    requires AllValid(hooks) && n <= |hooks|
    ensures forall t :: t in KubeTasks(hooks[..n], e, newId) ==> t.queueName in KubeQueues(hooks)
  {
    if n > 0 {
      KubeTaskQueues(hooks, e, newId, n - 1);
      assert hooks[..n][..n - 1] == hooks[..n - 1];
      QueuesAreNamed(hooks, n - 1);
    }
  }

  lemma ScheduleTaskQueues(hooks: seq<Hook>, crontab: string, newId: nat -> string, tasks: seq<Task>,
                           origins: seq<Origin>)
    requires AllValid(hooks) && AreScheduleTasks(hooks, crontab, newId, tasks, origins)
    ensures forall t :: t in tasks ==> t.queueName in ScheduleQueues(hooks)
  {
    forall i | 0 <= i < |tasks| ensures tasks[i].queueName in ScheduleQueues(hooks) {
      QueuesAreNamed(hooks, origins[i].hook);
    }
  }

  /** Distribution to queues loses and invents nothing: each task is in the part of its own queue as
      often as it was created, and in no other part. */
  lemma {:induction false} EachInItsQueue(tasks: seq<Task>, name: string, t: Task)
    ensures multiset(ForQueue(tasks, name))[t] == if t.queueName == name then multiset(tasks)[t] else 0
  {
    if tasks != [] {
      var before, last := tasks[..|tasks| - 1], tasks[|tasks| - 1];
      assert tasks == before + [last];
      EachInItsQueue(before, name, t);
    }
  }

  lemma {:induction false} ForQueueAppend(a: seq<Task>, b: seq<Task>, name: string)
    ensures ForQueue(a + b, name) == ForQueue(a, name) + ForQueue(b, name)
  {
    if b == [] {
      assert a + b == a;
    } else {
      var before, last := b[..|b| - 1], b[|b| - 1];
      assert (a + b)[..|a + b| - 1] == a + before;
      ForQueueAppend(a, before, name);
    }
  }

  /** The tasks of events are what the order of the main queue and of every other queue relies on. */
  lemma EventTasksAreEventTasks(cfg: Config, hook: string, link: KubernetesBinding, e: KubeEvent,
                                schedule: ScheduleBinding, id: string)
    requires e.kubeType == Event
    ensures cfg.queueName == link.queue ==> MainQueueOrder.IsEventTask(cfg, KubeTask(hook, link, e, id))
    ensures cfg.queueName == schedule.queue ==> MainQueueOrder.IsEventTask(cfg, ScheduleTask(hook, schedule, id))
  {
    assert forall c :: c in KubeContexts(link, e) ==> c.kubeType == Event;
    var t := ScheduleTask(hook, schedule, id);
    assert forall c :: c in Contexts(t) ==> c.kubeType == NoKubeEvent;
  }

  // ---------- The event loop ----------

  datatype OperatorEvent = OnKube(event: KubeEvent) | OnCrontab(crontab: string)

  /** The tasks which one event makes. */
  ghost predicate AreTasksOf(hooks: seq<Hook>, event: OperatorEvent, newId: nat -> string, tasks: seq<Task>) {
    match event
    case OnKube(e) => tasks == KubeTasks(hooks, e, newId)
    case OnCrontab(crontab) => exists origins :: AreScheduleTasks(hooks, crontab, newId, tasks, origins)
  }

  /** The same hooks later: nothing that was enabled is disabled. */
  ghost predicate Extends(before: seq<Hook>, after: seq<Hook>) {
    && |before| == |after|
    && forall i :: 0 <= i < |before| ==>
         && after[i].name == before[i].name
         && after[i].kubes == before[i].kubes && after[i].schedules == before[i].schedules
         && before[i].monitorLinks.Keys <= after[i].monitorLinks.Keys
         && before[i].scheduleLinks.Keys <= after[i].scheduleLinks.Keys
  }

  lemma {:induction false} SameQueues(before: seq<Hook>, after: seq<Hook>)
    requires Extends(before, after)
    ensures KubeQueues(after) == KubeQueues(before) && ScheduleQueues(after) == ScheduleQueues(before)
  {
    if before != [] {
      SameQueues(before[..|before| - 1], after[..|after| - 1]);
    }
  }

  /** What happens between two rounds of the event loop or in one: an event, or a handler of the main
      queue enables the bindings of a hook. */
  datatype Round =
    | OnEvent(event: OperatorEvent, newId: nat -> string)
    | EnableMonitors(hook: nat, monitorFails: nat -> bool)
    | EnableSchedules(hook: nat)

  ghost predicate RoundMakes(hooks: seq<Hook>, round: Round, tasks: seq<Task>) {
    AllValid(hooks) && if round.OnEvent? then AreTasksOf(hooks, round.event, round.newId, tasks) else tasks == []
  }

  /** Every task names one of the queues, and each queue is extended by exactly its tasks in order. */
  ghost predicate Distributed(before: map<string, seq<Task>>, after: map<string, seq<Task>>, tasks: seq<Task>) {
    && Grown(before, after, tasks)
    && forall t :: t in tasks ==> t.queueName in after
  }

  lemma NothingDistributed(queues: map<string, seq<Task>>)
    ensures Distributed(queues, queues, [])
  {
  }

  lemma DistributedTogether(before: map<string, seq<Task>>, middle: map<string, seq<Task>>,
                            after: map<string, seq<Task>>,
                            a: seq<Task>, b: seq<Task>)
    requires Distributed(before, middle, a) && Distributed(middle, after, b)
    ensures Distributed(before, after, a + b)
  {
    forall name | name in after ensures after[name] == before[name] + ForQueue(a + b, name) {
      ForQueueAppend(a, b, name);
    }
  }

  /** What the rounds did, from the hooks `first` to the hooks `last`: each round found the hooks as
      the ones before left them. */
  ghost predicate Log(first: seq<Hook>, rounds: seq<Round>, seen: seq<seq<Hook>>, created: seq<seq<Task>>,
                      last: seq<Hook>) {
    && |seen| == |created| == |rounds|
    && if rounds == [] then last == first
       else
         var n := |rounds| - 1;
         && Log(first, rounds[..n], seen[..n], created[..n], seen[n])
         && RoundMakes(seen[n], rounds[n], created[n])
         && Extends(seen[n], last)
  }

  lemma {:induction false} ExtendsFirst(first: seq<Hook>, rounds: seq<Round>, seen: seq<seq<Hook>>,
                                        created: seq<seq<Task>>, last: seq<Hook>)
    requires Log(first, rounds, seen, created, last)
    ensures Extends(first, last)
  {
    if rounds != [] {
      var n := |rounds| - 1;
      ExtendsFirst(first, rounds[..n], seen[..n], created[..n], seen[n]);
    }
  }

  /** In any round of a log the tasks are those of the hooks with at least the first ones' links. */
  lemma {:induction false} LogAt(first: seq<Hook>, rounds: seq<Round>, seen: seq<seq<Hook>>, created: seq<seq<Task>>,
                                 last: seq<Hook>, k: nat)
    requires Log(first, rounds, seen, created, last) && k < |rounds|
    ensures RoundMakes(seen[k], rounds[k], created[k]) && Extends(first, seen[k])
  {
    var n := |rounds| - 1;
    if k < n {
      LogAt(first, rounds[..n], seen[..n], created[..n], seen[n], k);
    } else {
      ExtendsFirst(first, rounds[..n], seen[..n], created[..n], seen[n]);
    }
  }

  lemma LinkedLater(first: seq<Hook>, later: seq<Hook>, monitorId: string, i: nat)
    requires Extends(first, later) && UniqueMonitorIds(first) && i < |first| && monitorId in first[i].monitorLinks
    ensures UniqueMonitorIds(later) && i < |later| && monitorId in later[i].monitorLinks
    ensures later[i].name == first[i].name
  {
    forall i, j, a, b | 0 <= i < |later| && 0 <= j < |later| && a in later[i].kubes && b in later[j].kubes
                        && a.monitorId == b.monitorId
      ensures i == j
    {
      assert a in first[i].kubes && b in first[j].kubes;
    }
  }

  /** In any round after a hook has registered a monitor, an event of this monitor makes exactly one
      task, for this hook. */
  lemma RegisteredEventIsQueued(first: seq<Hook>, rounds: seq<Round>, seen: seq<seq<Hook>>, created: seq<seq<Task>>,
                                last: seq<Hook>, k: nat, i: nat)
    requires Log(first, rounds, seen, created, last) && k < |rounds|
    requires rounds[k].OnEvent? && rounds[k].event.OnKube?
    requires UniqueMonitorIds(first) && i < |first| && rounds[k].event.event.monitorId in first[i].monitorLinks
    ensures |created[k]| == 1 && created[k][0].meta.Some? && created[k][0].meta.value.hookName == first[i].name
    ensures rounds[k].event.event.kubeType == Event ==>
      && |created[k][0].meta.value.contexts| == rounds[k].event.event.watchEvents
      && GetsObjects(created[k][0], Event, rounds[k].event.event.objects)
  {
    assert |seen| == |rounds| == |created|;
    hide Log, KubeTasks, KubeContexts, KubeTask, UniqueMonitorIds, AllValid, Extends;
    LogAt(first, rounds, seen, created, last, k);
    LinkedLater(first, seen[k], rounds[k].event.event.monitorId, i);
    OneTaskPerKubeEvent(seen[k], rounds[k].event.event, rounds[k].newId, i);
  }

  class ManagerEventsHandler {
    const manager: HookManager
    const queues: TaskQueueSet
    const schedules: ScheduleManager

    constructor (manager: HookManager, queues: TaskQueueSet, schedules: ScheduleManager)
      ensures this.manager == manager && this.queues == queues && this.schedules == schedules
    {
      this.manager, this.queues, this.schedules := manager, queues, schedules;
    }

    /** Every binding has its queue, as it does after InitAndStartHookQueues. */
    ghost predicate Valid()
      reads this, manager, manager.hooks, queues, schedules, schedules.cron
    {
      && manager.Valid() && schedules.Valid()
      && KubeQueues(manager.Views()) + ScheduleQueues(manager.Views()) <= queues.Queues.Keys
    }

    /** One round of the loop: the event's tasks are appended, each to its own queue, and every one
        of these queues exists. */
    method HandleEvent(event: OperatorEvent, newId: nat -> string) returns (ghost tasks: seq<Task>)
      requires Valid()
      modifies queues
      ensures Valid()
      ensures AreTasksOf(manager.Views(), event, newId, tasks)
      ensures Distributed(old(queues.Queues), queues.Queues, tasks)
    {
      hide Consistent, AreScheduleTasks, KubeTasks, ForQueue, KubeQueues, ScheduleQueues;
      var tailTasks := [];
      ghost var hooks := manager.Views();
      match event {
        case OnKube(e) =>
          tailTasks := manager.HandleKubeEvent(e, newId);
          KubeTaskQueues(hooks, e, newId, |hooks|);
          assert hooks[..|hooks|] == hooks;
        case OnCrontab(crontab) =>
          tailTasks := manager.HandleScheduleEvent(crontab, newId);
          ghost var origins :| AreScheduleTasks(hooks, crontab, newId, tailTasks, origins);
          ScheduleTaskQueues(hooks, crontab, newId, tailTasks, origins);
      }
      queues.AddTasks(tailTasks);
      tasks := tailTasks;
    }

    /** A handler of the main queue enables bindings of one hook. */
    method Enable(round: Round)
      requires Valid() && !round.OnEvent? && round.hook < |manager.hooks|
      modifies manager.hooks, schedules, schedules.cron
      ensures Valid() && Extends(old(manager.Views()), manager.Views())
    {
      hide Consistent;
      var h := manager.hooks[round.hook];
      if round.EnableMonitors? {
        var _, _ := h.EnableKubernetesBindings(round.monitorFails);
      } else {
        h.EnableScheduleBindings(schedules);
      }
      OnlyThisHook(h);
      SameQueues(old(manager.Views()), manager.Views());
    }

    twostate lemma OnlyThisHook(h: HookController)
      requires old(manager.Valid()) && h.Valid()
      requires forall other :: other in manager.hooks && other != h ==> unchanged(other)
      requires old(h.BindingMonitorLinks).Keys <= h.BindingMonitorLinks.Keys
      requires old(h.ScheduleLinks).Keys <= h.ScheduleLinks.Keys
      ensures manager.Valid() && Extends(old(manager.Views()), manager.Views())
    {
      forall i | 0 <= i < |manager.hooks|
        ensures manager.hooks[i].Valid()
        ensures var before, after := old(manager.hooks[i].View()), manager.hooks[i].View();
          && after.name == before.name && after.kubes == before.kubes && after.schedules == before.schedules
          && before.monitorLinks.Keys <= after.monitorLinks.Keys
          && before.scheduleLinks.Keys <= after.scheduleLinks.Keys
      {
        assert manager.hooks[i] in manager.hooks;
        assert old(manager.hooks[i].Valid());
      }
      assert forall i :: 0 <= i < |manager.hooks| ==> old(manager.Views())[i] == old(manager.hooks[i].View());
    }

    method HandleRound(round: Round) returns (ghost tasks: seq<Task>)
      requires Valid() && (!round.OnEvent? ==> round.hook < |manager.hooks|)
      modifies queues, manager.hooks, schedules, schedules.cron
      ensures Valid() && Extends(old(manager.Views()), manager.Views())
      ensures RoundMakes(old(manager.Views()), round, tasks)
      ensures Distributed(old(queues.Queues), queues.Queues, tasks)
    {
      hide Consistent;
      if round.OnEvent? {
        tasks := HandleEvent(round.event, round.newId);
      } else {
        Enable(round);
        tasks := [];
      }
    }

    /** Any number of rounds. `seen` are the hooks as each round finds them, `created` the tasks which
        it makes. */
    method Start(rounds: seq<Round>) returns (ghost seen: seq<seq<Hook>>, ghost created: seq<seq<Task>>)
      requires Valid() && forall k :: 0 <= k < |rounds| && !rounds[k].OnEvent? ==> rounds[k].hook < |manager.hooks|
      modifies queues, manager.hooks, schedules, schedules.cron
      ensures Valid() && Log(old(manager.Views()), rounds, seen, created, manager.Views())
      ensures Distributed(old(queues.Queues), queues.Queues, Flatten(created))
    {
      hide Consistent;
      hide Distributed;
      hide Extends;
      hide RoundMakes;
      hide Log;
      LogStart(manager.Views());
      NothingDistributed(queues.Queues);
      created, seen := [], [];
      for i := 0 to |rounds|
        invariant Valid() && Log(old(manager.Views()), rounds[..i], seen, created, manager.Views())
        invariant Distributed(old(queues.Queues), queues.Queues, Flatten(created))
      {
        ghost var now := manager.Views();
        ghost var middle := queues.Queues;
        ghost var tasks := HandleRound(rounds[i]);
        LogSnoc(old(manager.Views()), rounds, i, seen, created, now, tasks, manager.Views());
        seen := seen + [now];
        FlattenAppend(created, [tasks]);
        FlattenOne(tasks);
        DistributedTogether(old(queues.Queues), middle, queues.Queues, Flatten(created), tasks);
        created := created + [tasks];
      }
      assert rounds[..|rounds|] == rounds;
    }
  }

  lemma LogStart(first: seq<Hook>)
    ensures Log(first, [], [], [], first)
  {
  }

  lemma LogSnoc(first: seq<Hook>, rounds: seq<Round>, i: nat, seen: seq<seq<Hook>>, created: seq<seq<Task>>,
                now: seq<Hook>, tasks: seq<Task>, last: seq<Hook>)
    requires i < |rounds| && Log(first, rounds[..i], seen, created, now)
    requires RoundMakes(now, rounds[i], tasks) && Extends(now, last)
    ensures Log(first, rounds[..i + 1], seen + [now], created + [tasks], last)
  {
    assert rounds[..i + 1][..i] == rounds[..i] && (seen + [now])[..i] == seen && (created + [tasks])[..i] == created;
  }

  /** From the loaded configurations on: the queues are created and the event loop runs. Whatever the
      configurations, the events and the moments at which bindings are enabled, every task that is
      made names a queue that exists, and each queue gets exactly its tasks in order. */
  method Operate(manager: HookManager, queues: TaskQueueSet, schedules: ScheduleManager, rounds: seq<Round>)
    returns (ghost seen: seq<seq<Hook>>, ghost created: seq<seq<Task>>)
    requires manager.Valid() && schedules.Valid()
    requires forall k :: 0 <= k < |rounds| && !rounds[k].OnEvent? ==> rounds[k].hook < |manager.hooks|
    modifies queues, manager.hooks, schedules, schedules.cron
    ensures Log(old(manager.Views()), rounds, seen, created, manager.Views())
    ensures forall t :: t in Flatten(created) ==> t.queueName in queues.Queues
    ensures forall name :: name in queues.Queues ==>
              queues.Queues[name] == (if name in old(queues.Queues) then old(queues.Queues[name]) else [])
                                     + ForQueue(Flatten(created), name)
  {
    hide Consistent;
    hide Log;
    var hooks := manager.Views();
    queues.InitAndStartHookQueues(hooks);
    var handler := new ManagerEventsHandler(manager, queues, schedules);
    seen, created := handler.Start(rounds);
  }
}
