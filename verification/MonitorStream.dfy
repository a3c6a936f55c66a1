/**
 The event stream of a monitor whose namespaces come and go. The hook starts from the objects of the
 Synchronization and applies the events; the monitor holds the caches of its namespaces.
 */
module MonitorStream {
  import opened Sequences
  import opened ResourceInformers

  /** The caches by namespace; None where creating the informers failed. */
  datatype Fleet = Fleet(settings: Settings, caches: map<string, Option<Cache>>, emitted: seq<KubeEvent>)

  /** A watch event of an informer, or a callback of the informer of namespaces. */
  datatype Happening =
    | WatchIn(ns: string, event: WatchEvent)
    | NamespaceAdded(ns: string, listed: Option<seq<RawObject>>)
    | NamespaceDeleted(ns: string)

  predicate HasInformer(s: Fleet, ns: string) {
    ns in s.caches && s.caches[ns].Some?
  }

  predicate Loads(s: Fleet, listed: Option<seq<RawObject>>) {
    listed.Some? && AllFiltered(s.settings.filter, listed.value)
  }

  function InformerOf(s: Fleet, ns: string): Informer
    requires HasInformer(s, ns)
  {
    Informer(s.settings, s.caches[ns].value, false, s.emitted)
  }

  function Happen(s: Fleet, h: Happening): Fleet {
    match h
    case WatchIn(ns, ev) =>
      if !HasInformer(s, ns) then s
      else
        var i := Handle(InformerOf(s, ns), ev);
        s.(caches := s.caches[ns := Some(i.cache)], emitted := i.emitted)
    case NamespaceAdded(ns, listed) =>
      if ns in s.caches then s
      else
        s.(caches := s.caches[ns :=
             if Loads(s, listed) then Some(Listed(s.settings.filter, s.settings.keepFull, listed.value)) else None])
    case NamespaceDeleted(ns) => s.(caches := s.caches - {ns})
  }

  function HappenAll(s: Fleet, run: seq<Happening>): Fleet {
    if run == [] then s else Happen(HappenAll(s, run[..|run| - 1]), run[|run| - 1])
  }

  // ---------- Who knows what ----------

  /** What the monitor holds about an object, in the cache of its namespace. */
  function Held(home: string -> string, s: Fleet, id: string): Option<string> {
    var ns := home(id);
    if HasInformer(s, ns) && id in s.caches[ns].value then Some(s.caches[ns].value[id].checksum) else None
  }

  /** What the hook knows about it. */
  function Known(snapshot: map<string, string>, s: Fleet, id: string): Option<string> {
    var known := Replay(snapshot, s.emitted);
    if id in known then Some(known[id]) else None
  }

  ghost predicate InStep(home: string -> string, snapshot: map<string, string>, s: Fleet) {
    forall id :: Known(snapshot, s, id) == Held(home, s, id)
  }

  /** Objects are watched and listed in their own namespaces. */
  ghost predicate AtHome(home: string -> string, h: Happening) {
    match h
    case WatchIn(ns, ev) => home(ev.obj.resourceId) == ns
    case NamespaceAdded(ns, listed) =>
      listed.Some? ==> forall i :: 0 <= i < |listed.value| ==> home(listed.value[i].resourceId) == ns
    case NamespaceDeleted(_) => true
  }

  ghost predicate AllAtHome(home: string -> string, s: Fleet) {
    forall ns, id :: HasInformer(s, ns) && id in s.caches[ns].value ==> home(id) == ns
  }

  /** The step does not change what the monitor holds behind the hook's back: a namespace with
      informers appears without objects, and disappears without objects. */
  predicate Silent(s: Fleet, h: Happening) {
    match h
    case WatchIn(_, _) => true
    case NamespaceAdded(ns, listed) => ns !in s.caches && Loads(s, listed) ==> listed.value == []
    case NamespaceDeleted(ns) => HasInformer(s, ns) ==> s.caches[ns].value == map[]
  }

  lemma {:induction false} ListedHas(filter: Filter, keepFull: bool, items: seq<RawObject>, id: string)
    requires AllFiltered(filter, items)
    ensures id in Listed(filter, keepFull, items) <==> exists i :: 0 <= i < |items| && items[i].resourceId == id
  {
    if items != [] {
      var before, last := items[..|items| - 1], items[|items| - 1];
      ListedHas(filter, keepFull, before, id);
      assert Filtered(filter, keepFull, last).Some?;
      if i :| 0 <= i < |items| && items[i].resourceId == id {
        assert i < |before| ==> before[i] == items[i];
      }
    }
  }

  lemma StaysAtHome(home: string -> string, s: Fleet, h: Happening)
    requires AllAtHome(home, s) && AtHome(home, h)
    ensures AllAtHome(home, Happen(s, h)) && Happen(s, h).settings == s.settings
  {
    if h.NamespaceAdded? && h.ns !in s.caches && Loads(s, h.listed) {
      forall id | id in Listed(s.settings.filter, s.settings.keepFull, h.listed.value) ensures home(id) == h.ns {
        ListedHas(s.settings.filter, s.settings.keepFull, h.listed.value, id);
      }
    }
  }

  /** What one event tells the hook. */
  lemma Told(snapshot: map<string, string>, s: Fleet, s': Fleet, e: KubeEvent, id: string)
    requires s'.emitted == s.emitted + [e]
    ensures Known(snapshot, s', id) ==
      if id != e.obj.resourceId then Known(snapshot, s, id)
      else if e.watchEvent == Deleted then None
      else Some(e.obj.checksum)
  {
    ReplaySnoc(snapshot, s.emitted, e);
  }

  /** One watch event changes what the monitor holds about its object only. */
  lemma WatchAt(home: string -> string, s: Fleet, ns: string, ev: WatchEvent, id: string)
    requires HasInformer(s, ns) && home(ev.obj.resourceId) == ns
    ensures var s', o := Happen(s, WatchIn(ns, ev)), Filtered(s.settings.filter, s.settings.keepFull, ev.obj);
      Held(home, s', id) ==
        if id != ev.obj.resourceId || o == None then Held(home, s, id)
        else if ev.eventType == Deleted then None
        else Some(o.value.checksum)
  {
  }

  /** One watch event keeps hook and monitor in step about every object. */
  lemma WatchKeepsStep(home: string -> string, snapshot: map<string, string>, s: Fleet, ns: string, ev: WatchEvent)
    requires AllTypes(s.settings.eventTypes) && home(ev.obj.resourceId) == ns
    requires InStep(home, snapshot, s)
    ensures InStep(home, snapshot, Happen(s, WatchIn(ns, ev)))
  {
    if HasInformer(s, ns) {
      var s' := Happen(s, WatchIn(ns, ev));
      forall id ensures Known(snapshot, s', id) == Held(home, s', id) {
        assert Known(snapshot, s, id) == Held(home, s, id);
        WatchAt(home, s, ns, ev, id);
        if s'.emitted != s.emitted {
          Told(snapshot, s, s', s'.emitted[|s.emitted|], id);
        }
      }
    }
  }

  /** A callback keeps them in step exactly when it is silent. */
  lemma CallbackKeepsStepExactly(home: string -> string, snapshot: map<string, string>, s: Fleet, h: Happening)
    requires !h.WatchIn? && AllAtHome(home, s) && AtHome(home, h) && InStep(home, snapshot, s)
    ensures InStep(home, snapshot, Happen(s, h)) <==> Silent(s, h)
  {
    var s' := Happen(s, h);
    if h.NamespaceAdded? {
      if h.ns !in s.caches && Loads(s, h.listed) && h.listed.value != [] {
        var items := h.listed.value;
        var id := items[0].resourceId;
        ListedHas(s.settings.filter, s.settings.keepFull, items, id);
        assert Known(snapshot, s, id) == Held(home, s, id) == None;
        assert Held(home, s', id).Some? && Known(snapshot, s', id) == None;
      } else {
        forall id ensures Known(snapshot, s', id) == Held(home, s', id) {
          assert Known(snapshot, s, id) == Held(home, s, id);
        }
      }
    } else {
      if HasInformer(s, h.ns) && s.caches[h.ns].value != map[] {
        var id :| id in s.caches[h.ns].value;
        assert Known(snapshot, s, id) == Held(home, s, id) != None;
        assert Held(home, s', id) == None;
      } else {
        forall id ensures Known(snapshot, s', id) == Held(home, s', id) {
          assert Known(snapshot, s, id) == Held(home, s, id);
        }
      }
    }
  }

  /** A namespace that appears with one object: the hook does not know the object which the monitor holds. */
  lemma NamespaceWithOneObject(settings: Settings, ns: string, obj: RawObject)
    requires settings.filter(obj).Some?
    ensures var s := Fleet(settings, map[], []);
      var s' := Happen(s, NamespaceAdded(ns, Some([obj])));
      && InStep(_ => ns, map[], s)
      && Held(_ => ns, s', obj.resourceId) == Some(settings.filter(obj).value.checksum)
      && Known(map[], s', obj.resourceId) == None
      && !InStep(_ => ns, map[], s')
  {
    var s := Fleet(settings, map[], []);
    var h := NamespaceAdded(ns, Some([obj]));
    var s' := Happen(s, h);
    assert [obj][..0] == [];
    assert Listed(settings.filter, settings.keepFull, [obj])
        == map[obj.resourceId := Filtered(settings.filter, settings.keepFull, obj).value];
    assert Loads(s, h.listed);
    assert Known(map[], s', obj.resourceId) == None;
  }

  lemma StepExactly(home: string -> string, snapshot: map<string, string>, s: Fleet, h: Happening)
    requires AllTypes(s.settings.eventTypes) && AllAtHome(home, s) && AtHome(home, h) && InStep(home, snapshot, s)
    ensures InStep(home, snapshot, Happen(s, h)) <==> Silent(s, h)
  {
    match h
    case WatchIn(ns, ev) => WatchKeepsStep(home, snapshot, s, ns, ev);
    case NamespaceAdded(_, _) => CallbackKeepsStepExactly(home, snapshot, s, h);
    case NamespaceDeleted(_) => CallbackKeepsStepExactly(home, snapshot, s, h);
  }

  // ---------- Whole runs ----------

  /** Hook and monitor are in step all the way. */
  ghost predicate AlwaysInStep(home: string -> string, snapshot: map<string, string>, s: Fleet, run: seq<Happening>) {
    forall n :: 0 <= n <= |run| ==> InStep(home, snapshot, HappenAll(s, run[..n]))
  }

  ghost predicate AlwaysSilent(s: Fleet, run: seq<Happening>) {
    forall n :: 0 <= n < |run| ==> Silent(HappenAll(s, run[..n]), run[n])
  }

  lemma {:induction false} RunStaysAtHome(home: string -> string, s: Fleet, run: seq<Happening>)
    requires AllAtHome(home, s) && forall h :: h in run ==> AtHome(home, h)
    ensures AllAtHome(home, HappenAll(s, run)) && HappenAll(s, run).settings == s.settings
  {
    if run != [] {
      var before, last := run[..|run| - 1], run[|run| - 1];
      assert last in run && forall h :: h in before ==> h in run;
      RunStaysAtHome(home, s, before);
      StaysAtHome(home, HappenAll(s, before), last);
    }
  }

  lemma StepAlong(home: string -> string, snapshot: map<string, string>, s: Fleet, run: seq<Happening>, n: nat)
    requires AllTypes(s.settings.eventTypes) && AllAtHome(home, s) && (forall h :: h in run ==> AtHome(home, h))
    requires n < |run| && InStep(home, snapshot, HappenAll(s, run[..n]))
    ensures InStep(home, snapshot, HappenAll(s, run[..n + 1])) <==> Silent(HappenAll(s, run[..n]), run[n])
  {
    RunStaysAtHome(home, s, run[..n]);
    assert run[..n + 1][..n] == run[..n] && run[n] in run;
    StepExactly(home, snapshot, HappenAll(s, run[..n]), run[n]);
  }

  lemma {:induction false} SilentStaysInStep(home: string -> string, snapshot: map<string, string>, s: Fleet,
                                             run: seq<Happening>, n: nat)
    requires AllTypes(s.settings.eventTypes) && AllAtHome(home, s) && (forall h :: h in run ==> AtHome(home, h))
    requires n <= |run| && InStep(home, snapshot, s) && AlwaysSilent(s, run)
    ensures InStep(home, snapshot, HappenAll(s, run[..n]))
  {
    if n > 0 {
      SilentStaysInStep(home, snapshot, s, run, n - 1);
      StepAlong(home, snapshot, s, run, n - 1);
    } else {
      assert run[..0] == [];
    }
  }

  /** With all event types, a hook that starts in step stays in step with its monitor, exactly when
      every namespace that is added later brings no objects, and every namespace that is deleted, or
      loses its label, has none left: the objects of a new namespace are cached without events, and
      those of a deleted namespace are dropped without events. */
  lemma MonitorCompleteExactly(home: string -> string, snapshot: map<string, string>, s: Fleet, run: seq<Happening>)
    requires AllTypes(s.settings.eventTypes) && AllAtHome(home, s) && (forall h :: h in run ==> AtHome(home, h))
    requires InStep(home, snapshot, s)
    ensures AlwaysInStep(home, snapshot, s, run) <==> AlwaysSilent(s, run)
  {
    if AlwaysSilent(s, run) {
      forall n | 0 <= n <= |run| ensures InStep(home, snapshot, HappenAll(s, run[..n])) {
        SilentStaysInStep(home, snapshot, s, run, n);
      }
    }
    if AlwaysInStep(home, snapshot, s, run) {
      forall n | 0 <= n < |run| ensures Silent(HappenAll(s, run[..n]), run[n]) {
        StepAlong(home, snapshot, s, run, n);
      }
    }
  }

  lemma AnyFiltered(filter: Filter, items: seq<RawObject>, i: nat)
    requires AllFiltered(filter, items) && i < |items|
    ensures filter(items[i]).Some?
  {
  }

  /** An object which is cached as it is. */
  lemma CachedIsSilent(s: Fleet, ns: string, obj: RawObject)
    requires HasInformer(s, ns) && s.settings.filter(obj).Some? && obj.resourceId in s.caches[ns].value
    requires s.caches[ns].value[obj.resourceId] == Filtered(s.settings.filter, s.settings.keepFull, obj).value
    ensures Happen(s, WatchIn(ns, WatchEvent(obj, Added))) == s
  {
    var cache, id := s.caches[ns].value, obj.resourceId;
    assert cache[id := cache[id]] == cache;
    assert s.caches[ns := s.caches[ns]] == s.caches;
  }

  /** The informer of the new namespace delivers every listed object once more, but to no avail. */
  lemma {:induction false} RedeliveryIsSilent(s: Fleet, ns: string, items: seq<RawObject>, n: nat)
    requires n <= |items| && HasInformer(s, ns) && AllFiltered(s.settings.filter, items)
    requires s.caches[ns].value == Listed(s.settings.filter, s.settings.keepFull, items)
    requires DistinctResources(items)
    ensures HappenAll(s, Redelivered(ns, items[..n])) == s
  {
    if n > 0 {
      hide Happen, Listed, Filtered, AllFiltered, DistinctResources;
      assert s.settings.filter(items[n - 1]).Some? by { AnyFiltered(s.settings.filter, items, n - 1); }
      RedeliveryIsSilent(s, ns, items, n - 1);
      var run := Redelivered(ns, items[..n]);
      assert run[..|run| - 1] == Redelivered(ns, items[..n - 1]);
      assert run[|run| - 1] == WatchIn(ns, WatchEvent(items[n - 1], Added));
      ListedContains(s.settings.filter, s.settings.keepFull, items, n - 1);
      CachedIsSilent(s, ns, items[n - 1]);
    } else {
      assert Redelivered(ns, items[..0]) == [];
    }
  }

  function Redelivered(ns: string, items: seq<RawObject>): (r: seq<Happening>)
    ensures |r| == |items| && forall i :: 0 <= i < |r| ==> r[i] == WatchIn(ns, WatchEvent(items[i], Added))
  {
    seq(|items|, i requires 0 <= i < |items| => WatchIn(ns, WatchEvent(items[i], Added)))
  }
}
