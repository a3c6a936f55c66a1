/**
 The object cache of one informer. The cache is loaded from a list and then driven by watch
 events; an Added or Modified event whose checksum did not change is suppressed. The filter
 with its checksum is an arbitrary deterministic function that may fail.
 */
module ResourceInformers {
  import opened Sequences

  datatype WatchEventType = Added | Modified | Deleted

  /** A kubernetes object as delivered: its namespace/kind/name id and its body. */
  datatype RawObject = RawObject(resourceId: string, body: string)

  datatype FilterResult = FilterResult(checksum: string, filterResult: string, objectKept: bool)

  datatype CachedObject = CachedObject(resourceId: string, checksum: string, filterResult: string, objectKept: bool)

  /** jq or a Go function, followed by the checksum of its output; None is an error. */
  type Filter = RawObject -> Option<FilterResult>

  datatype KubeEvent = KubeEvent(watchEvent: WatchEventType, obj: CachedObject)

  type Cache = map<string, CachedObject>

  datatype WatchEvent = WatchEvent(obj: RawObject, eventType: WatchEventType)

  function Filtered(filter: Filter, keepFull: bool, obj: RawObject): Option<CachedObject> {
    match filter(obj)
    case None => None
    case Some(f) => Some(CachedObject(obj.resourceId, f.checksum, f.filterResult, f.objectKept && keepFull))
  }

  // ---------- The informer ----------

  class ResourceInformer {
    const filter: Filter
    const keepFullObjectsInMemory: bool
    const eventTypes: seq<WatchEventType>
    var cachedObjects: Cache
    var stopped: bool
    /** Everything passed to the event callback. */
    var emitted: seq<KubeEvent>

    constructor (filter: Filter, keepFull: bool, eventTypes: seq<WatchEventType>)
      ensures this.filter == filter && keepFullObjectsInMemory == keepFull && this.eventTypes == eventTypes
      ensures cachedObjects == map[] && !stopped && emitted == []
    {
      this.filter, this.keepFullObjectsInMemory, this.eventTypes := filter, keepFull, eventTypes;
      cachedObjects, stopped, emitted := map[], false, [];
    }

    function View(): Informer
      reads this
    {
      Informer(Settings(filter, keepFullObjectsInMemory, eventTypes), cachedObjects, stopped, emitted)
    }

    method ShouldFireEvent(checkEvent: WatchEventType) returns (fire: bool)
      ensures fire <==> checkEvent in eventTypes
    {
      for i := 0 to |eventTypes|
        invariant forall j :: 0 <= j < i ==> eventTypes[j] != checkEvent
      {
        if eventTypes[i] == checkEvent {
          return true;
        }
      }
      return false;
    }

    /** Nothing is cached unless listing works and every listed object passes the filter. `listed` is
        None when the API server fails to list. */
    method LoadExistedObjects(listed: Option<seq<RawObject>>) returns (ok: bool)
      modifies this`cachedObjects
      ensures ok <==> listed.Some? && AllFiltered(filter, listed.value)
      ensures cachedObjects == if ok then old(cachedObjects) + Listed(filter, keepFullObjectsInMemory, listed.value)
                               else old(cachedObjects)
      ensures ok ==> forall i :: IsLastOfItsId(listed.value, i) ==>
        listed.value[i].resourceId in cachedObjects
        && IsFilteredForm(filter, keepFullObjectsInMemory, listed.value[i], cachedObjects[listed.value[i].resourceId])
    {
      if listed == None {
        return false;
      }
      var items := listed.value;
      var filteredObjects: Cache := map[];
      for i := 0 to |items|
        invariant forall j :: 0 <= j < i ==> filter(items[j]).Some?
        invariant filteredObjects == Listed(filter, keepFullObjectsInMemory, items[..i])
        invariant cachedObjects == old(cachedObjects)
      {
        var res := Filtered(filter, keepFullObjectsInMemory, items[i]);
        if res == None {
          return false;
        }
        assert items[..i + 1][..i] == items[..i];
        filteredObjects := filteredObjects[res.value.resourceId := res.value];
      }
      assert items[..|items|] == items;
      forall i | IsLastOfItsId(items, i)
        ensures items[i].resourceId in filteredObjects
        ensures IsFilteredForm(filter, keepFullObjectsInMemory, items[i], filteredObjects[items[i].resourceId])
      {
        ListedIsLast(filter, keepFullObjectsInMemory, items, i);
      }
      cachedObjects := cachedObjects + filteredObjects;
      return true;
    }

    method HandleWatchEvent(raw: RawObject, eventType: WatchEventType)
      modifies this`cachedObjects, this`emitted
      ensures View() == Handle(old(View()), WatchEvent(raw, eventType))
      ensures !stopped && filter(raw).Some? && eventType != Deleted ==>
        && raw.resourceId in cachedObjects
        && IsFilteredForm(filter, keepFullObjectsInMemory, raw, cachedObjects[raw.resourceId])
      ensures emitted == old(emitted) ||
        (|emitted| == |old(emitted)| + 1 && emitted[..|old(emitted)|] == old(emitted)
         && emitted[|old(emitted)|].watchEvent == eventType
         && IsFilteredForm(filter, keepFullObjectsInMemory, raw, emitted[|old(emitted)|].obj))
    {
      if stopped {
        return;
      }
      var res := Filtered(filter, keepFullObjectsInMemory, raw);
      if res == None {
        return;
      }
      var obj := res.value;
      if eventType == Added || eventType == Modified {
        var skipEvent := raw.resourceId in cachedObjects && cachedObjects[raw.resourceId].checksum == obj.checksum;
        cachedObjects := cachedObjects[raw.resourceId := obj];
        if skipEvent {
          return;
        }
      } else {
        cachedObjects := cachedObjects - {raw.resourceId};
      }
      var fire := ShouldFireEvent(eventType);
      if fire {
        emitted := emitted + [KubeEvent(eventType, obj)];
      }
    }

    method PauseHandleEvents()
      modifies this`stopped
      ensures View() == old(View()).(stopped := true)
    {
      stopped := true;
    }
  }

  /** What the filter makes of an object, field by field. */
  ghost predicate IsFilteredForm(filter: Filter, keepFull: bool, raw: RawObject, o: CachedObject) {
    && filter(raw).Some?
    && o.resourceId == raw.resourceId
    && o.checksum == filter(raw).value.checksum
    && o.filterResult == filter(raw).value.filterResult
    && (o.objectKept <==> filter(raw).value.objectKept && keepFull)
  }

  ghost predicate IsLastOfItsId(items: seq<RawObject>, i: int) {
    0 <= i < |items| && forall j :: i < j < |items| ==> items[j].resourceId != items[i].resourceId
  }

  predicate AllFiltered(filter: Filter, items: seq<RawObject>) {
    forall i :: 0 <= i < |items| ==> filter(items[i]).Some?
  }

  /** The last listed object of each id. */
  function Listed(filter: Filter, keepFull: bool, items: seq<RawObject>): Cache {
    if items == [] then map[]
    else
      var before := Listed(filter, keepFull, items[..|items| - 1]);
      match Filtered(filter, keepFull, items[|items| - 1])
      case None => before
      case Some(o) => before[o.resourceId := o]
  }

  lemma {:induction false} ListedIsLast(filter: Filter, keepFull: bool, items: seq<RawObject>, i: nat)
    requires IsLastOfItsId(items, i) && filter(items[i]).Some?
    ensures var listed := Listed(filter, keepFull, items);
      && items[i].resourceId in listed
      && IsFilteredForm(filter, keepFull, items[i], listed[items[i].resourceId])
    decreases |items|
  {
    if i < |items| - 1 {
      var before := items[..|items| - 1];
      assert IsLastOfItsId(before, i);
      ListedIsLast(filter, keepFull, before, i);
      assert items[i].resourceId != items[|items| - 1].resourceId;
    }
  }

  // ---------- Specification ----------

  datatype Settings = Settings(filter: Filter, keepFull: bool, eventTypes: seq<WatchEventType>)

  datatype Informer = Informer(settings: Settings, cache: Cache, stopped: bool, emitted: seq<KubeEvent>)

  function Handle(s: Informer, ev: WatchEvent): Informer {
    var res := Filtered(s.settings.filter, s.settings.keepFull, ev.obj);
    if s.stopped || res == None then s
    else
      var id, obj := ev.obj.resourceId, res.value;
      var suppressed := ev.eventType != Deleted && id in s.cache && s.cache[id].checksum == obj.checksum;
      s.(cache := if ev.eventType == Deleted then s.cache - {id} else s.cache[id := obj],
         emitted := if !suppressed && ev.eventType in s.settings.eventTypes
                    then s.emitted + [KubeEvent(ev.eventType, obj)] else s.emitted)
  }

  /** A watch event, or the flag being set that stops the handling of events. */
  datatype Input = Watch(event: WatchEvent) | StopHandling

  function HandleAll(s: Informer, inputs: seq<Input>): Informer {
    if inputs == [] then s
    else
      var before := HandleAll(s, inputs[..|inputs| - 1]);
      match inputs[|inputs| - 1]
      case Watch(ev) => Handle(before, ev)
      case StopHandling => before.(stopped := true)
  }

  function Checksums(cache: Cache): map<string, string> {
    map id | id in cache :: cache[id].checksum
  }

  /** A hook that starts from the Synchronization snapshot and applies the events it gets. */
  function Replay(snapshot: map<string, string>, events: seq<KubeEvent>): map<string, string> {
    if events == [] then snapshot
    else
      var before := Replay(snapshot, events[..|events| - 1]);
      var e := events[|events| - 1];
      if e.watchEvent == Deleted then before - {e.obj.resourceId}
      else before[e.obj.resourceId := e.obj.checksum]
  }

  ghost predicate AllTypes(eventTypes: seq<WatchEventType>) {
    Added in eventTypes && Modified in eventTypes && Deleted in eventTypes
  }

  /** What the hook knows is what the cache holds. */
  ghost predicate Agrees(snapshot: map<string, string>, s: Informer) {
    Replay(snapshot, s.emitted) == Checksums(s.cache)
  }

  lemma ReplaySnoc(snapshot: map<string, string>, events: seq<KubeEvent>, e: KubeEvent)
    ensures Replay(snapshot, events + [e]) ==
      if e.watchEvent == Deleted then Replay(snapshot, events) - {e.obj.resourceId}
      else Replay(snapshot, events)[e.obj.resourceId := e.obj.checksum]
  {
    assert (events + [e])[..|events|] == events;
  }

  /** An Added or Modified event which repeats the cached checksum, or whose object fails the filter. */
  predicate Suppressed(s: Informer, ev: WatchEvent) {
    var res := Filtered(s.settings.filter, s.settings.keepFull, ev.obj);
    res.Some? ==>
      && ev.eventType != Deleted
      && ev.obj.resourceId in s.cache && s.cache[ev.obj.resourceId].checksum == res.value.checksum
  }

  /** The hook is told, or need not be. */
  predicate Heard(s: Informer, ev: WatchEvent) {
    ev.eventType in s.settings.eventTypes || Suppressed(s, ev)
  }

  lemma HandleAgrees(snapshot: map<string, string>, s: Informer, ev: WatchEvent)
    requires Agrees(snapshot, s) && Heard(s, ev)
    ensures Agrees(snapshot, Handle(s, ev)) && Handle(s, ev).settings == s.settings
  {
    hide Replay;
    var s', res := Handle(s, ev), Filtered(s.settings.filter, s.settings.keepFull, ev.obj);
    if !s.stopped && res.Some? {
      var id, obj := ev.obj.resourceId, res.value;
      if Suppressed(s, ev) {
        assert Checksums(s'.cache) == Checksums(s.cache);
      } else {
        ReplaySnoc(snapshot, s.emitted, KubeEvent(ev.eventType, obj));
        if ev.eventType == Deleted {
          assert Checksums(s'.cache) == Checksums(s.cache) - {id};
        } else {
          assert Checksums(s'.cache) == Checksums(s.cache)[id := obj.checksum];
        }
      }
    }
  }

  lemma StopAgrees(snapshot: map<string, string>, s: Informer)
    ensures Agrees(snapshot, s.(stopped := true)) <==> Agrees(snapshot, s)
  {
  }

  lemma {:induction false} RunAgrees(s: Informer, inputs: seq<Input>)
    requires AllTypes(s.settings.eventTypes) && s.emitted == []
    ensures Agrees(Checksums(s.cache), HandleAll(s, inputs)) && HandleAll(s, inputs).settings == s.settings
    decreases |inputs|
  {
    if inputs != [] {
      hide Handle, Agrees;
      RunAgrees(s, inputs[..|inputs| - 1]);
      StopAgrees(Checksums(s.cache), HandleAll(s, inputs[..|inputs| - 1]));
      match inputs[|inputs| - 1]
      case Watch(ev) => HandleAgrees(Checksums(s.cache), HandleAll(s, inputs[..|inputs| - 1]), ev);
      case StopHandling =>
    }
  }

  /** The stream is complete for these event types: whatever the cache was loaded with and
      whatever happens then, including filter errors, resyncs, deletes of unknown objects and
      stopping, the hook can follow the cache. */
  ghost predicate StreamIsComplete(filter: Filter, keepFull: bool, eventTypes: seq<WatchEventType>) {
    forall cache: Cache, inputs: seq<Input> ::
      var s := Informer(Settings(filter, keepFull, eventTypes), cache, false, []);
      Agrees(Checksums(cache), HandleAll(s, inputs))
  }

  lemma OneEvent(s: Informer, ev: WatchEvent)
    ensures HandleAll(s, [Watch(ev)]) == Handle(s, ev)
  {
    assert [Watch(ev)][..0] == [];
  }

  /** Without one of the types some event is missed; a Modified may be of an object that is not cached. */
  lemma MissingTypeBreaksStream(filter: Filter, keepFull: bool, eventTypes: seq<WatchEventType>, obj: RawObject)
    requires filter(obj).Some? && !AllTypes(eventTypes)
    ensures !StreamIsComplete(filter, keepFull, eventTypes)
  {
    var settings := Settings(filter, keepFull, eventTypes);
    var id, o := obj.resourceId, Filtered(filter, keepFull, obj).value;
    var missing := if Added !in eventTypes then Added else if Modified !in eventTypes then Modified else Deleted;
    var cache: Cache := if missing == Deleted then map[id := o] else map[];
    var s := Informer(settings, cache, false, []);
    var ev := WatchEvent(obj, missing);
    OneEvent(s, ev);
    assert Handle(s, ev).emitted == [];
    assert Replay(Checksums(cache), []) == Checksums(cache);
    assert id in Checksums(cache) <==> missing == Deleted;
    assert id in Checksums(Handle(s, ev).cache) <==> missing != Deleted;
    assert !Agrees(Checksums(cache), HandleAll(s, [Watch(ev)]));
  }

  /** Exactly the bindings that listen to all three event types can follow the cluster. */
  lemma StreamCompleteExactly(filter: Filter, keepFull: bool, eventTypes: seq<WatchEventType>, obj: RawObject)
    requires filter(obj).Some?
    ensures StreamIsComplete(filter, keepFull, eventTypes) <==> AllTypes(eventTypes)
  {
    if AllTypes(eventTypes) {
      forall cache: Cache, inputs: seq<Input>
        ensures var s := Informer(Settings(filter, keepFull, eventTypes), cache, false, []);
          Agrees(Checksums(cache), HandleAll(s, inputs))
      {
        RunAgrees(Informer(Settings(filter, keepFull, eventTypes), cache, false, []), inputs);
      }
    } else {
      MissingTypeBreaksStream(filter, keepFull, eventTypes, obj);
    }
  }

  // ---------- What is cached ----------

  /** The input is an event of the object which passes the filter, and handling was not stopped before. */
  ghost predicate Counts(filter: Filter, inputs: seq<Input>, id: string, n: int) {
    && 0 <= n < |inputs| && inputs[n].Watch?
    && inputs[n].event.obj.resourceId == id && filter(inputs[n].event.obj).Some?
    && forall m :: 0 <= m < n ==> !inputs[m].StopHandling?
  }

  ghost predicate CountsLast(filter: Filter, inputs: seq<Input>, id: string, n: int) {
    Counts(filter, inputs, id, n) && forall m :: n < m < |inputs| ==> !Counts(filter, inputs, id, m)
  }

  lemma {:induction false} StopsWhenTold(s: Informer, inputs: seq<Input>)
    requires !s.stopped
    ensures HandleAll(s, inputs).stopped <==> exists m :: 0 <= m < |inputs| && inputs[m].StopHandling?
    ensures HandleAll(s, inputs).settings == s.settings
    decreases |inputs|
  {
    if inputs != [] {
      StopsWhenTold(s, inputs[..|inputs| - 1]);
    }
  }

  lemma CountsBefore(filter: Filter, inputs: seq<Input>, id: string, n: nat)
    requires n < |inputs| - 1
    ensures Counts(filter, inputs[..|inputs| - 1], id, n) <==> Counts(filter, inputs, id, n)
  {
  }

  lemma LastCounts(s: Informer, inputs: seq<Input>, id: string)
    requires !s.stopped && inputs != []
    ensures var last := |inputs| - 1;
      Counts(s.settings.filter, inputs, id, last)
      <==> inputs[last].Watch? && inputs[last].event.obj.resourceId == id
           && s.settings.filter(inputs[last].event.obj).Some? && !HandleAll(s, inputs[..last]).stopped
  {
    hide HandleAll;
    var before := inputs[..|inputs| - 1];
    StopsWhenTold(s, before);
    assert forall m :: 0 <= m < |before| ==> before[m] == inputs[m];
  }

  /** One event changes what is cached of its object only. */
  lemma HandleAt(s: Informer, ev: WatchEvent, id: string)
    ensures var before, after := s.cache, Handle(s, ev).cache;
      if !s.stopped && ev.obj.resourceId == id && s.settings.filter(ev.obj).Some? then
        if ev.eventType == Deleted then id !in after
        else id in after && IsFilteredForm(s.settings.filter, s.settings.keepFull, ev.obj, after[id])
      else (id in after <==> id in before) && (id in after ==> after[id] == before[id])
  {
  }

  /** One input changes what is cached of an object only when it counts. */
  lemma CacheAt(s: Informer, inputs: seq<Input>, id: string)
    requires !s.stopped && inputs != []
    ensures var filter, last := s.settings.filter, |inputs| - 1;
      var before, after := HandleAll(s, inputs[..last]).cache, HandleAll(s, inputs).cache;
      && (!Counts(filter, inputs, id, last) ==>
            (id in after <==> id in before) && (id in after ==> after[id] == before[id]))
      && (Counts(filter, inputs, id, last) ==>
            if inputs[last].event.eventType == Deleted then id !in after
            else id in after && IsFilteredForm(filter, s.settings.keepFull, inputs[last].event.obj, after[id]))
  {
    hide Handle, Counts, IsFilteredForm;
    var last := |inputs| - 1;
    StopsWhenTold(s, inputs[..last]);
    LastCounts(s, inputs, id);
    if inputs[last].Watch? {
      HandleAt(HandleAll(s, inputs[..last]), inputs[last].event, id);
    }
  }

  /** After any run, an object is cached as the filter's form of its last event that counts, or not at all
      when this event deleted it; without such an event it is cached as it was listed. */
  lemma {:induction false} CacheIsLastForm(s: Informer, inputs: seq<Input>, id: string)
    requires !s.stopped
    ensures var filter, cache := s.settings.filter, HandleAll(s, inputs).cache;
      && ((forall n :: !Counts(filter, inputs, id, n)) ==>
            (id in cache <==> id in s.cache) && (id in cache ==> cache[id] == s.cache[id]))
      && (forall n :: CountsLast(filter, inputs, id, n) ==>
            if inputs[n].event.eventType == Deleted then id !in cache
            else id in cache && IsFilteredForm(filter, s.settings.keepFull, inputs[n].event.obj, cache[id]))
    decreases |inputs|
  {
    if inputs != [] {
      hide HandleAll, Counts, IsFilteredForm;
      var filter, before, last := s.settings.filter, inputs[..|inputs| - 1], |inputs| - 1;
      CacheIsLastForm(s, before, id);
      CacheAt(s, inputs, id);
      forall n | 0 <= n < last ensures Counts(filter, before, id, n) <==> Counts(filter, inputs, id, n) {
        CountsBefore(filter, inputs, id, n);
      }
      forall n | Counts(filter, before, id, n) || Counts(filter, inputs, id, n) ensures 0 <= n < |inputs| {
        CountsInside(filter, inputs, id, n);
        CountsInside(filter, before, id, n);
      }
      forall n | CountsLast(filter, inputs, id, n)
        ensures n < last ==> CountsLast(filter, before, id, n) && !Counts(filter, inputs, id, last)
      {
      }
    }
  }

  lemma CountsInside(filter: Filter, inputs: seq<Input>, id: string, n: int)
    ensures Counts(filter, inputs, id, n) ==> 0 <= n < |inputs|
  {
  }

  // ---------- What a shared informer delivers ----------

  function Stored(store: set<string>, ev: WatchEvent): set<string> {
    match ev.eventType
    case Added => store + {ev.obj.resourceId}
    case Modified => store
    case Deleted => store - {ev.obj.resourceId}
  }

  /** The ids in the informer's own store, which starts empty. */
  function StoreAfter(inputs: seq<Input>): set<string> {
    if inputs == [] then {}
    else
      var before := StoreAfter(inputs[..|inputs| - 1]);
      match inputs[|inputs| - 1]
      case Watch(ev) => Stored(before, ev)
      case StopHandling => before
  }

  /** Added is for ids that are not in the store, Modified and Deleted are for those that are. */
  predicate Delivered(inputs: seq<Input>) {
    if inputs == [] then true
    else
      var before, last := inputs[..|inputs| - 1], inputs[|inputs| - 1];
      && Delivered(before)
      && (last.Watch? ==> (last.event.eventType == Added <==> last.event.obj.resourceId !in StoreAfter(before)))
  }

  /** The hook can follow the cache, whatever was listed and whatever the shared informer delivers. */
  ghost predicate FollowsInformer(filter: Filter, keepFull: bool, eventTypes: seq<WatchEventType>) {
    forall cache: Cache, inputs: seq<Input> :: Delivered(inputs) ==>
      var s := Informer(Settings(filter, keepFull, eventTypes), cache, false, []);
      Agrees(Checksums(cache), HandleAll(s, inputs))
  }

  /** No change of an object changes what the filter makes of it. */
  ghost predicate FixedChecksums(filter: Filter) {
    forall a: RawObject, b: RawObject {:trigger filter(a), filter(b)} ::
      a.resourceId == b.resourceId && filter(b).Some? ==>
        filter(a).Some? && filter(a).value.checksum == filter(b).value.checksum
  }

  /** The stored objects which pass the filter are cached as they are. */
  ghost predicate Settled(filter: Filter, store: set<string>, cache: Cache) {
    forall a: RawObject :: a.resourceId in store && filter(a).Some? ==>
      a.resourceId in cache && cache[a.resourceId].checksum == filter(a).value.checksum
  }

  lemma HandleSettles(s: Informer, store: set<string>, ev: WatchEvent)
    requires FixedChecksums(s.settings.filter) && !s.stopped && Settled(s.settings.filter, store, s.cache)
    requires ev.eventType != Added ==> ev.obj.resourceId in store
    ensures Settled(s.settings.filter, Stored(store, ev), Handle(s, ev).cache)
    ensures ev.eventType == Modified ==> Suppressed(s, ev)
  {
    var filter := s.settings.filter;
    forall a: RawObject | a.resourceId == ev.obj.resourceId && filter(a).Some?
      ensures filter(ev.obj).Some? && filter(a).value.checksum == filter(ev.obj).value.checksum
    {
    }
  }

  ghost predicate ListensEnough(filter: Filter, eventTypes: seq<WatchEventType>) {
    Added in eventTypes && Deleted in eventTypes && (Modified in eventTypes || FixedChecksums(filter))
  }

  lemma {:induction false} ListenerFollows(s: Informer, inputs: seq<Input>)
    requires ListensEnough(s.settings.filter, s.settings.eventTypes) && Delivered(inputs)
    requires s.emitted == []
    ensures Agrees(Checksums(s.cache), HandleAll(s, inputs)) && HandleAll(s, inputs).settings == s.settings
    ensures FixedChecksums(s.settings.filter) && !HandleAll(s, inputs).stopped ==>
              Settled(s.settings.filter, StoreAfter(inputs), HandleAll(s, inputs).cache)
    decreases |inputs|
  {
    if inputs != [] {
      hide Agrees, FixedChecksums, Settled, Suppressed, Filtered;
      var before := inputs[..|inputs| - 1];
      ListenerFollows(s, before);
      var now := HandleAll(s, before);
      StopAgrees(Checksums(s.cache), now);
      match inputs[|inputs| - 1]
      case Watch(ev) =>
        if !now.stopped && FixedChecksums(s.settings.filter) {
          HandleSettles(now, StoreAfter(before), ev);
        }
        if !now.stopped {
          HandleAgrees(Checksums(s.cache), now, ev);
        }
      case StopHandling =>
    }
  }

  /** An object is added and then changed or deleted. */
  lemma AddThen(s: Informer, a: RawObject, ev: WatchEvent)
    requires ev.eventType != Added && ev.obj.resourceId == a.resourceId
    ensures var inputs := [Watch(WatchEvent(a, Added)), Watch(ev)];
      Delivered(inputs) && HandleAll(s, inputs) == Handle(Handle(s, WatchEvent(a, Added)), ev)
  {
    var first := Watch(WatchEvent(a, Added));
    OneEvent(s, first.event);
    assert [first, Watch(ev)][..1] == [first] && [first][..0] == [];
    assert StoreAfter([first]) == Stored(StoreAfter([]), first.event);
    assert Delivered([first]);
  }

  lemma NotFollowed(settings: Settings, inputs: seq<Input>)
    requires Delivered(inputs)
    requires !Agrees(map[], HandleAll(Informer(settings, map[], false, []), inputs))
    ensures !FollowsInformer(settings.filter, settings.keepFull, settings.eventTypes)
  {
    var cache: Cache := map[];
    assert Checksums(cache) == map[];
    var s := Informer(Settings(settings.filter, settings.keepFull, settings.eventTypes), cache, false, []);
    assert !Agrees(Checksums(cache), HandleAll(s, inputs));
  }

  /** Without Added the first object is not reported. */
  lemma MissesAdded(settings: Settings, obj: RawObject)
    requires settings.filter(obj).Some? && Added !in settings.eventTypes
    ensures !FollowsInformer(settings.filter, settings.keepFull, settings.eventTypes)
  {
    var s := Informer(settings, map[], false, []);
    var ev := WatchEvent(obj, Added);
    OneEvent(s, ev);
    assert [Watch(ev)][..0] == [] && Delivered([Watch(ev)]);
    assert Handle(s, ev).emitted == [] && obj.resourceId in Checksums(Handle(s, ev).cache);
    assert !Agrees(map[], HandleAll(s, [Watch(ev)]));
    NotFollowed(settings, [Watch(ev)]);
  }

  /** After Added `a`, the hook knows what passed the filter. */
  lemma AddedIsKnown(settings: Settings, a: RawObject)
    requires Added in settings.eventTypes
    ensures var s := Handle(Informer(settings, map[], false, []), WatchEvent(a, Added));
      && s.settings == settings && !s.stopped
      && (settings.filter(a) == None ==> s.cache == map[] && Replay(map[], s.emitted) == map[])
      && (settings.filter(a).Some? ==>
            && s.cache == map[a.resourceId := Filtered(settings.filter, settings.keepFull, a).value]
            && Replay(map[], s.emitted) == map[a.resourceId := settings.filter(a).value.checksum])
  {
    if settings.filter(a).Some? {
      ReplaySnoc(map[], [], KubeEvent(Added, Filtered(settings.filter, settings.keepFull, a).value));
    }
  }

  /** Without Deleted an object stays known, and without Modified its change is not. */
  lemma MissesLater(settings: Settings, a: RawObject, ev: WatchEvent)
    requires Added in settings.eventTypes && ev.eventType != Added && ev.eventType !in settings.eventTypes
    requires a.resourceId == ev.obj.resourceId && settings.filter(ev.obj).Some?
    requires ev.eventType == Deleted ==> a == ev.obj
    requires ev.eventType == Modified ==>
        settings.filter(a) == None || settings.filter(a).value.checksum != settings.filter(ev.obj).value.checksum
    ensures !FollowsInformer(settings.filter, settings.keepFull, settings.eventTypes)
  {
    hide FollowsInformer, Delivered, HandleAll, Replay;
    var s, id := Informer(settings, map[], false, []), a.resourceId;
    AddThen(s, a, ev);
    AddedIsKnown(settings, a);
    var one := Handle(s, WatchEvent(a, Added));
    var two, known := Handle(one, ev), Replay(map[], one.emitted);
    assert two.emitted == one.emitted;
    if ev.eventType == Deleted {
      assert id in known && id !in Checksums(two.cache);
    } else {
      assert Checksums(two.cache)[id] == settings.filter(ev.obj).value.checksum;
      assert id in known ==> known[id] != Checksums(two.cache)[id];
    }
    NotFollowed(settings, [Watch(WatchEvent(a, Added)), Watch(ev)]);
  }

  /** What a binding must listen to, so that a hook can follow the cache over everything that a shared
      informer delivers: Added and Deleted, and Modified unless no change of an object shows. */
  lemma FollowsInformerExactly(filter: Filter, keepFull: bool, eventTypes: seq<WatchEventType>)
    ensures FollowsInformer(filter, keepFull, eventTypes)
       <==> (forall obj :: filter(obj) == None) || ListensEnough(filter, eventTypes)
  {
    var settings := Settings(filter, keepFull, eventTypes);
    if ListensEnough(filter, eventTypes) {
      forall cache: Cache, inputs: seq<Input> | Delivered(inputs)
        ensures Agrees(Checksums(cache), HandleAll(Informer(settings, cache, false, []), inputs))
      {
        ListenerFollows(Informer(settings, cache, false, []), inputs);
      }
    } else if obj :| filter(obj) != None {
      if Added !in eventTypes {
        MissesAdded(settings, obj);
      } else if Deleted !in eventTypes {
        MissesLater(settings, obj, WatchEvent(obj, Deleted));
      } else {
        var a: RawObject, b: RawObject :| a.resourceId == b.resourceId && filter(b).Some?
          && !(filter(a).Some? && filter(a).value.checksum == filter(b).value.checksum);
        MissesLater(settings, a, WatchEvent(b, Modified));
      }
    } else {
      forall cache: Cache, inputs: seq<Input>
        ensures Agrees(Checksums(cache), HandleAll(Informer(settings, cache, false, []), inputs))
      {
        NothingPasses(Informer(settings, cache, false, []), inputs);
      }
    }
  }

  lemma {:induction false} NothingPasses(s: Informer, inputs: seq<Input>)
    requires (forall obj :: s.settings.filter(obj) == None) && s.emitted == []
    ensures Agrees(Checksums(s.cache), HandleAll(s, inputs)) && HandleAll(s, inputs).settings == s.settings
    decreases |inputs|
  {
    if inputs != [] {
      NothingPasses(s, inputs[..|inputs| - 1]);
    }
  }

  /** Suppression is exact: an enabled event is emitted just when it changes what is known,
      except that a delete is always emitted. */
  lemma EmittedExactly(s: Informer, ev: WatchEvent)
    requires ev.eventType in s.settings.eventTypes
    ensures Handle(s, ev).emitted == s.emitted || |Handle(s, ev).emitted| == |s.emitted| + 1
    ensures Handle(s, ev).emitted != s.emitted <==>
      !s.stopped && s.settings.filter(ev.obj).Some? &&
      (ev.eventType == Deleted || Checksums(Handle(s, ev).cache) != Checksums(s.cache))
  {
    var id := ev.obj.resourceId;
    var s' := Handle(s, ev);
    if !s.stopped && s.settings.filter(ev.obj).Some? && ev.eventType != Deleted {
      var o := Filtered(s.settings.filter, s.settings.keepFull, ev.obj).value;
      assert Checksums(s'.cache)[id] == o.checksum;
      if id in s.cache && s.cache[id].checksum == o.checksum {
        assert Checksums(s'.cache) == Checksums(s.cache);
      } else if id in s.cache {
        assert Checksums(s.cache)[id] != o.checksum;
      } else {
        assert id !in Checksums(s.cache);
      }
    }
  }

  function Redeliver(items: seq<RawObject>): (r: seq<Input>)
    ensures |r| == |items| && forall i :: 0 <= i < |items| ==> r[i] == Watch(WatchEvent(items[i], Added))
  {
    seq(|items|, i requires 0 <= i < |items| => Watch(WatchEvent(items[i], Added)))
  }

  ghost predicate DistinctResources(items: seq<RawObject>) {
    forall i, j :: 0 <= i < j < |items| ==> items[i].resourceId != items[j].resourceId
  }

  lemma {:induction false} ListedContains(filter: Filter, keepFull: bool, items: seq<RawObject>, i: nat)
    requires i < |items| && DistinctResources(items) && filter(items[i]).Some?
    ensures items[i].resourceId in Listed(filter, keepFull, items)
    ensures Listed(filter, keepFull, items)[items[i].resourceId] == Filtered(filter, keepFull, items[i]).value
    decreases |items|
  {
    if i < |items| - 1 {
      ListedContains(filter, keepFull, items[..|items| - 1], i);
      assert items[i].resourceId != items[|items| - 1].resourceId;
    }
  }

  /** The informer first re-delivers every listed object as Added. If nothing has changed
      since the list, the hook is not bothered and the cache stays the same. */
  lemma {:induction false} RelistIsSilent(s: Informer, items: seq<RawObject>, n: nat)
    requires n <= |items| && DistinctResources(items)
    requires forall i :: 0 <= i < |items| ==> s.settings.filter(items[i]).Some?
    requires Listed(s.settings.filter, s.settings.keepFull, items).Items <= s.cache.Items
    ensures HandleAll(s, Redeliver(items[..n])) == s
    decreases n
  {
    if n > 0 {
      RelistIsSilent(s, items, n - 1);
      assert Redeliver(items[..n])[..n - 1] == Redeliver(items[..n - 1]);
      ListedContains(s.settings.filter, s.settings.keepFull, items, n - 1);
      var id := items[n - 1].resourceId;
      var listed := Listed(s.settings.filter, s.settings.keepFull, items);
      assert (id, listed[id]) in listed.Items;
      assert s.cache[id := listed[id]] == s.cache;
    }
  }
}
