/**
 A monitor with its static informers, or with an informer of namespaces and the informers of
 namespaces that come and go. The contexts that they wait on form a tree; cancelling one stops
 everything below it.
 */
module Monitors {
  import opened Sequences

  // ---------- Contexts ----------

  /** A context by its position: the manager's context is 0, parents precede children. */
  datatype Context = Context(parent: Option<nat>, cancelled: bool)

  ghost predicate IsTree(contexts: seq<Context>) {
    forall c :: 0 <= c < |contexts| && contexts[c].parent.Some? ==> contexts[c].parent.value < c
  }

  /** Neither the context nor one it was derived from is cancelled. */
  ghost predicate Live(contexts: seq<Context>, c: nat)
    decreases c
  {
    c < |contexts| && !contexts[c].cancelled &&
    (contexts[c].parent.Some? ==> contexts[c].parent.value < c && Live(contexts, contexts[c].parent.value))
  }

  lemma {:induction false} LiveIsLocal(a: seq<Context>, b: seq<Context>, c: nat)
    requires c < |a| && c < |b| && forall i :: 0 <= i <= c ==> a[i] == b[i]
    ensures Live(a, c) <==> Live(b, c)
    decreases c
  {
    if a[c].parent.Some? && a[c].parent.value < c {
      LiveIsLocal(a, b, a[c].parent.value);
    }
  }

  // ---------- State ----------

  /** An informer and the context that its goroutine waits on. */
  datatype Informer = Informer(namespace: string, objName: string, ctx: nat)

  datatype State = State(
    contexts: seq<Context>,
    ctx: nat,
    staticNamespaces: set<string>,
    resourceInformers: seq<Informer>,
    varyingInformers: map<string, seq<Informer>>,
    cancelForNs: map<string, nat>,
    namespaceInformer: Option<nat>)   // the context that the informer of namespaces waits on

  /** namespace.labelSelector wins over namespace.nameSelector. */
  datatype NamespaceConfig = AnyNamespace | ByLabels | ByNames(names: seq<string>)

  /** MonitorConfig.Namespaces; the empty name stands for all namespaces. */
  function ConfiguredNamespaces(config: NamespaceConfig): seq<string> {
    match config
    case AnyNamespace => [""]
    case ByLabels => []
    case ByNames(names) => if names == [] then [""] else names
  }

  function Informers(objNames: seq<string>, ns: string, ctx: nat): (r: seq<Informer>)
    ensures |r| == |objNames|
    ensures forall i :: 0 <= i < |r| ==> r[i].ctx == ctx && r[i].namespace == ns && r[i].objName == objNames[i]
  {
    seq(|objNames|, i requires 0 <= i < |objNames| => Informer(ns, objNames[i], ctx))
  }

  /** Informers for each specified object name in each specified namespace. */
  function StaticInformers(objNames: seq<string>, nsNames: seq<string>, ctx: nat): seq<Informer> {
    if nsNames == [] then []
    else StaticInformers(objNames, nsNames[..|nsNames| - 1], ctx) + Informers(objNames, nsNames[|nsNames| - 1], ctx)
  }

  lemma {:induction false} StaticInformersAre(objNames: seq<string>, nsNames: seq<string>, ctx: nat, x: Informer)
    ensures x in StaticInformers(objNames, nsNames, ctx)
       <==> x.ctx == ctx && x.namespace in nsNames && x.objName in objNames
  {
    if nsNames != [] {
      var before, last := nsNames[..|nsNames| - 1], nsNames[|nsNames| - 1];
      assert nsNames == before + [last];
      StaticInformersAre(objNames, before, ctx, x);
      var more := Informers(objNames, last, ctx);
      assert StaticInformers(objNames, nsNames, ctx) == StaticInformers(objNames, before, ctx) + more;
      if x.ctx == ctx && x.namespace == last && x.objName in objNames {
        var k :| 0 <= k < |objNames| && objNames[k] == x.objName;
        assert more[k] == x;
      }
    }
  }

  /** What is watched from the beginning: each object name, in all namespaces at once when none is
      selected or no name is given, in the named ones otherwise, and nowhere with a label selector. */
  lemma StaticInformersFor(config: NamespaceConfig, objNames: seq<string>, ctx: nat, x: Informer)
    ensures x in StaticInformers(objNames, ConfiguredNamespaces(config), ctx)
       <==> x.ctx == ctx && x.objName in objNames && !config.ByLabels?
            && if config.ByNames? && config.names != [] then x.namespace in config.names else x.namespace == ""
  {
    StaticInformersAre(objNames, ConfiguredNamespaces(config), ctx, x);
  }

  function Attach(informers: seq<Informer>, ctx: nat): (r: seq<Informer>)
    ensures |r| == |informers| && forall i :: 0 <= i < |r| ==> r[i] == informers[i].(ctx := ctx)
  {
    seq(|informers|, i requires 0 <= i < |informers| => informers[i].(ctx := ctx))
  }

  /** A namespace appeared; `created` is false when creating its informers failed. */
  function Added(s: State, objNames: seq<string>, ns: string, created: bool): State {
    if ns in s.staticNamespaces || ns in s.varyingInformers then s
    else
      var c := |s.contexts|;
      s.(contexts := s.contexts + [Context(Some(s.ctx), false)],
         varyingInformers := s.varyingInformers[ns := if created then Informers(objNames, ns, c) else []],
         cancelForNs := s.cancelForNs[ns := c])
  }

  function Deleted(s: State, ns: string): State {
    if ns in s.staticNamespaces || ns !in s.cancelForNs then s
    else
      var c := s.cancelForNs[ns];
      s.(contexts := if c < |s.contexts| then s.contexts[c := s.contexts[c].(cancelled := true)] else s.contexts,
         varyingInformers := s.varyingInformers - {ns},
         cancelForNs := s.cancelForNs - {ns})
  }

  function Stopped(s: State): State {
    if s.ctx < |s.contexts| then s.(contexts := s.contexts[s.ctx := s.contexts[s.ctx].(cancelled := true)]) else s
  }

  // ---------- The monitor ----------

  class Monitor {
    const objNames: seq<string>
    var contexts: seq<Context>
    var ctx: nat
    var staticNamespaces: set<string>
    var resourceInformers: seq<Informer>
    var varyingInformers: map<string, seq<Informer>>
    var cancelForNs: map<string, nat>
    var namespaceInformer: Option<nat>

    ghost function View(): State
      reads this
    {
      State(contexts, ctx, staticNamespaces, resourceInformers, varyingInformers, cancelForNs, namespaceInformer)
    }

    /** Nothing is created yet; context 1 is the one given when the monitor was added. */
    ghost predicate Blank()
      reads this
    {
      && objNames != []
      && contexts == [Context(None, false), Context(Some(0), false)] && ctx == 1
      && staticNamespaces == {} && resourceInformers == []
      && varyingInformers == map[] && cancelForNs == map[] && namespaceInformer == None
    }

    /** Not started: everything waits on context 1. There are static informers, or there is an
        informer of namespaces, but not both. */
    ghost predicate Created()
      reads this
    {
      && contexts == [Context(None, false), Context(Some(0), false)] && ctx == 1
      && cancelForNs == map[]
      && varyingInformers.Keys !! staticNamespaces
      && HasOneKind(View())
    }

    constructor (names: seq<string>)
      ensures Blank() && objNames == if names == [] then [""] else names
    {
      objNames := if names == [] then [""] else names;
      contexts := [Context(None, false), Context(Some(0), false)];
      ctx := 1;
      staticNamespaces, resourceInformers, varyingInformers, cancelForNs := {}, [], map[], map[];
      namespaceInformer := None;
    }

    method CreateStaticInformers(nsNames: seq<string>, creates: string -> bool) returns (ok: bool)
      requires Blank()
      modifies this`staticNamespaces, this`resourceInformers
      ensures ok <==> forall i :: 0 <= i < |nsNames| ==> creates(nsNames[i])
      ensures ok ==> staticNamespaces == (set n | n in nsNames && n != "")
      ensures ok ==> resourceInformers == StaticInformers(objNames, nsNames, 1)
    {
      var i := 0;
      while i < |nsNames|
        invariant 0 <= i <= |nsNames|
        invariant forall j :: 0 <= j < i ==> creates(nsNames[j])
        invariant staticNamespaces == set n | n in nsNames[..i] && n != ""
        invariant resourceInformers == StaticInformers(objNames, nsNames[..i], 1)
      {
        if nsNames[i] != "" {
          staticNamespaces := staticNamespaces + {nsNames[i]};
        }
        if !creates(nsNames[i]) {
          return false;
        }
        resourceInformers := resourceInformers + Informers(objNames, nsNames[i], ctx);
        assert nsNames[..i + 1] == nsNames[..i] + [nsNames[i]];
        assert nsNames[..i + 1][..i] == nsNames[..i];
        i := i + 1;
      }
      assert nsNames[..i] == nsNames;
      ok := true;
    }

    method CreateVaryingInformers(existing: set<string>, creates: string -> bool)
      requires varyingInformers == map[] && ctx == 1
      modifies this`varyingInformers
      ensures varyingInformers.Keys == existing - staticNamespaces
      ensures forall n :: n in varyingInformers ==>
                varyingInformers[n] == if creates(n) then Informers(objNames, n, 1) else []
    {
      var todo := existing;
      while todo != {}
        invariant todo <= existing
        invariant varyingInformers.Keys == existing - todo - staticNamespaces
        invariant forall n :: n in varyingInformers ==>
                    varyingInformers[n] == if creates(n) then Informers(objNames, n, 1) else []
        decreases |todo|
      {
        var ns :| ns in todo;
        todo := todo - {ns};
        if ns !in staticNamespaces {
          varyingInformers := varyingInformers[ns := if creates(ns) then Informers(objNames, ns, ctx) else []];
        }
      }
    }

    /** Static informers for the configured namespaces; or, with a label selector, an informer of
        namespaces and informers for those `listed`, which is None when the selector is invalid or
        listing fails. Creation in a namespace works or fails as `creates` says. */
    method CreateInformers(config: NamespaceConfig, listed: Option<set<string>>, creates: string -> bool)
      returns (ok: bool)
      requires Blank()
      modifies this
      ensures ok <==>
        && (forall i :: 0 <= i < |ConfiguredNamespaces(config)| ==> creates(ConfiguredNamespaces(config)[i]))
        && (config.ByLabels? ==> listed.Some?)
      ensures ok ==> Created()
      ensures ok ==> namespaceInformer == if config.ByLabels? then Some(1) else None
      ensures ok ==> staticNamespaces == (set n | n in ConfiguredNamespaces(config) && n != "")
      ensures ok ==> resourceInformers == StaticInformers(objNames, ConfiguredNamespaces(config), 1)
      ensures ok ==> varyingInformers.Keys == if config.ByLabels? then listed.value else {}
      ensures ok ==> forall n :: n in varyingInformers ==>
                varyingInformers[n] == if creates(n) then Informers(objNames, n, 1) else []
    {
      ok := CreateStaticInformers(ConfiguredNamespaces(config), creates);
      if !ok {
        return;
      }
      StaticInformersWait(objNames, ConfiguredNamespaces(config), 1);
      if config.ByLabels? {
        namespaceInformer := Some(ctx);
        if listed == None {
          return false;
        }
        CreateVaryingInformers(listed.value, creates);
      }
    }

    /** The monitor gets a new context, and every dynamic namespace one below it. The static
        informers and the informer of namespaces keep the one they were created with. */
    method Start()
      requires Created()
      modifies this
      ensures Running(View())
      ensures cancelForNs.Keys == varyingInformers.Keys == old(varyingInformers.Keys)
      ensures forall n :: n in varyingInformers ==>
          varyingInformers[n] == Attach(old(varyingInformers)[n], cancelForNs[n])
      ensures staticNamespaces == old(staticNamespaces) && resourceInformers == old(resourceInformers)
      ensures namespaceInformer == old(namespaceInformer)
    {
      ctx := |contexts|;
      contexts := contexts + [Context(Some(0), false)];
      FirstContexts(contexts);
      StartNamespaces();
    }

    method StartNamespaces()
      requires ctx == 2 && cancelForNs == map[] && ContextsInv(contexts, cancelForNs, false)
      modifies this`contexts, this`varyingInformers, this`cancelForNs
      ensures ctx == 2 && ContextsInv(contexts, cancelForNs, false)
      ensures cancelForNs.Keys == varyingInformers.Keys == old(varyingInformers.Keys)
      ensures forall n :: n in cancelForNs ==> varyingInformers[n] == Attach(old(varyingInformers)[n], cancelForNs[n])
    {
      hide ContextsInv;
      var todo := varyingInformers.Keys;
      while todo != {}
        invariant todo <= varyingInformers.Keys == old(varyingInformers.Keys)
        invariant cancelForNs.Keys == varyingInformers.Keys - todo
        invariant ContextsInv(contexts, cancelForNs, false)
        invariant forall n :: n in cancelForNs ==>
            varyingInformers[n] == Attach(old(varyingInformers)[n], cancelForNs[n])
        invariant forall n :: n in todo ==> varyingInformers[n] == old(varyingInformers)[n]
        decreases |todo|
      {
        var ns :| ns in todo;
        todo := todo - {ns};
        NewNamespaceContext(contexts, cancelForNs, ns, false);
        StartNamespace(ns);
      }
    }

    method StartNamespace(ns: string)
      requires ns in varyingInformers
      modifies this`contexts, this`varyingInformers, this`cancelForNs
      ensures contexts == old(contexts) + [Context(Some(old(ctx)), false)]
      ensures cancelForNs == old(cancelForNs)[ns := |old(contexts)|]
      ensures varyingInformers == old(varyingInformers)[ns := Attach(old(varyingInformers)[ns], |old(contexts)|)]
    {
      var nsCtx := |contexts|;
      contexts := contexts + [Context(Some(ctx), false)];
      cancelForNs := cancelForNs[ns := nsCtx];
      varyingInformers := varyingInformers[ns := Attach(varyingInformers[ns], nsCtx)];
    }

    method OnNamespaceAdded(ns: string, created: bool)
      modifies this
      ensures View() == Added(old(View()), objNames, ns, created)
    {
      if ns in staticNamespaces || ns in varyingInformers {
        return;
      }
      varyingInformers := varyingInformers[ns := if created then Informers(objNames, ns, ctx) else []];
      var nsCtx := |contexts|;
      contexts := contexts + [Context(Some(ctx), false)];
      cancelForNs := cancelForNs[ns := nsCtx];
      varyingInformers := varyingInformers[ns := Attach(varyingInformers[ns], nsCtx)];
      assert created ==> Attach(Informers(objNames, ns, ctx), nsCtx) == Informers(objNames, ns, nsCtx);
    }

    method OnNamespaceDeleted(ns: string)
      requires forall n :: n in cancelForNs ==> cancelForNs[n] < |contexts|
      modifies this
      ensures View() == Deleted(old(View()), ns)
    {
      if ns in staticNamespaces || ns !in cancelForNs {
        return;
      }
      var c := cancelForNs[ns];
      contexts := contexts[c := contexts[c].(cancelled := true)];
      varyingInformers := varyingInformers - {ns};
      cancelForNs := cancelForNs - {ns};
    }

    method Stop()
      requires ctx < |contexts|
      modifies this
      ensures View() == Stopped(old(View()))
    {
      contexts := contexts[ctx := contexts[ctx].(cancelled := true)];
    }
  }

  // ---------- Invariant of a started monitor ----------

  predicate AttachedTo(informers: seq<Informer>, c: nat) {
    forall i :: 0 <= i < |informers| ==> informers[i].ctx == c
  }

  lemma {:induction false} StaticInformersWait(objNames: seq<string>, nsNames: seq<string>, ctx: nat)
    ensures AttachedTo(StaticInformers(objNames, nsNames, ctx), ctx)
    ensures objNames != [] ==> (StaticInformers(objNames, nsNames, ctx) == [] <==> nsNames == [])
  {
    if nsNames != [] {
      StaticInformersWait(objNames, nsNames[..|nsNames| - 1], ctx);
    }
  }

  /** Static informers or an informer of namespaces, waiting on context 1. */
  ghost predicate HasOneKind(s: State) {
    && AttachedTo(s.resourceInformers, 1)
    && (s.namespaceInformer == None || s.namespaceInformer == Some(1))
    && (s.namespaceInformer == None <==> s.resourceInformers != [])
  }

  /** Context 2 is the monitor's, cancelled by Stop. The contexts behind it were made for namespaces;
      those not cancelled belong to the namespaces with informers. */
  ghost predicate ContextsInv(contexts: seq<Context>, cancelForNs: map<string, nat>, stopped: bool) {
    && IsTree(contexts) && 2 < |contexts|
    && contexts[0] == Context(None, false) && contexts[1] == Context(Some(0), false)
    && contexts[2] == Context(Some(0), stopped)
    && (forall n :: n in cancelForNs ==> OwnsContext(contexts, cancelForNs[n]))
    && (forall n, m :: n in cancelForNs && m in cancelForNs && n != m ==> cancelForNs[n] != cancelForNs[m])
    && (forall c :: 2 < c < |contexts| && !contexts[c].cancelled ==> c in cancelForNs.Values)
  }

  ghost predicate OwnsContext(contexts: seq<Context>, c: nat) {
    2 < c < |contexts| && contexts[c] == Context(Some(2), false)
  }

  lemma FirstContexts(contexts: seq<Context>)
    requires contexts == [Context(None, false), Context(Some(0), false), Context(Some(0), false)]
    ensures ContextsInv(contexts, map[], false)
  {
  }

  lemma NewNamespaceContext(contexts: seq<Context>, cancelForNs: map<string, nat>, ns: string, stopped: bool)
    requires ContextsInv(contexts, cancelForNs, stopped) && ns !in cancelForNs
    ensures ContextsInv(contexts + [Context(Some(2), false)], cancelForNs[ns := |contexts|], stopped)
  {
    var cs, ns' := contexts + [Context(Some(2), false)], cancelForNs[ns := |contexts|];
    forall c | 2 < c < |cs| && !cs[c].cancelled ensures c in ns'.Values {
      if c == |contexts| {
        assert ns'[ns] == c;
      } else {
        var n :| n in cancelForNs && cancelForNs[n] == c;
        assert n != ns && ns'[n] == c;
      }
    }
  }

  lemma CancelNamespaceContext(contexts: seq<Context>, cancelForNs: map<string, nat>, ns: string, stopped: bool)
    requires ContextsInv(contexts, cancelForNs, stopped) && ns in cancelForNs
    ensures cancelForNs[ns] < |contexts|
    ensures ContextsInv(contexts[cancelForNs[ns] := contexts[cancelForNs[ns]].(cancelled := true)],
                        cancelForNs - {ns}, stopped)
  {
    var cs, ns' := contexts[cancelForNs[ns] := contexts[cancelForNs[ns]].(cancelled := true)], cancelForNs - {ns};
    forall c | 2 < c < |cs| && !cs[c].cancelled ensures c in ns'.Values {
      var n :| n in cancelForNs && cancelForNs[n] == c;
      assert n != ns && ns'[n] == c;
    }
  }

  /** Started, and stopped since or not. */
  ghost predicate WasStarted(s: State, stopped: bool) {
    && ContextsInv(s.contexts, s.cancelForNs, stopped) && s.ctx == 2
    && s.varyingInformers.Keys == s.cancelForNs.Keys
    && s.varyingInformers.Keys !! s.staticNamespaces
    && (forall n :: n in s.cancelForNs ==> AttachedTo(s.varyingInformers[n], s.cancelForNs[n]))
    && HasOneKind(s)
  }

  ghost predicate Running(s: State) {
    WasStarted(s, false)
  }

  datatype Callback = AddNs(ns: string, created: bool) | DeleteNs(ns: string)

  function Deliver(s: State, objNames: seq<string>, cb: Callback): State {
    match cb
    case AddNs(ns, created) => Added(s, objNames, ns, created)
    case DeleteNs(ns) => Deleted(s, ns)
  }

  function DeliverAll(s: State, objNames: seq<string>, cbs: seq<Callback>): State {
    if cbs == [] then s else Deliver(DeliverAll(s, objNames, cbs[..|cbs| - 1]), objNames, cbs[|cbs| - 1])
  }

  /** The namespaces that exist and have no static informers. */
  function Namespaces(before: set<string>, fixed: set<string>, cbs: seq<Callback>): set<string> {
    if cbs == [] then before
    else
      var names := Namespaces(before, fixed, cbs[..|cbs| - 1]);
      match cbs[|cbs| - 1]
      case AddNs(ns, _) => if ns in fixed then names else names + {ns}
      case DeleteNs(ns) => if ns in fixed then names else names - {ns}
  }

  lemma AddedKeeps(s: State, objNames: seq<string>, ns: string, created: bool, stopped: bool)
    requires WasStarted(s, stopped)
    ensures WasStarted(Added(s, objNames, ns, created), stopped)
  {
    if ns !in s.staticNamespaces && ns !in s.varyingInformers {
      NewNamespaceContext(s.contexts, s.cancelForNs, ns, stopped);
    }
  }

  lemma DeletedKeeps(s: State, ns: string, stopped: bool)
    requires WasStarted(s, stopped)
    ensures WasStarted(Deleted(s, ns), stopped)
  {
    if ns !in s.staticNamespaces && ns in s.cancelForNs {
      CancelNamespaceContext(s.contexts, s.cancelForNs, ns, stopped);
    }
  }

  lemma DeliverKeeps(s: State, objNames: seq<string>, cb: Callback, stopped: bool)
    requires WasStarted(s, stopped)
    ensures var s' := Deliver(s, objNames, cb);
      && WasStarted(s', stopped)
      && s'.staticNamespaces == s.staticNamespaces && s'.resourceInformers == s.resourceInformers
      && s'.namespaceInformer == s.namespaceInformer
      && s'.varyingInformers.Keys ==
           if cb.ns in s.staticNamespaces then s.varyingInformers.Keys
           else if cb.AddNs? then s.varyingInformers.Keys + {cb.ns}
           else s.varyingInformers.Keys - {cb.ns}
  {
    hide ContextsInv;
    match cb
    case AddNs(ns, created) => AddedKeeps(s, objNames, ns, created, stopped);
    case DeleteNs(ns) => DeletedKeeps(s, ns, stopped);
  }

  /** After any sequence of callbacks, before or after Stop, both maps have exactly the namespaces
      that the callbacks leave, and each informer of such a namespace waits on the context of its
      own. */
  lemma {:induction false} CallbacksFollowNamespaces(s: State, objNames: seq<string>, cbs: seq<Callback>, stopped: bool)
    requires WasStarted(s, stopped)
    ensures var s' := DeliverAll(s, objNames, cbs);
      && WasStarted(s', stopped)
      && s'.staticNamespaces == s.staticNamespaces && s'.resourceInformers == s.resourceInformers
      && s'.namespaceInformer == s.namespaceInformer
      && s'.varyingInformers.Keys == s'.cancelForNs.Keys == Namespaces(s.varyingInformers.Keys, s.staticNamespaces, cbs)
    decreases |cbs|
  {
    hide ContextsInv;
    if cbs != [] {
      CallbacksFollowNamespaces(s, objNames, cbs[..|cbs| - 1], stopped);
      DeliverKeeps(DeliverAll(s, objNames, cbs[..|cbs| - 1]), objNames, cbs[|cbs| - 1], stopped);
    }
  }

  /** Which contexts are live: the oldest one always, the monitor's and those of its namespaces until
      it is stopped, and no others. */
  lemma LiveContexts(s: State, stopped: bool)
    requires WasStarted(s, stopped)
    ensures Live(s.contexts, 1) && (Live(s.contexts, 2) <==> !stopped)
    ensures forall n :: n in s.cancelForNs ==> (Live(s.contexts, s.cancelForNs[n]) <==> !stopped)
    ensures forall c :: 2 < c < |s.contexts| && Live(s.contexts, c) ==> !stopped && c in s.cancelForNs.Values
  {
    assert Live(s.contexts, 0);
    forall c | 2 < c < |s.contexts| && !s.contexts[c].cancelled ensures s.contexts[c] == Context(Some(2), false) {
      var n :| n in s.cancelForNs && s.cancelForNs[n] == c;
      assert OwnsContext(s.contexts, c);
    }
  }

  lemma StopKeeps(s: State)
    requires Running(s)
    ensures WasStarted(Stopped(s), true)
  {
    forall n | n in s.cancelForNs ensures OwnsContext(Stopped(s).contexts, s.cancelForNs[n]) {
      assert OwnsContext(s.contexts, s.cancelForNs[n]);
    }
  }

  /** Stop cancels the context made by Start. From then on, whatever the callbacks do, the informers of
      dynamic namespaces are stopped, those of namespaces added later included, and the static ones
      and the informer of namespaces, which wait on the older context, are not. */
  lemma StopReaches(s: State, objNames: seq<string>, cbs: seq<Callback>)
    requires Running(s)
    ensures var s' := DeliverAll(Stopped(s), objNames, cbs);
      && s'.varyingInformers.Keys == Namespaces(s.varyingInformers.Keys, s.staticNamespaces, cbs)
      && s'.resourceInformers == s.resourceInformers && s'.namespaceInformer == s.namespaceInformer
      && (forall n, i :: n in s'.varyingInformers && 0 <= i < |s'.varyingInformers[n]| ==>
            !Live(s'.contexts, s'.varyingInformers[n][i].ctx))
      && (forall i :: 0 <= i < |s'.resourceInformers| ==> Live(s'.contexts, s'.resourceInformers[i].ctx))
      && (s'.namespaceInformer.Some? ==> Live(s'.contexts, s'.namespaceInformer.value))
  {
    StopKeeps(s);
    CallbacksFollowNamespaces(Stopped(s), objNames, cbs, true);
    LiveContexts(DeliverAll(Stopped(s), objNames, cbs), true);
  }

  ghost predicate AllStopped(s: State) {
    && (forall n, i :: n in s.varyingInformers && 0 <= i < |s.varyingInformers[n]| ==>
          !Live(s.contexts, s.varyingInformers[n][i].ctx))
    && (forall i :: 0 <= i < |s.resourceInformers| ==> !Live(s.contexts, s.resourceInformers[i].ctx))
    && (s.namespaceInformer.Some? ==> !Live(s.contexts, s.namespaceInformer.value))
  }

  /** "Stop stops all informers" is true of no monitor: there always is a static informer or an
      informer of namespaces, which goes on, and goes on delivering its callbacks. */
  lemma StopNeverStopsAll(s: State, objNames: seq<string>, cbs: seq<Callback>)
    requires Running(s)
    ensures !AllStopped(DeliverAll(Stopped(s), objNames, cbs))
  {
    StopReaches(s, objNames, cbs);
    var s' := DeliverAll(Stopped(s), objNames, cbs);
    if s.resourceInformers != [] {
      assert Live(s'.contexts, s'.resourceInformers[0].ctx);
    }
  }
}
