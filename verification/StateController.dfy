/** The state controller of the hook test framework: it drives a cluster from one set of manifests
    to another. */
module StateControllers {
  import opened Sequences

  datatype Id = Id(text: string)

  datatype Manifest = Manifest(id: Id, body: string)

  type Objects = map<Id, Manifest>

  datatype ClusterOp = Create(m: Manifest) | Update(m: Manifest) | Delete(m: Manifest)

  // ---------- What the caller asks for ----------

  /** The last manifest of an id wins. */
  function Target(manifests: seq<Manifest>): Objects {
    if manifests == [] then map[]
    else Target(manifests[..|manifests| - 1])[manifests[|manifests| - 1].id := manifests[|manifests| - 1]]
  }

  ghost predicate DistinctIds(manifests: seq<Manifest>) {
    forall i, j :: 0 <= i < j < |manifests| ==> manifests[i].id != manifests[j].id
  }

  function At(objects: Objects, id: Id): Option<Manifest> {
    if id in objects then Some(objects[id]) else None
  }

  function Added(before: Objects, after: Objects): set<Id> {
    set id | id in after && id !in before
  }

  function Changed(before: Objects, after: Objects): set<Id> {
    set id | id in before && id in after && before[id] != after[id]
  }

  function Removed(before: Objects, after: Objects): set<Id> {
    set id | id in before && id !in after
  }

  ghost predicate Between(now: Objects, before: Objects, after: Objects) {
    forall id :: At(now, id) == At(before, id) || At(now, id) == At(after, id)
  }

  lemma {:induction false} TargetIds(manifests: seq<Manifest>, id: Id)
    ensures id in Target(manifests) <==> exists m :: m in manifests && m.id == id
    ensures id in Target(manifests) ==> Target(manifests)[id].id == id
  {
    if manifests != [] {
      var before, last := manifests[..|manifests| - 1], manifests[|manifests| - 1];
      assert manifests == before + [last];
      TargetIds(before, id);
    }
  }

  lemma TargetSnoc(manifests: seq<Manifest>, m: Manifest)
    ensures Target(manifests + [m]) == Target(manifests)[m.id := m]
  {
    assert (manifests + [m])[..|manifests|] == manifests;
  }

  lemma {:induction false} TargetKeepsDistinct(manifests: seq<Manifest>, i: nat)
    requires DistinctIds(manifests) && i < |manifests|
    ensures manifests[i].id !in Target(manifests[..i])
    ensures manifests[i].id in Target(manifests) && Target(manifests)[manifests[i].id] == manifests[i]
  {
    TargetIds(manifests[..i], manifests[i].id);
    LaterIdsDiffer(manifests, i, |manifests|);
    assert manifests[..|manifests|] == manifests;
  }

  lemma {:induction false} LaterIdsDiffer(manifests: seq<Manifest>, i: nat, n: nat)
    requires DistinctIds(manifests) && i < n <= |manifests|
    ensures At(Target(manifests[..n]), manifests[i].id) == Some(manifests[i])
  {
    assert manifests[..n] == manifests[..n - 1] + [manifests[n - 1]];
    TargetSnoc(manifests[..n - 1], manifests[n - 1]);
    if i < n - 1 {
      LaterIdsDiffer(manifests, i, n - 1);
    }
  }

  function Written(before: Objects, after: Objects): nat {
    |Added(before, after)| + |Changed(before, after)|
  }

  lemma AddedSnoc(before: Objects, target: Objects, m: Manifest)
    requires m.id !in target
    ensures |Added(before, target[m.id := m])| == |Added(before, target)| + if m.id in before then 0 else 1
  {
    if m.id in before {
      assert Added(before, target[m.id := m]) == Added(before, target);
    } else {
      assert Added(before, target[m.id := m]) == Added(before, target) + {m.id};
    }
  }

  lemma ChangedSnoc(before: Objects, target: Objects, m: Manifest)
    requires m.id !in target
    ensures |Changed(before, target[m.id := m])|
         == |Changed(before, target)| + if m.id in before && before[m.id] != m then 1 else 0
  {
    if m.id in before && before[m.id] != m {
      assert Changed(before, target[m.id := m]) == Changed(before, target) + {m.id};
    } else {
      assert Changed(before, target[m.id := m]) == Changed(before, target);
    }
  }

  /** One manifest with a new id is one more object written, unless the object was like that. */
  lemma WrittenSnoc(before: Objects, manifests: seq<Manifest>, i: nat, now: Objects)
    requires DistinctIds(manifests) && i < |manifests|
    requires now == before + Target(manifests[..i])
    ensures
      Written(before, Target(manifests[..i + 1]))
      == Written(before, Target(manifests[..i])) + if At(now, manifests[i].id) == Some(manifests[i]) then 0 else 1
  {
    var m, target := manifests[i], Target(manifests[..i]);
    TargetKeepsDistinct(manifests, i);
    assert manifests[..i + 1] == manifests[..i] + [m];
    TargetSnoc(manifests[..i], m);
    AddedSnoc(before, target, m);
    ChangedSnoc(before, target, m);
  }

  lemma StillBetween(now: Objects, before: Objects, manifests: seq<Manifest>, i: nat)
    requires DistinctIds(manifests) && i < |manifests|
    requires Between(now, before, Target(manifests))
    ensures Between(now[manifests[i].id := manifests[i]], before, Target(manifests))
  {
    TargetKeepsDistinct(manifests, i);
  }

  lemma MergeSnoc(before: Objects, manifests: seq<Manifest>, i: nat)
    requires i < |manifests|
    ensures (before + Target(manifests[..i]))[manifests[i].id := manifests[i]] == before + Target(manifests[..i + 1])
  {
    assert manifests[..i + 1] == manifests[..i] + [manifests[i]];
    TargetSnoc(manifests[..i], manifests[i]);
  }

  // ---------- The cluster and the controller ----------

  /** The cluster may reject any attempt, and rejects what does not fit its objects. */
  class FakeCluster {
    const rejects: nat -> bool
    var attempts: nat
    var objects: Objects
    ghost var accepted: seq<ClusterOp>

    constructor (rejects: nat -> bool)
      ensures this.rejects == rejects && attempts == 0 && objects == map[] && accepted == []
    {
      this.rejects, attempts, objects, accepted := rejects, 0, map[], [];
    }

    method Do(op: ClusterOp) returns (ok: bool)
      modifies this
      ensures attempts == old(attempts) + 1
      ensures ok <==> !rejects(old(attempts)) && (op.Create? <==> op.m.id !in old(objects))
      ensures ok ==> accepted == old(accepted) + [op]
      ensures ok ==> objects == if op.Delete? then old(objects) - {op.m.id} else old(objects)[op.m.id := op.m]
      ensures !ok ==> accepted == old(accepted) && objects == old(objects)
    {
      ok := !rejects(attempts) && (op.Create? <==> op.m.id !in objects);
      attempts := attempts + 1;
      if ok {
        objects := if op.Delete? then objects - {op.m.id} else objects[op.m.id := op.m];
        accepted := accepted + [op];
      }
    }
  }

  class StateController {
    const cluster: FakeCluster
    var CurrentState: Objects

    constructor (cluster: FakeCluster)
      ensures this.cluster == cluster && CurrentState == map[]
    {
      this.cluster, CurrentState := cluster, map[];
    }

    /** The controller knows what is in the cluster. */
    ghost predicate Valid()
      reads this, cluster
    {
      && CurrentState == cluster.objects
      && forall id :: id in CurrentState ==> CurrentState[id].id == id
    }

    ghost predicate NoneRejected(since: nat)
      reads this, cluster
    {
      forall k :: since <= k < cluster.attempts ==> !cluster.rejects(k)
    }

    /** Creates a missing object and updates one that differs. */
    method WriteObject(m: Manifest) returns (events: nat, ok: bool)
      requires Valid()
      modifies this, cluster
      ensures Valid()
      ensures cluster.attempts >= old(cluster.attempts) && (ok <==> NoneRejected(old(cluster.attempts)))
      ensures |cluster.accepted| == |old(cluster.accepted)| + events
      ensures CurrentState == if ok then old(CurrentState)[m.id := m] else old(CurrentState)
      ensures events == if ok && At(old(CurrentState), m.id) != Some(m) then 1 else 0
    {
      events, ok := 0, true;
      if m.id !in CurrentState {
        ok := cluster.Do(Create(m));
        if ok {
          CurrentState := CurrentState[m.id := m];
          events := 1;
        }
      } else if CurrentState[m.id] != m {
        ok := cluster.Do(Update(m));
        if ok {
          CurrentState := CurrentState[m.id := m];
          events := 1;
        }
      } else {
        assert CurrentState == CurrentState[m.id := m];
      }
    }

    method WriteObjects(newManifests: seq<Manifest>) returns (generatedEvents: nat, ok: bool)
      requires Valid()
      modifies this, cluster
      ensures Valid()
      ensures cluster.attempts >= old(cluster.attempts) && (ok <==> NoneRejected(old(cluster.attempts)))
      ensures |cluster.accepted| == |old(cluster.accepted)| + generatedEvents
      ensures ok ==> CurrentState == old(CurrentState) + Target(newManifests)
      ensures DistinctIds(newManifests) ==> Between(CurrentState, old(CurrentState), Target(newManifests))
      ensures ok && DistinctIds(newManifests) ==> generatedEvents == Written(old(CurrentState), Target(newManifests))
    {
      generatedEvents, ok := 0, true;
      var i := 0;
      assert Added(CurrentState, Target([])) == {} && Changed(CurrentState, Target([])) == {};
      while i < |newManifests|
        invariant 0 <= i <= |newManifests|
        invariant Valid()
        invariant cluster.attempts >= old(cluster.attempts) && NoneRejected(old(cluster.attempts))
        invariant |cluster.accepted| == |old(cluster.accepted)| + generatedEvents
        invariant CurrentState == old(CurrentState) + Target(newManifests[..i])
        invariant DistinctIds(newManifests) ==> Between(CurrentState, old(CurrentState), Target(newManifests))
        invariant DistinctIds(newManifests) ==> generatedEvents == Written(old(CurrentState), Target(newManifests[..i]))
      {
        MergeSnoc(old(CurrentState), newManifests, i);
        if DistinctIds(newManifests) {
          StillBetween(CurrentState, old(CurrentState), newManifests, i);
          WrittenSnoc(old(CurrentState), newManifests, i, CurrentState);
        }
        var events;
        events, ok := WriteObject(newManifests[i]);
        generatedEvents := generatedEvents + events;
        if !ok {
          return;
        }
        i := i + 1;
      }
      assert newManifests[..i] == newManifests;
    }

    method DeleteObject(currId: Id) returns (ok: bool)
      requires Valid() && currId in CurrentState
      modifies this, cluster
      ensures Valid()
      ensures cluster.attempts >= old(cluster.attempts) && (ok <==> NoneRejected(old(cluster.attempts)))
      ensures |cluster.accepted| == |old(cluster.accepted)| + if ok then 1 else 0
      ensures CurrentState == if ok then old(CurrentState) - {currId} else old(CurrentState)
    {
      ok := cluster.Do(Delete(CurrentState[currId]));
      if ok {
        CurrentState := CurrentState - {currId};
      }
    }

    /** Deletes, in any order, what is not in the new state. */
    method DeleteObsolete(newState: Objects) returns (generatedEvents: nat, ok: bool)
      requires Valid()
      modifies this, cluster
      ensures Valid()
      ensures cluster.attempts >= old(cluster.attempts) && (ok <==> NoneRejected(old(cluster.attempts)))
      ensures |cluster.accepted| == |old(cluster.accepted)| + generatedEvents
      ensures forall id :: At(CurrentState, id) == At(old(CurrentState), id) || (id !in newState && id !in CurrentState)
      ensures ok ==> forall id :: At(CurrentState, id) == if id in newState then At(old(CurrentState), id) else None
      ensures ok ==> generatedEvents == |Removed(old(CurrentState), newState)|
    {
      generatedEvents, ok := 0, true;
      var ids := CurrentState.Keys;
      ghost var gone: set<Id> := {};
      while ids != {}
        invariant Valid()
        invariant cluster.attempts >= old(cluster.attempts) && NoneRejected(old(cluster.attempts))
        invariant |cluster.accepted| == |old(cluster.accepted)| + generatedEvents
        invariant ids <= CurrentState.Keys
        invariant generatedEvents == |gone|
        invariant forall id :: id in gone ==> id in old(CurrentState) && id !in newState
        invariant forall id :: At(CurrentState, id) == if id in gone then None else At(old(CurrentState), id)
        invariant forall id :: id in CurrentState ==> id in ids || id in newState
        decreases |ids|
      {
        var currId :| currId in ids;
        if currId !in newState {
          ok := DeleteObject(currId);
          if !ok {
            return;
          }
          generatedEvents := generatedEvents + 1;
          gone := gone + {currId};
        }
        ids := ids - {currId};
      }
      forall id ensures id in gone <==> id in Removed(old(CurrentState), newState) {
        assert At(CurrentState, id) == if id in gone then None else At(old(CurrentState), id);
      }
      assert gone == Removed(old(CurrentState), newState);
    }

    /** Controller and cluster agree whatever happens. Without a rejected attempt both end in the
        target, otherwise, with distinct ids, every object is in its old or its new state. */
    method ChangeState(newManifests: seq<Manifest>) returns (generatedEvents: nat, ok: bool)
      requires Valid()
      modifies this, cluster
      ensures Valid()
      ensures ok <==> NoneRejected(old(cluster.attempts))
      ensures |cluster.accepted| == |old(cluster.accepted)| + generatedEvents
      ensures ok ==> CurrentState == cluster.objects == Target(newManifests)
      ensures DistinctIds(newManifests) ==> Between(CurrentState, old(CurrentState), Target(newManifests))
      ensures
        ok && DistinctIds(newManifests) ==>
          var before, after := old(CurrentState), Target(newManifests);
          generatedEvents == |Added(before, after)| + |Changed(before, after)| + |Removed(before, after)|
    {
      generatedEvents, ok := WriteObjects(newManifests);
      if ok {
        label Written:
        var deleted;
        deleted, ok := DeleteObsolete(Target(newManifests));
        generatedEvents := generatedEvents + deleted;
        assert old@Written(CurrentState) == old(CurrentState) + Target(newManifests);
        assert Removed(old@Written(CurrentState), Target(newManifests))
             == Removed(old(CurrentState), Target(newManifests));
      }
    }
  }
}
