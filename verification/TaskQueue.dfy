/**
 The queue object itself: its item list is reassigned and shifted in place by its methods,
 and its tasks are shared objects whose metadata the hook handler updates.
 */
module TaskQueues {
  import opened Sequences
  import opened BindingContexts
  import opened Tasks
  import opened Backoff
  import opened WorkerMachine

  class BaseTask {
    const id: string
    const kind: TaskKind
    const queueName: string
    var metadata: Option<HookMetadata>
    var failureCount: nat

    constructor (id: string, kind: TaskKind, queueName: string, metadata: Option<HookMetadata>)
      ensures this.id == id && this.kind == kind && this.queueName == queueName
      ensures this.metadata == metadata && failureCount == 0
    {
      this.id, this.kind, this.queueName, this.metadata, this.failureCount := id, kind, queueName, metadata, 0;
    }

    function View(): Task
      reads this
    {
      Task(id, kind, queueName, metadata, failureCount)
    }
  }

  // ---------- Lists of task objects ----------

  /** A search for the id meets it before any nil slot. Searching panics on a nil slot, and the slots
      behind the id are not looked into. */
  predicate Reaches(items: seq<BaseTask?>, id: string) {
    items == [] || (items[0] != null && (items[0].id == id || Reaches(items[1..], id)))
  }

  lemma {:induction false} ReachesWithoutNil(items: seq<BaseTask?>, id: string)
    requires null !in items
    ensures Reaches(items, id)
  {
    if items != [] {
      ReachesWithoutNil(items[1..], id);
    }
  }

  /** The position of the first task with this id, or the length. */
  function Find(items: seq<BaseTask?>, id: string): (k: nat)
    requires Reaches(items, id)
    ensures k <= |items|
    ensures k < |items| ==> items[k] != null && items[k].id == id
    ensures forall i :: 0 <= i < k ==> items[i] != null && items[i].id != id
  {
    if items == [] || items[0].id == id then 0 else 1 + Find(items[1..], id)
  }

  lemma {:induction false} FindIs(items: seq<BaseTask?>, id: string, k: nat)
    requires k <= |items|
    requires forall i :: 0 <= i < k ==> items[i] != null && items[i].id != id
    requires k < |items| ==> items[k] != null && items[k].id == id
    ensures Reaches(items, id) && Find(items, id) == k
  {
    if k > 0 {
      FindIs(items[1..], id, k - 1);
    }
  }

  ghost function Views(items: seq<BaseTask?>): (r: seq<Task>)
    requires null !in items
    reads set t | t in items
    ensures |r| == |items| && forall i :: 0 <= i < |items| ==> r[i] == items[i].View()
  {
    seq(|items|, i requires 0 <= i < |items| && null !in items reads set t | t in items => items[i].View())
  }

  datatype Result = Result(
    status: Status,
    headTasks: seq<BaseTask>,
    tailTasks: seq<BaseTask>,
    afterTasks: seq<BaseTask>,
    delayBeforeNextTask: nat)

  lemma InsertKeepsNil(items: seq<BaseTask?>, k: nat, t: BaseTask)
    requires k <= |items|
    ensures null in items[..k] + [t] + items[k..] <==> null in items
  {
    assert items == items[..k] + items[k..];
  }

  /** Copying with a new element at `k`. */
  lemma Inserting<T>(xs: seq<T>, k: nat, x: T, i: nat)
    requires k <= i <= |xs|
    ensures i == k ==> xs[..k] + [x] + xs[k..i] == xs[..k] + [x]
    ensures i < |xs| ==> xs[..k] + [x] + xs[k..i + 1] == xs[..k] + [x] + xs[k..i] + [xs[i]]
  {
    if i < |xs| {
      assert xs[k..i + 1] == xs[k..i] + [xs[i]];
    }
  }

  class TaskQueue {
    var items: seq<BaseTask?>

    constructor ()
      ensures items == []
    {
      items := [];
    }

    /** No nil slot, so that every search by id can go through the whole list. */
    ghost predicate Valid()
      reads this
    {
      null !in items
    }

    method AddFirst(t: BaseTask)
      modifies this
      ensures items == [t] + old(items)
    {
      items := [t] + items;
    }

    method AddLast(t: BaseTask)
      modifies this
      ensures items == old(items) + [t]
    {
      items := items + [t];
    }

    method GetFirst() returns (t: BaseTask?)
      ensures items == [] ==> t == null
      ensures items != [] ==> t == items[0]
    {
      if items == [] {
        return null;
      }
      return items[0];
    }

    method RemoveFirst() returns (t: BaseTask?)
      modifies this
      ensures old(items) == [] ==> t == null && items == []
      ensures old(items) != [] ==> old(items) == [t] + items
    {
      if items == [] {
        return null;
      }
      t := items[0];
      items := items[1..];
    }

    method Remove(id: string) returns (t: BaseTask?)
      requires Reaches(items, id)
      modifies this
      ensures var k := Find(old(items), id);
        if k < |old(items)| then t == old(items)[k] && items == old(items)[..k] + old(items)[k + 1..]
        else t == null && items == old(items)
    {
      hide Find;
      hide Reaches;
      var delId := -1;
      ghost var k := Find(items, id);
      var i := 0;
      while i < |items| && delId == -1
        invariant items == old(items) && 0 <= i <= |items|
        invariant delId == -1 ==> i <= k
        invariant delId != -1 ==> delId == k < |items|
      {
        if items[i].id == id {
          delId := i;
        }
        i := i + 1;
      }
      if delId == -1 {
        return null;
      }
      t := items[delId];
      items := items[..delId] + items[delId + 1..];
    }

    /** The insertion goes behind the first task with this id. If there is none, the new task
        is lost and a nil slot is left at the end. */
    method AddAfter(id: string, newTask: BaseTask)
      requires Reaches(items, id)
      modifies this
      ensures var k := Find(old(items), id);
        items == if k < |old(items)| then old(items)[..k + 1] + [newTask] + old(items)[k + 1..] else old(items) + [null]
      ensures null !in items <==> null !in old(items) && Find(old(items), id) < |old(items)|
    {
      hide Find;
      hide Reaches;
      var newItems := new BaseTask?[|items| + 1](_ => null);
      var idFound := false;
      var i := 0;
      ghost var k := Find(items, id);
      while i < |items|
        invariant 0 <= i <= |items|
        invariant items == old(items) && fresh(newItems) && newItems.Length == |items| + 1
        invariant idFound <==> k < i
        invariant !idFound ==> newItems[..i] == items[..i] && forall j :: i <= j <= |items| ==> newItems[j] == null
        invariant idFound ==> newItems[..i + 1] == items[..k + 1] + [newTask] + items[k + 1..i]
      {
        var t := items[i];
        ghost var filled := newItems[..if idFound then i + 1 else i];
        if !idFound {
          newItems[i] := t;
          if t.id == id {
            idFound := true;
            newItems[i + 1] := newTask;
            assert newItems[..i + 2] == filled + [t] + [newTask];
            Inserting(items, i + 1, newTask, i + 1);
          } else {
            assert newItems[..i + 1] == filled + [t];
          }
        } else {
          newItems[i + 1] := t;
          assert newItems[..i + 2] == filled + [t];
          Inserting(items, k + 1, newTask, i);
        }
        i := i + 1;
      }
      ghost var was := items;
      items := newItems[..];
      if idFound {
        assert was[k + 1..i] == was[k + 1..];
        InsertKeepsNil(was, k + 1, newTask);
      } else {
        assert items == was + [null];
        assert items[|was|] == null;
      }
    }

    method AddBefore(id: string, newTask: BaseTask)
      requires Reaches(items, id)
      modifies this
      ensures var k := Find(old(items), id);
        items == if k < |old(items)| then old(items)[..k] + [newTask] + old(items)[k..] else old(items) + [null]
      ensures null !in items <==> null !in old(items) && Find(old(items), id) < |old(items)|
    {
      hide Find;
      hide Reaches;
      var newItems := new BaseTask?[|items| + 1](_ => null);
      var idFound := false;
      var i := 0;
      ghost var k := Find(items, id);
      while i < |items|
        invariant 0 <= i <= |items|
        invariant items == old(items) && fresh(newItems) && newItems.Length == |items| + 1
        invariant idFound <==> k < i
        invariant !idFound ==> newItems[..i] == items[..i] && forall j :: i <= j <= |items| ==> newItems[j] == null
        invariant idFound ==> newItems[..i + 1] == items[..k] + [newTask] + items[k..i]
      {
        var t := items[i];
        if !idFound {
          if t.id != id {
            newItems[i] := t;
          } else {
            idFound := true;
            newItems[i] := newTask;
            newItems[i + 1] := t;
          }
        } else {
          newItems[i + 1] := t;
        }
        i := i + 1;
      }
      ghost var was := items;
      items := newItems[..];
      if idFound {
        assert was[k..i] == was[k..];
        InsertKeepsNil(was, k, newTask);
      } else {
        assert items == was + [null];
        assert items[|was|] == null;
      }
    }

    method Filter(filterFn: BaseTask? -> bool)
      modifies this
      ensures items == Select(old(items), filterFn)
    {
      var newItems: seq<BaseTask?> := [];
      var i := 0;
      while i < |items|
        invariant items == old(items) && 0 <= i <= |items|
        invariant newItems == Select(items[..i], filterFn)
      {
        assert items[..i + 1] == items[..i] + [items[i]];
        SelectAppend(items[..i], [items[i]], filterFn);
        if filterFn(items[i]) {
          newItems := newItems + [items[i]];
        }
        i := i + 1;
      }
      assert items[..i] == items;
      items := newItems;
    }

    /** AfterTasks, from the last to the first, each put right behind `t`. */
    method AddAllAfter(t: BaseTask, tasks: seq<BaseTask>)
      requires Valid() && items != [] && items[0] == t
      modifies this
      ensures Valid() && items == [t] + tasks + old(items)[1..]
    {
      ghost var rest: seq<BaseTask?> := items[1..];
      var i := |tasks|;
      while i > 0
        invariant 0 <= i <= |tasks|
        invariant items == [t] + tasks[i..] + rest && Valid()
      {
        i := i - 1;
        AddBehindHead(t, tasks[i]);
        assert tasks[i..] == [tasks[i]] + tasks[i + 1..];
        assert ([t] + tasks[i + 1..] + rest)[1..] == tasks[i + 1..] + rest;
      }
    }

    method AddBehindHead(t: BaseTask, newTask: BaseTask)
      requires Valid() && items != [] && items[0] == t
      modifies this
      ensures Valid() && items == [t] + ([newTask] + old(items)[1..])
    {
      FindIs(items, t.id, 0);
      AddAfter(t.id, newTask);
    }

    method AddAllLast(tasks: seq<BaseTask>)
      requires Valid()
      modifies this
      ensures Valid() && items == old(items) + tasks
    {
      var i := 0;
      while i < |tasks|
        invariant 0 <= i <= |tasks|
        invariant items == old(items) + tasks[..i] && Valid()
      {
        AddLast(tasks[i]);
        i := i + 1;
      }
    }

    /** HeadTasks are pushed one by one, so they end up reversed. */
    method AddAllFirst(tasks: seq<BaseTask>)
      requires Valid()
      modifies this
      ensures Valid() && items == Reverse(tasks) + old(items)
    {
      var i := 0;
      while i < |tasks|
        invariant 0 <= i <= |tasks|
        invariant items == Reverse(tasks[..i]) + old(items) && Valid()
      {
        assert tasks[..i + 1] == tasks[..i] + [tasks[i]];
        ReverseSnoc(tasks[..i], tasks[i]);
        AddFirst(tasks[i]);
        i := i + 1;
      }
      assert tasks[..i] == tasks;
    }

    method ReplaceHead(t: BaseTask, res: Result)
      requires Valid() && items != [] && items[0] == t
      modifies this
      ensures Valid()
      ensures items == Reverse(res.headTasks) + (res.afterTasks + old(items)[1..] + res.tailTasks)
    {
      AddAllAfter(t, res.afterTasks);
      AddAllLast(res.tailTasks);
      RemoveHead(t);
      assert items == res.afterTasks + old(items)[1..] + res.tailTasks;
      AddAllFirst(res.headTasks);
    }

    method RemoveHead(t: BaseTask)
      requires Valid() && items != [] && items[0] == t
      modifies this
      ensures Valid() && items == old(items)[1..]
    {
      FindIs(items, t.id, 0);
      var _ := Remove(t.id);
    }

    /** What the worker does with the result of the task at the head. On success the queue
        becomes the head tasks in reverse, the tasks to run after, the rest and the tail tasks. */
    method HandleResult(t: BaseTask, res: Result)
      requires Valid() && items != [] && items[0] == t
      modifies this, t`failureCount
      ensures Valid()
      ensures res.status == Success ==>
        items == Reverse(res.headTasks) + (res.afterTasks + old(items)[1..] + res.tailTasks)
      ensures res.status != Success ==> items == old(items)
      ensures t.failureCount == old(t.failureCount) + if res.status == Fail then 1 else 0
    {
      match res.status {
        case Fail =>
          t.failureCount := t.failureCount + 1;
        case Success =>
          ReplaceHead(t, res);
        case Repeat =>
        case NoStatus =>
      }
    }
  }

  /** The sleep before the next task, as chosen in the same switch over the status. */
  method NextSleepDelay(status: Status, delayBeforeNextTask: nat, failureCount: nat, rnd: int) returns (d: nat)
    requires IsRandomMs(rnd)
    ensures d == NextDelay(TaskResult(status, [], [], delayBeforeNextTask), failureCount, rnd)
    ensures delayBeforeNextTask != 0 ==> d == delayBeforeNextTask
    ensures delayBeforeNextTask == 0 && status == Repeat ==> d == 25_000_000
    ensures delayBeforeNextTask == 0 && (status == Success || status == NoStatus) ==> d == 0
    ensures delayBeforeNextTask == 0 && status == Fail ==>
      d == if failureCount == 0 then 5_000_000_000
           else if failureCount == 1 then 6_000_000_000 + rnd / 100 * 100_000_000
           else if failureCount == 2 then 7_000_000_000 + rnd / 100 * 100_000_000
           else if failureCount == 3 then 9_000_000_000 + rnd / 100 * 100_000_000
           else if failureCount == 4 then 13_000_000_000 + rnd / 100 * 100_000_000
           else if failureCount == 5 then 21_000_000_000 + rnd / 100 * 100_000_000
           else 32_000_000_000
  {
    DelaysOfFailures(failureCount, rnd);
    hide CalculateDelay;
    d := 0;
    match status {
      case Fail =>
        DelayRange(DELAY_ON_FAILED_TASK, failureCount, rnd);
        d := CalculateDelay(DELAY_ON_FAILED_TASK, failureCount, rnd);
      case Success =>
      case Repeat => d := DELAY_ON_REPEAT;
      case NoStatus =>
    }
    if delayBeforeNextTask != 0 {
      d := delayBeforeNextTask;
    }
  }

  // ---------- Combining on the queue object ----------

  function KeepOut(ids: set<string>): BaseTask? -> bool {
    (x: BaseTask?) => x == null || x.id !in ids
  }

  /** The filter built from the map of ids to keep (true) or to drop (false). */
  function KeepListed(tasksFilter: map<string, bool>): BaseTask? -> bool {
    (x: BaseTask?) => x == null || x.id !in tasksFilter || tasksFilter[x.id]
  }

  lemma {:induction false} SameFilter(items: seq<BaseTask?>, tasksFilter: map<string, bool>, ids: set<string>)
    requires forall id :: id in ids <==> id in tasksFilter && !tasksFilter[id]
    ensures Select(items, KeepListed(tasksFilter)) == Select(items, KeepOut(ids))
  {
    if items != [] {
      SameFilter(items[1..], tasksFilter, ids);
    }
  }

  lemma {:induction false} FilterIsWithout(items: seq<BaseTask?>, ids: set<string>)
    requires null !in items
    ensures null !in Select(items, KeepOut(ids))
    ensures Views(Select(items, KeepOut(ids))) == Without(Views(items), ids)
  {
    if items != [] {
      var rest := Select(items[1..], KeepOut(ids));
      FilterIsWithout(items[1..], ids);
      assert Views(items)[1..] == Views(items[1..]);
      if items[0].id !in ids {
        ViewsCons(items[0], rest);
      } else {
        assert Select(items, KeepOut(ids)) == rest;
      }
    }
  }

  lemma ViewsSnoc(a: seq<BaseTask>, x: BaseTask)
    ensures Views(a + [x]) == Views(a) + [x.View()]
  {
  }

  /** After `i` turns of the closure passed to Iterate. */
  ghost predicate ScannedTo(views: seq<Task>, i: nat, t: Task, stop: Task -> bool, taken: seq<Task>, stopped: bool) {
    && i <= |views|
    && Scan(views, t, stop) == taken + if stopped then [] else Scan(views[i..], t, stop)
  }

  lemma ScanTurn(views: seq<Task>, i: nat, t: Task, stop: Task -> bool, taken: seq<Task>, stopped: bool)
    requires i < |views| && ScannedTo(views, i, t, stop, taken, stopped)
    ensures stopped || views[i].id == t.id ==> ScannedTo(views, i + 1, t, stop, taken, stopped)
    ensures !stopped && views[i].id != t.id ==>
      if SameHookAndKind(t, views[i]) && !stop(views[i])
      then ScannedTo(views, i + 1, t, stop, taken + [views[i]], false)
      else ScannedTo(views, i + 1, t, stop, taken, true)
  {
    assert views[i..][1..] == views[i + 1..];
  }

  lemma ScanEnds(views: seq<Task>, t: Task, stop: Task -> bool, taken: seq<Task>, stopped: bool)
    ensures ScannedTo(views, 0, t, stop, [], false)
    ensures ScannedTo(views, |views|, t, stop, taken, stopped) ==> taken == Scan(views, t, stop)
  {
    assert views[0..] == views && views[|views|..] == [];
  }

  /** What the closure passed to Iterate decides about a task other than `t`. */
  method StopsAt(t: BaseTask, x: BaseTask, stopCombineFn: Task -> bool) returns (stopIterate: bool)
    requires t.metadata.Some?
    ensures stopIterate <==> !(SameHookAndKind(t.View(), x.View()) && !stopCombineFn(x.View()))
  {
    if x.metadata == None {
      return true;
    }
    if x.metadata.value.hookName == t.metadata.value.hookName && x.kind == t.kind {
      return stopCombineFn(x.View());
    }
    return true;
  }

  method Collect(others: seq<BaseTask>, x: BaseTask) returns (more: seq<BaseTask>)
    ensures more == others + [x] && Views(more) == Views(others) + [x.View()]
  {
    ViewsSnoc(others, x);
    more := others + [x];
  }

  /** Iterate with the closure that collects absorbable tasks until it stops. */
  method ScanTasks(q: TaskQueue, t: BaseTask, stopCombineFn: Task -> bool) returns (others: seq<BaseTask>)
    requires q.Valid() && t.metadata.Some?
    ensures Views(others) == Scan(Views(q.items), t.View(), stopCombineFn)
  {
    hide SameHookAndKind;
    hide ScannedTo;
    others := [];
    ghost var me, views := t.View(), Views(q.items);
    var stopIterate := false;
    var i := 0;
    ScanEnds(views, me, stopCombineFn, [], false);
    while i < |q.items|
      invariant 0 <= i <= |q.items|
      invariant ScannedTo(views, i, me, stopCombineFn, Views(others), stopIterate)
    {
      var x := q.items[i];
      ScanTurn(views, i, me, stopCombineFn, Views(others), stopIterate);
      if !stopIterate && x.id != t.id {
        stopIterate := StopsAt(t, x, stopCombineFn);
        if !stopIterate {
          others := Collect(others, x);
        }
      }
      i := i + 1;
    }
    ScanEnds(views, me, stopCombineFn, Views(others), stopIterate);
  }

  lemma IdsSnoc(ts: seq<Task>, t: Task)
    ensures Ids(ts + [t]) == Ids(ts) + {t.id}
  {
    var q := ts + [t];
    assert q[|ts|] == t;
    forall x | x in ts ensures x in q {
    }
  }

  method JoinContexts(t: BaseTask, others: seq<BaseTask>) returns (combined: seq<BindingContext>)
    requires t.metadata.Some?
    ensures combined == Contexts(t.View()) + AllContexts(Views(others))
  {
    ghost var views := Views(others);
    combined := t.metadata.value.contexts;
    var i := 0;
    while i < |others|
      invariant 0 <= i <= |others|
      invariant combined + AllContexts(views[i..]) == Contexts(t.View()) + AllContexts(views)
    {
      var x := others[i];
      assert views[i..][0] == x.View() && views[i..][1..] == views[i + 1..];
      combined := combined + if x.metadata.Some? then x.metadata.value.contexts else [];
      i := i + 1;
    }
  }

  /** Marks which ids stay in the queue and which go. */
  method MarkTasks(t: BaseTask, others: seq<BaseTask>) returns (tasksFilter: map<string, bool>)
    requires forall i :: 0 <= i < |others| ==> others[i].id != t.id
    ensures forall id :: id in Ids(Views(others)) <==> id in tasksFilter && !tasksFilter[id]
  {
    ghost var views := Views(others);
    tasksFilter := map[t.id := true];
    var i := 0;
    while i < |others|
      invariant 0 <= i <= |others|
      invariant t.id in tasksFilter && tasksFilter[t.id]
      invariant forall id :: id in Ids(views[..i]) <==> id in tasksFilter && !tasksFilter[id]
    {
      IdsSnoc(views[..i], views[i]);
      assert views[..i + 1] == views[..i] + [views[i]];
      tasksFilter := tasksFilter[others[i].id := false];
      i := i + 1;
    }
    assert views[..i] == views;
  }

  /** The tasks behind `t` for the same hook are deleted from the queue; what they and `t`
      carried is returned compacted. Nothing happens without such tasks. */
  method CombineBindingContextForHook(q: TaskQueue?, t: BaseTask, stopCombineFn: Task -> bool)
    returns (bcs: Option<seq<BindingContext>>)
    requires q != null ==> q.Valid()
    modifies if q == null then {} else {q}
    ensures q == null ==> bcs == None
    ensures q != null && t.metadata == None ==> bcs == None && q.items == old(q.items)
    ensures q != null && t.metadata.Some? ==>
      (var others := Scan(old(Views(q.items)), t.View(), stopCombineFn);
      && bcs == (if others == [] then None else Some(Compact(Contexts(t.View()) + AllContexts(others))))
      && q.items == (if others == [] then old(q.items) else Select(old(q.items), KeepOut(Ids(others)))))
  {
    if q == null || t.metadata == None {
      return None;
    }
    var others := ScanTasks(q, t, stopCombineFn);
    if others == [] {
      return None;
    }
    forall i | 0 <= i < |others| ensures others[i].id != t.id {
      assert Views(others)[i] in Views(others);
    }
    var combined := JoinContexts(t, others);
    var tasksFilter := MarkTasks(t, others);
    SameFilter(q.items, tasksFilter, Ids(Views(others)));
    q.Filter(KeepListed(tasksFilter));
    var compacted := CompactLookahead(combined);
    return Some(compacted);
  }

  /** Filtering a queue headed by `t` and rewriting the head's contexts is the combine step. */
  lemma CombinedByFilter(items: seq<Task>, stop: Task -> bool)
    requires items != [] && DistinctIds(items)
    ensures var others := Scan(items, items[0], stop);
      && (others == [] ==> Combined(items, stop) == items)
      && (others != [] ==>
            && Without(items, Ids(others)) != [] && Without(items, Ids(others))[0] == items[0]
            && Combined(items, stop) == [WithContexts(items[0], Compact(Contexts(items[0]) + AllContexts(others)))]
                                        + Without(items, Ids(others))[1..])
  {
    var t, rest := items[0], items[1..];
    assert items == [t] + rest;
    ScanSkipsSelf(t, rest, stop);
    ScanIsPrefix(t, rest, stop);
    var others := Scan(rest, t, stop);
    assert items == [t] + others + items[1 + |others|..];
    DeleteMiddle(t, others, items[1 + |others|..]);
  }

  lemma HeadStaysFirst(items: seq<BaseTask?>, ids: set<string>)
    requires null !in items && items != [] && items[0].id !in ids
    ensures Select(items, KeepOut(ids)) == [items[0]] + Select(items[1..], KeepOut(ids))
    ensures null !in Select(items, KeepOut(ids))
  {
  }

  /** Only the head's view has changed since `views` was taken. */
  lemma CombinedOnObjects(before: seq<BaseTask?>, views: seq<Task>, others: seq<Task>)
    requires null !in before && before != [] && |views| == |before|
    requires DistinctIds(views) && others == Scan(views, views[0], NeverStop()) && others != []
    requires before[0].id == views[0].id
    requires Views(before[1..]) == views[1..]
    requires before[0].View() == WithContexts(views[0], Compact(Contexts(views[0]) + AllContexts(others)))
    ensures var after := Select(before, KeepOut(Ids(others)));
      null !in after && after != [] && after[0] == before[0] && Views(after) == Combined(views, NeverStop())
  {
    hide Views;
    hide Combined;
    hide Without;
    var ids := Ids(others);
    HeadNotAbsorbed(views, NeverStop());
    CombinedByFilter(views, NeverStop());
    HeadStaysFirst(before, ids);
    FilterIsWithout(before[1..], ids);
    ViewsCons(before[0], Select(before[1..], KeepOut(ids)));
    WithoutHead(views, ids);
  }

  lemma HeadNotAbsorbed(views: seq<Task>, stop: Task -> bool)
    requires views != []
    ensures views[0].id !in Ids(Scan(views, views[0], stop))
  {
  }

  lemma WithoutHead(views: seq<Task>, ids: set<string>)
    requires views != [] && views[0].id !in ids
    ensures Without(views, ids) == [views[0]] + Without(views[1..], ids)
    ensures Without(views, ids)[1..] == Without(views[1..], ids)
  {
  }

  lemma ViewsCons(x: BaseTask, rest: seq<BaseTask?>)
    requires null !in rest
    ensures null !in [x] + rest && Views([x] + rest) == [x.View()] + Views(rest)
  {
    assert ([x] + rest)[1..] == rest;
  }

  /** Combines into the head of the queue and stores the result in the head's metadata. */
  method CombineIntoHead(q: TaskQueue, t: BaseTask)
    requires q.Valid() && t.metadata.Some?
    modifies q, t`metadata
    ensures t.metadata.Some? && t.metadata == Some(old(t.metadata.value).(contexts := t.metadata.value.contexts))
    ensures old(q.items) != [] && old(q.items)[0] == t && DistinctIds(old(Views(q.items))) ==>
      && q.Valid() && q.items != [] && q.items[0] == t
      && Views(q.items) == Combined(old(Views(q.items)), NeverStop())
  {
    hide Combined, Scan, WithContexts, Select, KeepOut, Ids;
    ghost var before, views := q.items, Views(q.items);
    ghost var me := t.View();
    ghost var others := Scan(views, me, NeverStop());
    var bcs := CombineBindingContextForHook(q, t, NeverStop());
    if bcs.Some? {
      NewContexts(t, bcs.value);
      t.metadata := Some(t.metadata.value.(contexts := bcs.value));
    }
    if before != [] && before[0] == t && DistinctIds(views) {
      if others == [] {
        CombinedByFilter(views, NeverStop());
      } else {
        assert views[0] == me;
        OthersDiffer(before, views, t);
        RestUnchanged(before, views);
        CombinedOnObjects(before, views, others);
      }
    }
  }

  /** The view of a task after its contexts are replaced. */
  lemma NewContexts(t: BaseTask, bcs: seq<BindingContext>)
    requires t.metadata.Some?
    ensures Task(t.id, t.kind, t.queueName, Some(t.metadata.value.(contexts := bcs)), t.failureCount)
         == WithContexts(t.View(), bcs)
  {
  }

  lemma OthersDiffer(before: seq<BaseTask?>, views: seq<Task>, t: BaseTask)
    requires null !in before && before != [] && before[0] == t && |views| == |before| && DistinctIds(views)
    requires forall i :: 0 <= i < |before| ==> before[i].id == views[i].id
    ensures forall i :: 1 <= i < |before| ==> before[i] != t
  {
    forall i | 1 <= i < |before| ensures before[i] != t {
      assert views[i].id != views[0].id;
    }
  }

  lemma RestUnchanged(before: seq<BaseTask?>, views: seq<Task>)
    requires null !in before && before != [] && |views| == |before|
    requires forall i :: 1 <= i < |before| ==> before[i].View() == views[i]
    ensures Views(before[1..]) == views[1..]
  {
  }

  /** The handler of a HookRun task up to the hook's exit: `fails` says how the hook, or sending
      its metrics, ended. The head keeps the combined contexts for its next retry. */
  method TaskHandleHookRun(q: TaskQueue?, t: BaseTask, isV1: bool, fails: bool)
    returns (passed: seq<BindingContext>, status: Status)
    requires q != null ==> q.Valid()
    requires t.metadata.Some?
    modifies t`metadata, if q == null then {} else {q}
    ensures t.metadata == Some(old(t.metadata.value).(contexts := passed))
    ensures status == if fails && !old(t.metadata.value.allowFailure) then Fail else Success
    ensures !isV1 || q == null ==> passed == old(t.metadata.value.contexts) && (q != null ==> q.items == old(q.items))
    ensures isV1 && q != null && old(q.items) != [] && old(q.items)[0] == t && DistinctIds(old(Views(q.items))) ==>
      && q.Valid() && q.items != [] && q.items[0] == t
      && Views(q.items) == Combined(old(Views(q.items)), NeverStop())
      && exists n :: Absorbs(old(Views(q.items)), Views(q.items), n, passed)
  {
    hide Combined, Absorbs;
    if isV1 && q != null {
      ghost var before, first := q.items, Views(q.items);
      assert before != [] && before[0] == t ==> first[0] == t.View();
      CombineIntoHead(q, t);
      if before != [] && before[0] == t && DistinctIds(first) {
        CombinedAbsorbs(first);
        assert Views(q.items)[0] == t.View();
      }
    }
    passed := t.metadata.value.contexts;
    status := Success;
    if fails && !t.metadata.value.allowFailure {
      status := Fail;
    }
  }
}
