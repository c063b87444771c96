/**
 * The distributed coordinator: a table of bot instances, load-balanced task
 * assignment among the active and healthy ones, a sweep that drops instances
 * not seen within the timeout, and the task lists with their statistics.
 *
 * The election (a lock file), the shared-state file and the timers are not
 * modelled: whether this instance is the coordinator, and which instance is,
 * are constructor inputs, as are the generated instance and task ids, the
 * clock readings (milliseconds) and the `Math.random()` draw in [0, 1).
 */
module DistributedCoordinator {
  import opened Common

  /** An entry of the `instances` table. */
  datatype Instance = Instance(
    id: string,
    status: string,
    lastSeen: int,
    tasksCompleted: nat,
    currentLoad: int)

  const Active := "active"

  /** The entry `registerInstance()` writes for an instance. */
  function Registered(id: string, now: int): Instance
  {
    Instance(id, Active, now, 0, 0)
  }

  /** The load-balancing strategies, by configured name; any other name
      falls back to the first selectable instance. */
  datatype Strategy = RoundRobin | LeastConnections | RandomChoice | FirstSelectable

  const RoundRobinName := "round_robin"
  const LeastConnectionsName := "least_connections"
  const RandomName := "random"

  function StrategyNamed(name: string): Strategy
  {
    if name == RoundRobinName then RoundRobin
    else if name == LeastConnectionsName then LeastConnections
    else if name == RandomName then RandomChoice
    else FirstSelectable
  }

  const DefaultInstanceTimeout := 120000
  const Day := 24 * 60 * 60 * 1000

  const ScrapeGroup := "scrape_group"
  const ProcessPosts := "process_posts"
  const NoInstancesMessage := "No available instances"
  const UnknownTaskPrefix := "Unknown task type: "
  /** A scraping task loads `./fb-scanner-bot` relative to the coordinator's
      own directory, where there is no such module, so it always throws. */
  const ScraperMissingMessage := "Cannot find module './fb-scanner-bot'"
  /** A processing task without a `posts` list throws on `posts.length`. */
  const MissingPostsMessage := "Cannot read properties of undefined (reading 'length')"

  /** A task as the caller submits it: its type and, for processing, the ids
      of its posts. */
  datatype TaskRequest = TaskRequest(kind: string, posts: Option<seq<string>>)

  /** What a processing task returns: the post count and the ids processed. */
  datatype Processed = Processed(processed: nat, results: seq<string>)

  datatype TaskState =
    | Assigned
    | Completed(completedAt: int, duration: int, result: Processed)
    | Failed(error: string, failedAt: int)

  datatype Task = Task(
    id: string,
    kind: string,
    posts: Option<seq<string>>,
    assignedTo: string,
    createdAt: int,
    state: TaskState)

  /** What `distributeTask()` returns: a forwarded stub on a worker, the
      queued task when another instance was chosen, or the result of running
      the task here. */
  datatype Dispatch =
    | Forwarded(id: string, forwardedTo: Option<string>)
    | Queued(task: Task)
    | Ran(result: Processed)

  /** `getSystemStats()`; the success rate is in tenths of a percent. */
  datatype SystemStats = SystemStats(
    totalInstances: nat,
    activeInstances: nat,
    queued: nat,
    completed: nat,
    failed: nat,
    total: nat,
    successRateTenths: int,
    unhealthyInstances: nat,
    lastHealthCheck: int)

  /** No two entries of the table share an id, as in a `Map`. */
  predicate UniqueIds(s: seq<Instance>)
  {
    forall i, j :: 0 <= i < j < |s| ==> s[i].id != s[j].id
  }

  function Ids(s: seq<Instance>): set<string>
  {
    set x | x in s :: x.id
  }

  /** The instances `selectInstance()` chooses among, in table order. */
  function Selectable(s: seq<Instance>, unhealthy: set<string>): seq<Instance>
  {
    Filter(s, (x: Instance) => x.status == Active && x.id !in unhealthy)
  }

  /** `leastConnectionsSelection()`: the reduce keeps the running minimum and
      replaces it only by a strictly smaller load, so it finds the first
      instance of least load. */
  function LeastLoadedIndex(s: seq<Instance>): (k: nat)
    requires |s| > 0
    ensures k < |s|
    ensures forall i :: 0 <= i < |s| ==> s[k].currentLoad <= s[i].currentLoad
    ensures forall i :: 0 <= i < k ==> s[i].currentLoad > s[k].currentLoad
  {
    if |s| == 1 then 0
    else
      var m := LeastLoadedIndex(s[..|s| - 1]);
      if s[|s| - 1].currentLoad < s[m].currentLoad then |s| - 1 else m
  }

  /** `randomSelection()`: `floor(draw * n)`, always a valid index. */
  function DrawIndex(draw: real, n: nat): (k: nat)
    requires 0.0 <= draw < 1.0 && n > 0
    ensures k < n
  {
    var x := draw * n as real;
    MulNonNegative(draw, n as real);
    MulStrictMonotone(draw, 1.0, n as real);
    assert 1.0 * n as real == n as real;
    assert 0.0 <= x < n as real;
    assert x.Floor as real <= x;
    x.Floor
  }

  /** `roundRobinSelection()`'s position for a given index among `n`. */
  function RoundRobinPosition(index: nat, n: nat): nat
    requires n > 0
  {
    index % n
  }

  /** Round robin over a fixed list of `n` selectable instances: the `n`
      picks starting from any index visit every position. */
  lemma RoundRobinVisitsAll(n: nat, index: nat, j: nat) returns (k: nat)
    requires j < n
    ensures k < n && RoundRobinPosition(index + k, n) == j
  {
    k := ModuloCovers(index, j, n);
  }

  /** The instance the strategy picks among the selectable entries `s`, with
      round-robin index `index` and random draw `draw`. */
  function Pick(s: seq<Instance>, strategy: Strategy, index: nat, draw: real): (p: Instance)
    requires |s| > 0 && 0.0 <= draw < 1.0
    ensures p in s
    ensures strategy == RoundRobin ==> p == s[RoundRobinPosition(index, |s|)]
    ensures strategy == LeastConnections ==> p == s[LeastLoadedIndex(s)]
    ensures strategy == RandomChoice ==> p == s[DrawIndex(draw, |s|)]
    ensures strategy == FirstSelectable ==> p == s[0]
  {
    match strategy
    case RoundRobin => s[RoundRobinPosition(index, |s|)]
    case LeastConnections => s[LeastLoadedIndex(s)]
    case RandomChoice => s[DrawIndex(draw, |s|)]
    case FirstSelectable => s[0]
  }

  /** A table entry timed out: not seen for longer than the timeout. */
  predicate Stale(x: Instance, now: int, timeout: int)
  {
    now - x.lastSeen > timeout
  }

  function StaleIds(s: seq<Instance>, now: int, timeout: int): set<string>
  {
    set x | x in s && Stale(x, now, timeout) :: x.id
  }

  /** The entries a health check keeps. */
  function Live(s: seq<Instance>, now: int, timeout: int): seq<Instance>
  {
    Filter(s, x => !Stale(x, now, timeout))
  }

  /** The table after deleting the given ids. */
  function Without(s: seq<Instance>, ids: set<string>): seq<Instance>
  {
    Filter(s, (x: Instance) => x.id !in ids)
  }

  lemma {:induction false} WithoutUnion(s: seq<Instance>, a: set<string>, b: set<string>)
    ensures Without(Without(s, a), b) == Without(s, a + b)
  {
    if |s| > 0 {
      WithoutUnion(s[..|s| - 1], a, b);
      var rest := Without(s[..|s| - 1], a);
      if s[|s| - 1].id !in a {
        assert (rest + [s[|s| - 1]])[..|rest|] == rest;
      }
    }
  }

  /** Deleting ids that are exactly the stale entries' ids keeps exactly the
      live entries. */
  lemma {:induction false} WithoutStale(s: seq<Instance>, ids: set<string>, now: int, timeout: int)
    requires forall x :: x in s ==> (x.id in ids <==> Stale(x, now, timeout))
    ensures Without(s, ids) == Live(s, now, timeout)
  {
    if |s| > 0 {
      assert forall x :: x in s[..|s| - 1] ==> x in s;
      WithoutStale(s[..|s| - 1], ids, now, timeout);
    }
  }

  /** In a table with unique ids an entry's id is stale only when the entry is. */
  lemma StaleIdsOfUnique(s: seq<Instance>, now: int, timeout: int)
    requires UniqueIds(s)
    ensures forall x :: x in s ==> (x.id in StaleIds(s, now, timeout) <==> Stale(x, now, timeout))
  {
    forall x | x in s && x.id in StaleIds(s, now, timeout)
      ensures Stale(x, now, timeout)
    {
      var y :| y in s && Stale(y, now, timeout) && y.id == x.id;
      var i :| 0 <= i < |s| && s[i] == x;
      var j :| 0 <= j < |s| && s[j] == y;
      assert i == j;
    }
  }

  lemma FilterKeepsUnique(s: seq<Instance>, p: Instance -> bool)
    requires UniqueIds(s)
    ensures UniqueIds(Filter(s, p))
  {
    if |s| > 0 {
      var init := s[..|s| - 1];
      assert UniqueIds(init);
      FilterKeepsUnique(init, p);
      forall x | x in Filter(init, p)
        ensures x.id != s[|s| - 1].id
      {
        var i :| 0 <= i < |init| && init[i] == x;
      }
    }
  }

  /** The ids of the stale entries in table order: `deadInstances`. */
  function StaleIdList(s: seq<Instance>, now: int, timeout: int): (ids: seq<string>)
    ensures forall id :: id in ids <==> id in StaleIds(s, now, timeout)
  {
    if |s| == 0 then []
    else
      var last := s[|s| - 1];
      var rest := StaleIdList(s[..|s| - 1], now, timeout);
      assert forall x :: x in s <==> x in s[..|s| - 1] || x == last;
      if Stale(last, now, timeout) then rest + [last.id] else rest
  }

  function Elements(s: seq<string>): set<string>
  {
    set x | x in s
  }

  lemma WithoutNothing(s: seq<Instance>)
    ensures Without(s, {}) == s
  {
    if |s| > 0 {
      WithoutNothing(s[..|s| - 1]);
      assert s[..|s| - 1] + [s[|s| - 1]] == s;
    }
  }

  /** The first loop of `performHealthCheck()`: collect the stale ids in
      table order and mark them unhealthy. */
  method CollectStale(s: seq<Instance>, unhealthy: set<string>, now: int, timeout: int)
    returns (dead: seq<string>, marked: set<string>)
    ensures Elements(dead) == StaleIds(s, now, timeout)
    ensures marked == unhealthy + StaleIds(s, now, timeout)
  {
    dead := [];
    marked := unhealthy;
    var i := 0;
    while i < |s|
      invariant 0 <= i <= |s|
      invariant dead == StaleIdList(s[..i], now, timeout)
      invariant marked == unhealthy + Elements(dead)
    {
      assert s[..i + 1][..i] == s[..i];
      if Stale(s[i], now, timeout) {
        dead := dead + [s[i].id];
        marked := marked + {s[i].id};
      }
      i := i + 1;
    }
    assert s[..i] == s;
  }

  /** The second loop: delete each collected id from the table and from the
      unhealthy set. */
  method DeleteAll(s: seq<Instance>, dead: seq<string>, unhealthy: set<string>)
    returns (kept: seq<Instance>, marked: set<string>)
    ensures kept == Without(s, Elements(dead))
    ensures marked == unhealthy - Elements(dead)
  {
    WithoutNothing(s);
    assert Elements(dead[..0]) == {};
    kept := s;
    marked := unhealthy;
    var k := 0;
    while k < |dead|
      invariant 0 <= k <= |dead|
      invariant kept == Without(s, Elements(dead[..k]))
      invariant marked == unhealthy - Elements(dead[..k])
    {
      WithoutUnion(s, Elements(dead[..k]), {dead[k]});
      assert Elements(dead[..k + 1]) == Elements(dead[..k]) + {dead[k]} by {
        assert dead[..k + 1] == dead[..k] + [dead[k]];
      }
      kept := Without(kept, {dead[k]});
      marked := marked - {dead[k]};
      k := k + 1;
    }
    assert dead[..k] == dead;
  }

  /** Both loops of `performHealthCheck()` on the table and the unhealthy
      set: the live entries stay, and the stale ids leave the set. */
  method Sweep(s: seq<Instance>, unhealthy: set<string>, now: int, timeout: int)
    returns (kept: seq<Instance>, marked: set<string>)
    requires UniqueIds(s)
    ensures kept == Live(s, now, timeout)
    ensures marked == unhealthy - StaleIds(s, now, timeout)
  {
    var dead, flagged := CollectStale(s, unhealthy, now, timeout);
    kept, marked := DeleteAll(s, dead, flagged);
    StaleIdsOfUnique(s, now, timeout);
    WithoutStale(s, StaleIds(s, now, timeout), now, timeout);
  }

  /** A second sweep at the same time finds nothing more to delete. */
  lemma SweepTwice(s: seq<Instance>, now: int, timeout: int)
    ensures Live(Live(s, now, timeout), now, timeout) == Live(s, now, timeout)
    ensures StaleIds(Live(s, now, timeout), now, timeout) == {}
  {
    FilterTwice(s, x => !Stale(x, now, timeout));
  }

  /** What a task returns, or the error it throws. */
  function RunTask(kind: string, posts: Option<seq<string>>): (r: Result<Processed>)
    ensures r.Ok? <==> kind == ProcessPosts && posts.Some?
    ensures r.Ok? ==> r.value.processed == |r.value.results| && r.value.results == posts.value
    ensures kind == ScrapeGroup ==> r == Err(ScraperMissingMessage)
  {
    if kind == ScrapeGroup then Err(ScraperMissingMessage)
    else if kind == ProcessPosts then
      if posts.Some? then Ok(Processed(|posts.value|, posts.value)) else Err(MissingPostsMessage)
    else Err(UnknownTaskPrefix + kind)
  }

  /** The table with the entry of the given id (if any) replaced by `f` of it. */
  function Apply(s: seq<Instance>, id: string, f: Instance -> Instance): (r: seq<Instance>)
    ensures |r| == |s|
    ensures forall k :: 0 <= k < |s| ==> r[k] == if s[k].id == id then f(s[k]) else s[k]
  {
    seq(|s|, k requires 0 <= k < |s| => if s[k].id == id then f(s[k]) else s[k])
  }

  /** The tasks `cleanup()` keeps: those finished after the cutoff. */
  predicate FinishedAfter(t: Task, cutoff: int)
  {
    match t.state
    case Assigned => false
    case Completed(at, _, _) => at > cutoff
    case Failed(_, at) => at > cutoff
  }

  function Recent(tasks: seq<Task>, cutoff: int): seq<Task>
  {
    Filter(tasks, t => FinishedAfter(t, cutoff))
  }

  /** `(completed / total * 100).toFixed(1)` in tenths of a percent, 0 with
      no tasks: the tenth nearest to the exact rate, halves rounded up. */
  function SuccessRateTenths(completed: nat, failed: nat): (t: int)
    ensures completed + failed == 0 ==> t == 0
    ensures completed + failed > 0 ==>
      var exact := (1000 * completed) as real / (completed + failed) as real;
      0 <= t <= 1000 && exact - 0.5 < t as real <= exact + 0.5
    ensures completed == 0 ==> t == 0
    ensures failed == 0 && completed > 0 ==> t == 1000
  {
    var total := completed + failed;
    if total == 0 then 0
    else
      var exact := (1000 * completed) as real / total as real;
      RateWithin(completed, total, exact);
      Round(exact)
  }

  lemma RateWithin(completed: nat, total: nat, exact: real)
    requires completed <= total && total > 0
    requires exact == (1000 * completed) as real / total as real
    ensures 0.0 <= exact <= 1000.0
    ensures completed == 0 ==> exact == 0.0
    ensures completed == total ==> exact == 1000.0
  {
    QuotientCompare((1000 * completed) as real, total as real, 1000.0);
    QuotientCompare((1000 * completed) as real, total as real, 0.0);
  }

  class DistributedCoordinator {
    const instanceId: string
    const isCoordinator: bool
    const coordinatorId: Option<string>
    const strategy: Strategy
    const instanceTimeout: int
    const lastHealthCheck: int
    var instances: seq<Instance>
    var roundRobinIndex: nat
    var unhealthyInstances: set<string>
    var taskQueue: seq<Task>
    var completedTasks: seq<Task>
    var failedTasks: seq<Task>

    ghost predicate Valid()
      reads this
    {
      && UniqueIds(instances)
      && (forall t :: t in completedTasks ==> t.state.Completed?)
      && (forall t :: t in failedTasks ==> t.state.Failed?)
    }

    /** A coordinator after initialisation: the coordinator has registered
        itself, a worker's table is empty. A configured strategy name or
        timeout, when present, replaces the default. */
    constructor (id: string, coordinator: bool, coordinatorOf: Option<string>,
                 strategyName: Option<string>, timeout: Option<int>, now: int)
      ensures Valid()
      ensures instanceId == id && isCoordinator == coordinator && coordinatorId == coordinatorOf
      ensures strategy == StrategyNamed(if strategyName.Some? then strategyName.value else RoundRobinName)
      ensures instanceTimeout == if timeout.Some? then timeout.value else DefaultInstanceTimeout
      ensures instances == (if coordinator then [Registered(id, now)] else [])
      ensures roundRobinIndex == 0 && unhealthyInstances == {}
      ensures taskQueue == [] && completedTasks == [] && failedTasks == []
    {
      instanceId := id;
      isCoordinator := coordinator;
      coordinatorId := coordinatorOf;
      strategy := StrategyNamed(if strategyName.Some? then strategyName.value else RoundRobinName);
      instanceTimeout := if timeout.Some? then timeout.value else DefaultInstanceTimeout;
      lastHealthCheck := now;
      instances := if coordinator then [Registered(id, now)] else [];
      roundRobinIndex := 0;
      unhealthyInstances := {};
      taskQueue := [];
      completedTasks := [];
      failedTasks := [];
    }

    /** `registerInstance()`: `Map.set` replaces this instance's entry in
        place, or appends one. */
    method RegisterInstance(now: int)
      requires Valid()
      modifies this
      ensures Valid()
      ensures instanceId in old(Ids(instances)) ==> instances == Apply(old(instances), instanceId, _ => Registered(instanceId, now))
      ensures instanceId !in old(Ids(instances)) ==> instances == old(instances) + [Registered(instanceId, now)]
      ensures Registered(instanceId, now) in instances
      ensures roundRobinIndex == old(roundRobinIndex) && unhealthyInstances == old(unhealthyInstances)
      ensures taskQueue == old(taskQueue) && completedTasks == old(completedTasks) && failedTasks == old(failedTasks)
    {
      if instanceId in Ids(instances) {
        var x :| x in instances && x.id == instanceId;
        var k :| 0 <= k < |instances| && instances[k] == x;
        instances := Apply(instances, instanceId, _ => Registered(instanceId, now));
        assert instances[k] == Registered(instanceId, now);
      } else {
        instances := instances + [Registered(instanceId, now)];
      }
    }

    /** `performHealthCheck()`: a worker does nothing; the coordinator
        deletes exactly the entries not seen within the timeout, and their
        ids leave the unhealthy set. */
    method PerformHealthCheck(now: int)
      requires Valid()
      modifies this
      ensures Valid()
      ensures !isCoordinator ==> unchanged(this)
      ensures isCoordinator ==>
        && instances == Live(old(instances), now, instanceTimeout)
        && unhealthyInstances == old(unhealthyInstances) - StaleIds(old(instances), now, instanceTimeout)
      ensures roundRobinIndex == old(roundRobinIndex)
      ensures taskQueue == old(taskQueue) && completedTasks == old(completedTasks) && failedTasks == old(failedTasks)
    {
      if !isCoordinator {
        return;
      }
      FilterKeepsUnique(instances, x => !Stale(x, now, instanceTimeout));
      instances, unhealthyInstances := Sweep(instances, unhealthyInstances, now, instanceTimeout);
    }

    /** `selectInstance()`: nothing when no entry is active and healthy,
        otherwise a selectable entry picked by the strategy; only a round
        robin pick advances the index. */
    method SelectInstance(draw: real) returns (pick: Option<Instance>)
      requires 0.0 <= draw < 1.0
      modifies this
      ensures var s := Selectable(instances, unhealthyInstances);
        && (pick.None? <==> |s| == 0)
        && (pick.Some? ==> pick.value in instances && pick.value.status == Active && pick.value.id !in unhealthyInstances)
        && (pick.Some? ==> pick.value == Pick(s, strategy, old(roundRobinIndex), draw))
      ensures pick.None? ==> unchanged(this)
      ensures pick.Some? ==> roundRobinIndex == old(roundRobinIndex) + (if strategy == RoundRobin then 1 else 0)
      ensures instances == old(instances) && unhealthyInstances == old(unhealthyInstances)
      ensures taskQueue == old(taskQueue) && completedTasks == old(completedTasks) && failedTasks == old(failedTasks)
    {
      var s := Selectable(instances, unhealthyInstances);
      if |s| == 0 {
        return None;
      }
      pick := Some(Pick(s, strategy, roundRobinIndex, draw));
      if strategy == RoundRobin {
        roundRobinIndex := roundRobinIndex + 1;
      }
    }

    /** `executeTask()` run from `start` to `end`: the task lands in exactly
        one of the completed and failed lists; this instance's load goes up
        and back down, its completed count grows only on success, and it is
        seen at the end. */
    method ExecuteTask(task: Task, start: int, end: int) returns (r: Result<Processed>, finished: Task)
      requires Valid()
      modifies this
      ensures Valid()
      ensures r == RunTask(task.kind, task.posts)
      ensures r.Ok? ==>
        && finished == task.(state := Completed(end, end - start, r.value))
        && completedTasks == old(completedTasks) + [finished] && failedTasks == old(failedTasks)
      ensures r.Err? ==>
        && finished == task.(state := Failed(r.message, end))
        && failedTasks == old(failedTasks) + [finished] && completedTasks == old(completedTasks)
      ensures |instances| == |old(instances)|
      ensures forall k :: 0 <= k < |instances| ==>
        instances[k] == if old(instances[k]).id == instanceId
                        then old(instances[k]).(tasksCompleted := old(instances[k]).tasksCompleted + (if r.Ok? then 1 else 0),
                                                lastSeen := end)
                        else old(instances[k])
      ensures roundRobinIndex == old(roundRobinIndex) && unhealthyInstances == old(unhealthyInstances)
      ensures taskQueue == old(taskQueue)
    {
      var before := instances;
      instances := Apply(instances, instanceId, (x: Instance) => x.(currentLoad := x.currentLoad + 1));
      r := RunTask(task.kind, task.posts);
      var done := if r.Ok? then 1 else 0;
      instances := Apply(instances, instanceId,
                         (x: Instance) => x.(currentLoad := x.currentLoad - 1, tasksCompleted := x.tasksCompleted + done, lastSeen := end));
      if r.Ok? {
        finished := task.(state := Completed(end, end - start, r.value));
        completedTasks := completedTasks + [finished];
      } else {
        finished := task.(state := Failed(r.message, end));
        failedTasks := failedTasks + [finished];
      }
      assert forall k :: 0 <= k < |instances| ==> instances[k].id == before[k].id;
    }

    /** `distributeTask()` at time `now`, with the task's generated id; `end`
        is the time a task run here finishes. A worker forwards the task and
        changes nothing. The coordinator throws when no instance is
        selectable; otherwise it queues exactly one task assigned to the
        chosen instance, and runs it when that is itself, the queued entry
        then showing how the run ended. */
    method DistributeTask(request: TaskRequest, taskId: string, now: int, draw: real, end: int)
      returns (r: Result<Dispatch>)
      requires Valid()
      requires 0.0 <= draw < 1.0
      modifies this
      ensures Valid()
      ensures !isCoordinator ==> r == Ok(Forwarded(taskId, coordinatorId)) && unchanged(this)
      ensures isCoordinator && |Selectable(old(instances), old(unhealthyInstances))| == 0 ==>
        r == Err(NoInstancesMessage) && unchanged(this)
      ensures isCoordinator && |Selectable(old(instances), old(unhealthyInstances))| > 0 ==>
        && roundRobinIndex == old(roundRobinIndex) + (if strategy == RoundRobin then 1 else 0)
        && unhealthyInstances == old(unhealthyInstances)
        && |taskQueue| == |old(taskQueue)| + 1
        && taskQueue[..|old(taskQueue)|] == old(taskQueue)
        && var queued := taskQueue[|taskQueue| - 1];
           && queued.id == taskId && queued.kind == request.kind && queued.posts == request.posts
           && queued.createdAt == now
           && queued.assignedTo ==
                Pick(Selectable(old(instances), old(unhealthyInstances)), strategy, old(roundRobinIndex), draw).id
           && (queued.assignedTo != instanceId ==>
                 && queued.state == Assigned && r == Ok(Queued(queued))
                 && instances == old(instances)
                 && completedTasks == old(completedTasks) && failedTasks == old(failedTasks))
           && (queued.assignedTo == instanceId ==>
                 var run := RunTask(request.kind, request.posts);
                 && (run.Ok? ==>
                       && r == Ok(Ran(run.value)) && queued.state == Completed(end, end - now, run.value)
                       && completedTasks == old(completedTasks) + [queued] && failedTasks == old(failedTasks))
                 && (run.Err? ==>
                       && r == Err(run.message) && queued.state == Failed(run.message, end)
                       && failedTasks == old(failedTasks) + [queued] && completedTasks == old(completedTasks))
                 && |instances| == |old(instances)|
                 && forall k :: 0 <= k < |instances| ==>
                      instances[k] == if old(instances[k]).id == instanceId
                                      then old(instances[k]).(tasksCompleted := old(instances[k]).tasksCompleted + (if run.Ok? then 1 else 0),
                                                              lastSeen := end)
                                      else old(instances[k]))
    {
      if !isCoordinator {
        return Ok(Forwarded(taskId, coordinatorId));
      }
      var pick := SelectInstance(draw);
      if pick.None? {
        return Err(NoInstancesMessage);
      }
      var target := pick.value;
      var task := Task(taskId, request.kind, request.posts, target.id, now, Assigned);
      taskQueue := taskQueue + [task];
      if target.id != instanceId {
        return Ok(Queued(task));
      }
      var run, finished := ExecuteTask(task, now, end);
      taskQueue := taskQueue[|taskQueue| - 1 := finished];
      r := if run.Ok? then Ok(Ran(run.value)) else Err(run.message);
    }

    /** `getSystemStats()`. */
    function GetSystemStats(): (st: SystemStats)
      reads this
      ensures st.total == st.completed + st.failed
      ensures st.completed == |completedTasks| && st.failed == |failedTasks| && st.queued == |taskQueue|
      ensures st.activeInstances <= st.totalInstances == |instances|
      ensures st.activeInstances == |Filter(instances, (x: Instance) => x.status == Active)|
      ensures st.activeInstances == 0 <==> forall i :: 0 <= i < |instances| ==> instances[i].status != Active
      ensures st.successRateTenths == SuccessRateTenths(|completedTasks|, |failedTasks|)
    {
      var active := Filter(instances, (x: Instance) => x.status == Active);
      assert |active| > 0 ==> active[0] in active;
      assert forall i :: 0 <= i < |instances| && instances[i].status == Active ==> instances[i] in active;
      SystemStats(
        |instances|,
        |active|,
        |taskQueue|,
        |completedTasks|,
        |failedTasks|,
        |completedTasks| + |failedTasks|,
        SuccessRateTenths(|completedTasks|, |failedTasks|),
        |unhealthyInstances|,
        lastHealthCheck)
    }

    /** `cleanup()`: each list keeps exactly its tasks finished within the
        last 24 hours, in order. */
    method Cleanup(now: int)
      requires Valid()
      modifies this
      ensures Valid()
      ensures completedTasks == Recent(old(completedTasks), now - Day)
      ensures failedTasks == Recent(old(failedTasks), now - Day)
      ensures instances == old(instances) && taskQueue == old(taskQueue)
      ensures roundRobinIndex == old(roundRobinIndex) && unhealthyInstances == old(unhealthyInstances)
    {
      completedTasks := Recent(completedTasks, now - Day);
      failedTasks := Recent(failedTasks, now - Day);
    }
  }

  /** Cleaning up twice at the same time is cleaning up once. */
  lemma CleanupTwice(tasks: seq<Task>, cutoff: int)
    ensures Recent(Recent(tasks, cutoff), cutoff) == Recent(tasks, cutoff)
    ensures forall t :: t in Recent(tasks, cutoff) <==> t in tasks && FinishedAfter(t, cutoff)
  {
    FilterTwice(tasks, t => FinishedAfter(t, cutoff));
  }
}
