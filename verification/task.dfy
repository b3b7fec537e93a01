/** The durable task queue of core/task.go: task records kept in a key-value store, claimed by
    compare-and-swap and re-queued or frozen by the retry bookkeeping of RecordError. */
module Tasks {
  import opened Outcomes
  import Strconv

  // ---------------------------------------------------------------------------
  // Records
  // ---------------------------------------------------------------------------

  datatype TaskStatus = Queued | Running | Failed

  /** The string stored in the record's Status field. */
  function StatusName(s: TaskStatus): string
  {
    match s
    case Queued => "QUEUED"
    case Running => "RUNNING"
    case Failed => "FAILED"
  }

  /** The task kinds the handlers know by name, and `Unnamed(code)` for a numeric code that is
      none of theirs. The named kinds' codes are defined in the types package, which is not part
      of this model, so nothing here excludes them from `Unnamed`; TypeName gives such a value
      the decimal form where the source would give the name. */
  datatype TaskType =
    | DeleteApp
    | DeleteComponent
    | DeployComponent
    | StartInstance
    | StopInstance
    | Unnamed(code: int)

  datatype Task = Task(
    kind: TaskType,
    data: seq<bv8>,
    status: TaskStatus,
    attempts: int,
    maxAttempts: int,
    error: string)

  const DefaultMaxAttempts: int := 20

  /** The record Start inserts: queued, untried, with the default retry cap. */
  function NewTask(kind: TaskType, data: seq<bv8>): (t: Task)
    ensures t.kind == kind && t.data == data
    ensures t.status == Queued && StatusName(t.status) == "QUEUED"
    ensures t.attempts == 0 && t.maxAttempts == 20 && t.error == ""
  {
    Task(kind, data, Queued, 0, DefaultMaxAttempts, "")
  }

  // ---------------------------------------------------------------------------
  // EtcdKey: path.Join("/tasks", id)
  // ---------------------------------------------------------------------------

  /** The pieces of a path between slashes ("a//b/" gives ["a", "", "b", ""]). */
  function Segments(s: string): (r: seq<string>)
    ensures |r| > 0
    decreases |s|
  {
    if |s| == 0 then [""]
    else if s[0] == '/' then [""] + Segments(s[1..])
    else
      var rest := Segments(s[1..]);
      [[s[0]] + rest[0]] + rest[1..]
  }

  /** The lexical resolution path.Clean performs on a rooted path: empty and "." elements
      vanish, ".." removes the element before it and stops at the root. */
  function Resolve(stack: seq<string>, segs: seq<string>): seq<string>
    decreases |segs|
  {
    if segs == [] then stack
    else if segs[0] == "" || segs[0] == "." then Resolve(stack, segs[1..])
    else if segs[0] == ".." then
      Resolve(if stack == [] then [] else stack[..|stack| - 1], segs[1..])
    else Resolve(stack + [segs[0]], segs[1..])
  }

  function JoinPath(segs: seq<string>): string
    decreases |segs|
  {
    if segs == [] then ""
    else if |segs| == 1 then segs[0]
    else segs[0] + "/" + JoinPath(segs[1..])
  }

  /** path.Clean of the rooted path "/" + p. */
  function CleanRooted(p: string): (r: string)
    ensures |r| > 0 && r[0] == '/'
  {
    "/" + JoinPath(Resolve([], Segments(p)))
  }

  /** TaskCollection.EtcdKey: the collection key, or the collection key joined with the id. */
  function EtcdKey(id: Option<string>): (key: string)
    ensures |key| > 0 && key[0] == '/'
  {
    match id
    case None => "/tasks"
    case Some(i) => CleanRooted("tasks/" + i)
  }

  /** A generated task id: non-empty, no slash, and not a dot element. */
  predicate PlainId(id: string)
  {
    id != "" && id != "." && id != ".." && forall i :: 0 <= i < |id| ==> id[i] != '/'
  }

  lemma {:induction false} SegmentsNoSlash(s: string)
    requires forall i :: 0 <= i < |s| ==> s[i] != '/'
    ensures Segments(s) == [s]
    decreases |s|
  {
    if |s| > 0 {
      SegmentsNoSlash(s[1..]);
      assert [s[0]] + s[1..] == s;
    }
  }

  lemma {:induction false} SegmentsSplit(a: string, b: string)
    requires forall i :: 0 <= i < |a| ==> a[i] != '/'
    ensures Segments(a + "/" + b) == [a] + Segments(b)
    decreases |a|
  {
    if |a| == 0 {
      assert a + "/" + b == "/" + b;
      assert ("/" + b)[1..] == b;
    } else {
      var s := a + "/" + b;
      assert s[1..] == a[1..] + "/" + b;
      SegmentsSplit(a[1..], b);
      assert [a[0]] + a[1..] == a;
    }
  }

  /** Ordinary elements are kept, in order. */
  lemma {:induction false} ResolveOrdinary(stack: seq<string>, segs: seq<string>)
    requires forall i :: 0 <= i < |segs| ==> segs[i] != "" && segs[i] != "." && segs[i] != ".."
    ensures Resolve(stack, segs) == stack + segs
    decreases |segs|
  {
    if segs != [] {
      ResolveOrdinary(stack + [segs[0]], segs[1..]);
      assert stack + [segs[0]] + segs[1..] == stack + segs;
    }
  }

  /** Cleaning "/a/b" for two plain elements changes nothing. */
  lemma CleanTwoPlain(a: string, b: string)
    requires PlainId(a) && PlainId(b)
    ensures CleanRooted(a + "/" + b) == "/" + a + "/" + b
  {
    SegmentsSplit(a, b);
    SegmentsNoSlash(a);
    SegmentsNoSlash(b);
    var segs := [a, b];
    assert Segments(a + "/" + b) == segs by {
      assert [a] + [b] == segs;
    }
    assert segs[0] == a && segs[1] == b;
    ResolveOrdinary([], segs);
    assert [] + segs == segs;
    assert segs[1..] == [b];
    assert JoinPath(segs) == a + "/" + b;
    assert CleanRooted(a + "/" + b) == "/" + (a + "/" + b);
    assert "/" + (a + "/" + b) == "/" + a + "/" + b;
  }

  /** The key of a stored task is the collection key, a slash and the id. */
  lemma EtcdKeyOfPlainId(id: string)
    requires PlainId(id)
    ensures EtcdKey(Some(id)) == "/tasks/" + id
  {
    var prefix := "tasks";
    assert PlainId(prefix) by {
      assert |prefix| == 5;
    }
    CleanTwoPlain(prefix, id);
    assert "tasks/" + id == prefix + "/" + id;
    assert "/" + prefix + "/" + id == "/tasks/" + id;
  }

  /** path.Join drops an empty element: the empty id names the collection itself. */
  lemma EtcdKeyOfEmptyId()
    ensures EtcdKey(Some("")) == EtcdKey(None)
  {
    var prefix := "tasks";
    assert forall i :: 0 <= i < |prefix| ==> prefix[i] != '/';
    assert "tasks/" + "" == prefix + "/" + "";
    SegmentsSplit(prefix, "");
    SegmentsNoSlash(prefix);
    var segs := Segments("tasks/" + "");
    assert segs == [prefix, ""];
    assert Resolve([], segs) == Resolve([prefix], [""]);
    assert Resolve([prefix], [""]) == Resolve([prefix], []);
  }

  // ---------------------------------------------------------------------------
  // TypeName
  // ---------------------------------------------------------------------------

  /** TaskResource.TypeName: the handler name of a known kind, the decimal code otherwise. */
  function TypeName(t: TaskType): string
  {
    match t
    case DeleteApp => "DeleteApp"
    case DeleteComponent => "DeleteComponent"
    case DeployComponent => "DeployComponent"
    case StartInstance => "StartInstance"
    case StopInstance => "StopInstance"
    case Unnamed(code) => Strconv.Itoa(code)
  }

  /** Distinct task kinds have distinct names: a decimal code begins with a digit or '-',
      every handler name with a capital letter. */
  lemma TypeNameInjective(a: TaskType, b: TaskType)
    ensures TypeName(a) == TypeName(b) ==> a == b
  {
    if a.Unnamed? && b.Unnamed? {
      Strconv.ItoaInjective(a.code, b.code);
    } else if a.Unnamed? || b.Unnamed? {
      var n := if a.Unnamed? then TypeName(a) else TypeName(b);
      var other := if a.Unnamed? then TypeName(b) else TypeName(a);
      assert Strconv.IsDigit(n[0]) || n[0] == '-';
      assert 'A' <= other[0] <= 'Z';
    }
  }

  // ---------------------------------------------------------------------------
  // Store semantics and the transitions Claim and RecordError apply
  // ---------------------------------------------------------------------------

  /** The store's error classes: a missing key, and a compare-and-swap whose expected value
      no longer matches what is stored. */
  const KeyNotFound: Error := "100: Key not found"
  const CompareFailed: Error := "101: Compare failed"

  /** DB.CompareAndSwap: replace the stored value by `next` only if it still equals `prev`. */
  function Cas(tasks: map<string, Task>, id: string, prev: Task, next: Task): (r: (map<string, Task>, Outcome))
    ensures r.1.Ok? <==> id in tasks && tasks[id] == prev
    ensures r.1.Ok? ==> r.0 == tasks[id := next]
    ensures !r.1.Ok? ==> r.0 == tasks
    ensures r.1 == Ok || r.1 == Err(KeyNotFound) || r.1 == Err(CompareFailed)
    ensures r.1 == Err(KeyNotFound) <==> id !in tasks
  {
    if id !in tasks then (tasks, Err(KeyNotFound))
    else if tasks[id] != prev then (tasks, Err(CompareFailed))
    else (tasks[id := next], Ok)
  }

  /** DB.Update: overwrite an existing key. */
  function Update(tasks: map<string, Task>, id: string, t: Task): (r: (map<string, Task>, Outcome))
    ensures r.1.Ok? <==> id in tasks
    ensures r.1.Ok? ==> r.0 == tasks[id := t] && r.0.Keys == tasks.Keys
    ensures !r.1.Ok? ==> r.0 == tasks && r.1 == Err(KeyNotFound)
  {
    if id in tasks then (tasks[id := t], Ok) else (tasks, Err(KeyNotFound))
  }

  /** The candidate next value Claim builds from a copy of the task. */
  function Claimed(t: Task): (n: Task)
    ensures n.status == Running
    ensures n.(status := t.status) == t
  {
    t.(status := Running)
  }

  /** The task RecordError writes back after a failed attempt. */
  function AfterFailure(t: Task, msg: string): (n: Task)
    ensures n.error == msg && n.attempts == t.attempts + 1
    ensures n.status == Queued <==> t.attempts < t.maxAttempts
    ensures n.status == Failed <==> t.attempts >= t.maxAttempts
    ensures n.(status := t.status, attempts := t.attempts, error := t.error) == t
  {
    var status := if t.attempts < t.maxAttempts then Queued else Failed;
    t.(error := msg, status := status, attempts := t.attempts + 1)
  }

  /** n workers, one after the other, each claim task `id` from the same snapshot `t`;
      returns the store afterwards and how many of the claims succeeded. */
  function ClaimRace(tasks: map<string, Task>, id: string, t: Task, n: nat): (map<string, Task>, nat)
    decreases n
  {
    if n == 0 then (tasks, 0)
    else
      var (m, wins) := ClaimRace(tasks, id, t, n - 1);
      var (m', e) := Cas(m, id, t, Claimed(t));
      (m', if e.Ok? then wins + 1 else wins)
  }

  /** At most one of any number of claims taken from one snapshot of a non-running task
      succeeds, and once one has, the stored task is RUNNING. */
  lemma {:induction false} ClaimRaceAtMostOne(tasks: map<string, Task>, id: string, t: Task, n: nat)
    requires t.status != Running
    ensures ClaimRace(tasks, id, t, n).1 <= 1
    ensures ClaimRace(tasks, id, t, n).1 == 1 ==>
              id in ClaimRace(tasks, id, t, n).0 && ClaimRace(tasks, id, t, n).0[id] == Claimed(t)
    ensures ClaimRace(tasks, id, t, n).1 == 0 ==> ClaimRace(tasks, id, t, n).0 == tasks
    decreases n
  {
    if n > 0 {
      ClaimRaceAtMostOne(tasks, id, t, n - 1);
    }
  }

  /** From a current snapshot of a task that is not running, exactly one of n >= 1 claims
      succeeds, storing the RUNNING copy, and every claim after it gets CompareFailed. */
  lemma {:induction false} ClaimRaceExactlyOne(tasks: map<string, Task>, id: string, t: Task, n: nat)
    requires id in tasks && tasks[id] == t && t.status != Running && n >= 1
    ensures ClaimRace(tasks, id, t, n) == (tasks[id := Claimed(t)], 1)
    ensures Cas(ClaimRace(tasks, id, t, n).0, id, t, Claimed(t)).1 == Err(CompareFailed)
    decreases n
  {
    assert Claimed(t) != t;
    if n == 1 {
      assert ClaimRace(tasks, id, t, 0) == (tasks, 0);
    } else {
      ClaimRaceExactlyOne(tasks, id, t, n - 1);
    }
  }

  /** From a stale snapshot every claim gets CompareFailed and the store is unchanged. */
  lemma {:induction false} ClaimRaceStale(tasks: map<string, Task>, id: string, t: Task, n: nat)
    requires id in tasks && tasks[id] != t
    ensures ClaimRace(tasks, id, t, n) == (tasks, 0)
    decreases n
  {
    if n > 0 {
      ClaimRaceStale(tasks, id, t, n - 1);
    }
  }

  /** Claim does not look at the status: claiming a snapshot that is already RUNNING swaps
      the stored value for itself, so every one of n such claims succeeds. Exclusivity rests on
      the callers claiming only queued tasks. */
  lemma {:induction false} ClaimOfRunningAlwaysSucceeds(tasks: map<string, Task>, id: string, t: Task, n: nat)
    requires id in tasks && tasks[id] == t && t.status == Running
    ensures ClaimRace(tasks, id, t, n) == (tasks, n)
    decreases n
  {
    if n > 0 {
      ClaimOfRunningAlwaysSucceeds(tasks, id, t, n - 1);
      assert Claimed(t) == t;
      assert tasks[id := t] == tasks;
    }
  }

  /** A claim succeeds for a first worker holding a current snapshot; the second worker,
      holding the same now-stale snapshot, gets CompareFailed. */
  lemma {:induction false} SecondClaimConflicts(tasks: map<string, Task>, id: string, t: Task)
    requires id in tasks && tasks[id] == t && t.status == Queued
    ensures ClaimRace(tasks, id, t, 1).1 == 1
    ensures ClaimRace(tasks, id, t, 2).1 == 1
    ensures Cas(ClaimRace(tasks, id, t, 1).0, id, t, Claimed(t)).1 == Err(CompareFailed)
  {
    assert ClaimRace(tasks, id, t, 0) == (tasks, 0);
  }

  /** One round of the worker loop: a queued task is claimed, its handler fails with `msg`, and
      RecordError writes it back; a task that is not queued is left alone. */
  function FailedRound(t: Task, msg: string): Task
  {
    if t.status == Queued then AfterFailure(Claimed(t), msg) else t
  }

  function FailedRounds(t: Task, msg: string, k: nat): Task
    decreases k
  {
    if k == 0 then t else FailedRound(FailedRounds(t, msg, k - 1), msg)
  }

  /** A task whose handler always fails is re-queued maxAttempts times and frozen at FAILED on
      failure maxAttempts + 1, and then no further round touches it. */
  lemma {:induction false} RetryBound(t: Task, msg: string, k: nat)
    requires t.status == Queued && t.attempts == 0 && t.maxAttempts >= 0
    ensures FailedRounds(t, msg, k).attempts == if k <= t.maxAttempts + 1 then k else t.maxAttempts + 1
    ensures FailedRounds(t, msg, k).status == if k <= t.maxAttempts then Queued else Failed
    ensures k > 0 ==> FailedRounds(t, msg, k).error == msg
    ensures FailedRounds(t, msg, k).maxAttempts == t.maxAttempts
    decreases k
  {
    if k > 0 {
      RetryBound(t, msg, k - 1);
    }
  }

  /** With the default cap a task is re-queued 20 times and reaches FAILED on its 21st failure,
      holding 21 attempts. */
  lemma DefaultRetryBound(kind: TaskType, data: seq<bv8>, msg: string)
    ensures FailedRounds(NewTask(kind, data), msg, 20).status == Queued
    ensures FailedRounds(NewTask(kind, data), msg, 21).status == Failed
    ensures FailedRounds(NewTask(kind, data), msg, 21).attempts == 21
  {
    RetryBound(NewTask(kind, data), msg, 20);
    RetryBound(NewTask(kind, data), msg, 21);
  }

  // ---------------------------------------------------------------------------
  // The store and the resources
  // ---------------------------------------------------------------------------

  /** The key-value store holding the task records (the etcd-backed DB of the core). */
  class Store {
    var tasks: map<string, Task>
    var counter: nat

    /** Keys are the decimal forms of counter values; no key at or beyond the counter is used. */
    ghost predicate Valid()
      reads this
    {
      forall k: nat {:trigger Strconv.Itoa(k)} :: counter <= k ==> Strconv.Itoa(k) !in tasks
    }

    constructor ()
      ensures Valid() && tasks == map[]
    {
      tasks := map[];
      counter := 0;
    }

    /** DB.CreateInOrder: store `t` under a fresh key, the decimal form of the store's
        counter; `fault` is the store's own I/O failure, if it has one. */
    method CreateInOrder(t: Task, fault: Option<Error>) returns (r: Result<string>)
      requires Valid()
      modifies this
      ensures Valid()
      ensures fault.Some? ==> r == Failure(fault.value) && tasks == old(tasks)
      ensures fault.None? ==> r.Success? && r.value !in old(tasks) && tasks == old(tasks)[r.value := t]
    {
      if fault.Some? {
        return Failure(fault.value);
      }
      var key := Strconv.Itoa(counter);
      tasks := tasks[key := t];
      forall k: nat | counter + 1 <= k
        ensures Strconv.Itoa(k) !in tasks
      {
        Strconv.ItoaInjective(k, counter);
      }
      counter := counter + 1;
      r := Success(key);
    }

    /** DB.Get. */
    method Get(id: string) returns (r: Result<Task>)
      ensures r.Success? <==> id in tasks
      ensures r.Success? ==> r.value == tasks[id]
      ensures r.Failure? ==> r.error == KeyNotFound
    {
      if id in tasks {
        r := Success(tasks[id]);
      } else {
        r := Failure(KeyNotFound);
      }
    }

    method CompareAndSwap(id: string, prev: Task, next: Task) returns (err: Outcome)
      requires Valid()
      modifies this
      ensures Valid()
      ensures (tasks, err) == Cas(old(tasks), id, prev, next)
    {
      var r := Cas(tasks, id, prev, next);
      tasks, err := r.0, r.1;
    }

    method UpdateTask(id: string, t: Task) returns (err: Outcome)
      requires Valid()
      modifies this
      ensures Valid()
      ensures (tasks, err) == Update(old(tasks), id, t)
    {
      var r := Update(tasks, id, t);
      tasks, err := r.0, r.1;
    }
  }

  /** A task record held in memory by a worker, with the id it is stored under. */
  class TaskResource {
    const store: Store
    var id: string
    var task: Task

    constructor (store: Store, id: string, task: Task)
      ensures this.store == store && this.id == id && this.task == task
    {
      this.store := store;
      this.id := id;
      this.task := task;
    }

    /** IsQueued: the status field reads "QUEUED". */
    predicate IsQueued()
      reads this
      ensures IsQueued() <==> StatusName(task.status) == "QUEUED"
    {
      task.status == Queued
    }

    /** Claim: one compare-and-swap of the in-memory task against a copy that differs only in
        being RUNNING; the in-memory task itself is not changed. */
    method Claim() returns (err: Outcome)
      requires store.Valid()
      modifies store
      ensures store.Valid()
      ensures (store.tasks, err) == Cas(old(store.tasks), id, task, Claimed(task))
      ensures task == old(task)
    {
      var next := Claimed(task);
      err := store.CompareAndSwap(id, task, next);
    }

    /** RecordError: record the message, count the attempt, re-queue or fail, then save with an
        ordinary update. */
    method RecordError(msg: string) returns (err: Outcome)
      requires store.Valid()
      modifies this, store
      ensures store.Valid()
      ensures id == old(id)
      ensures task == AfterFailure(old(task), msg)
      ensures (store.tasks, err) == Update(old(store.tasks), id, task)
    {
      var status := if task.attempts < task.maxAttempts then Queued else Failed;
      task := task.(error := msg, status := status);
      task := task.(attempts := task.attempts + 1);
      err := store.UpdateTask(id, task);
    }
  }

  /** Two workers that loaded the same queued task race to claim it: the first wins, the
      second is told CompareFailed, and the stored task is RUNNING. */
  method TwoWorkersClaim(w1: TaskResource, w2: TaskResource) returns (e1: Outcome, e2: Outcome)
    requires w1.store == w2.store && w1.store.Valid()
    requires w1.id == w2.id && w1.task == w2.task && w1.task.status == Queued
    requires w1.id in w1.store.tasks && w1.store.tasks[w1.id] == w1.task
    modifies w1.store
    ensures e1 == Ok && e2 == Err(CompareFailed)
    ensures w1.store.tasks == old(w1.store.tasks)[w1.id := Claimed(w1.task)]
  {
    e1 := w1.Claim();
    e2 := w2.Claim();
  }

  class TaskCollection {
    const store: Store

    constructor (store: Store)
      ensures this.store == store
    {
      this.store := store;
    }

    /** Start: encode the payload and insert a new queued task; an encoding failure or a
        failed insert creates nothing. `payload` is the result of json.Marshal. */
    method Start(kind: TaskType, payload: Result<seq<bv8>>, fault: Option<Error>)
      returns (r: TaskResource?, err: Outcome)
      requires store.Valid()
      modifies store
      ensures store.Valid()
      ensures payload.Failure? ==> r == null && err == Err(payload.error) && store.tasks == old(store.tasks)
      ensures payload.Success? && fault.Some? ==>
                r == null && err == Err(fault.value) && store.tasks == old(store.tasks)
      ensures payload.Success? && fault.None? ==>
                && err == Ok && r != null && fresh(r) && r.store == store
                && r.task == NewTask(kind, payload.value)
                && r.id !in old(store.tasks)
                && store.tasks == old(store.tasks)[r.id := r.task]
    {
      if payload.Failure? {
        return null, Err(payload.error);
      }
      var t := NewTask(kind, payload.value);
      var key := store.CreateInOrder(t, fault);
      if key.Failure? {
        return null, Err(key.error);
      }
      r := new TaskResource(store, key.value, t);
      err := Ok;
    }

    /** Get: load a task with the id it is stored under, or fail when the key is absent. */
    method Get(id: string) returns (r: TaskResource?, err: Outcome)
      ensures id in store.tasks ==> err == Ok && r != null && fresh(r) && r.id == id && r.task == store.tasks[id] && r.store == store
      ensures id !in store.tasks ==> r == null && err == Err(KeyNotFound)
    {
      var loaded := store.Get(id);
      if loaded.Failure? {
        return null, Err(loaded.error);
      }
      r := new TaskResource(store, id, loaded.value);
      err := Ok;
    }
  }
}
