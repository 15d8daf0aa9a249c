/** The A2A server's bounded task store, its context owners and its run slots. */
module TaskStore {
  import opened Options

  datatype Task = Task(id: string, contextId: string, owner: Option<string>, settled: bool)

  /** The insertion-ordered task map, as the sequence of its values, and the owners of contexts. */
  datatype Store = Store(tasks: seq<Task>, owners: map<string, string>)

  predicate HasContext(tasks: seq<Task>, contextId: string) {
    exists k :: 0 <= k < |tasks| && tasks[k].contextId == contextId
  }

  function Delete(s: Store, k: nat): Store
    requires k < |s.tasks|
  {
    var rest, contextId := s.tasks[..k] + s.tasks[k + 1..], s.tasks[k].contextId;
    Store(rest, if HasContext(rest, contextId) then s.owners else s.owners - {contextId})
  }

  /** The oldest settled task, or the oldest of all when none is settled. */
  function Victim(tasks: seq<Task>): (k: nat)
    requires tasks != []
    ensures k < |tasks|
    ensures tasks[k].settled ==> forall j :: 0 <= j < k ==> !tasks[j].settled
    ensures !tasks[k].settled ==> k == 0 && forall j :: 0 <= j < |tasks| ==> !tasks[j].settled
  {
    if tasks[0].settled || |tasks| == 1 then 0
    else
      var k := Victim(tasks[1..]);
      if tasks[1..][k].settled then k + 1
      else
        assert forall j :: 1 <= j < |tasks| ==> tasks[j] == tasks[1..][j - 1];
        0
  }

  function Evict(s: Store, maxTasks: nat): Store {
    if |s.tasks| < maxTasks || s.tasks == [] then s else Delete(s, Victim(s.tasks))
  }

  function Put(s: Store, task: Task, maxTasks: nat): Store {
    var e := Evict(s, maxTasks);
    Store(e.tasks + [task], if task.owner.Some? then e.owners[task.contextId := task.owner.value] else e.owners)
  }

  function PutAll(tasks: seq<Task>, maxTasks: nat): Store {
    if tasks == [] then Store([], map[])
    else Put(PutAll(tasks[..|tasks| - 1], maxTasks), tasks[|tasks| - 1], maxTasks)
  }

  // ---- what the store holds -------------------------------------------------------------------------------------

  function Newest(tasks: seq<Task>, n: nat): seq<Task> {
    if |tasks| <= n then tasks else tasks[|tasks| - n..]
  }

  /** Each context with an owned task, mapped to the owner of its newest one. */
  function OwnersOf(tasks: seq<Task>): map<string, string> {
    if tasks == [] then map[]
    else
      var before, t := OwnersOf(tasks[..|tasks| - 1]), tasks[|tasks| - 1];
      if t.owner.Some? then before[t.contextId := t.owner.value] else before
  }

  /** Authentication is configured for the whole server, so all tasks have an owner or none has;
      and only finished runs are stored. */
  predicate Uniform(tasks: seq<Task>, authenticated: bool) {
    forall k :: 0 <= k < |tasks| ==> tasks[k].settled && (tasks[k].owner.Some? <==> authenticated)
  }

  predicate Owned(tasks: seq<Task>, contextId: string) {
    exists k :: 0 <= k < |tasks| && tasks[k].contextId == contextId && tasks[k].owner.Some?
  }

  lemma {:induction false} OwnersExactly(tasks: seq<Task>, contextId: string)
    ensures contextId in OwnersOf(tasks) <==> Owned(tasks, contextId)
  {
    if tasks != [] {
      var n := |tasks| - 1;
      OwnersExactly(tasks[..n], contextId);
      if k :| 0 <= k < n && tasks[k].contextId == contextId && tasks[k].owner.Some? {
        assert tasks[..n][k] == tasks[k];
      }
    }
  }

  /** The recorded owner is the owner of the newest stored task of the context. */
  lemma {:induction false} OwnerIsNewest(tasks: seq<Task>, k: nat)
    requires k < |tasks| && tasks[k].owner.Some?
    requires forall j :: k < j < |tasks| && tasks[j].contextId == tasks[k].contextId ==> tasks[j].owner.None?
    ensures tasks[k].contextId in OwnersOf(tasks) && OwnersOf(tasks)[tasks[k].contextId] == tasks[k].owner.value
  {
    var n := |tasks| - 1;
    if k < n { OwnerIsNewest(tasks[..n], k); }
  }

  lemma ContextSnoc(tasks: seq<Task>, t: Task, contextId: string)
    ensures HasContext(tasks + [t], contextId) <==> HasContext(tasks, contextId) || t.contextId == contextId
  {
    var all := tasks + [t];
    if k :| 0 <= k < |tasks| && tasks[k].contextId == contextId { assert all[k] == tasks[k]; }
    assert all[|tasks|] == t;
  }

  lemma OwnersSnoc(tasks: seq<Task>, t: Task)
    ensures OwnersOf(tasks + [t])
         == if t.owner.Some? then OwnersOf(tasks)[t.contextId := t.owner.value] else OwnersOf(tasks)
  {
    assert (tasks + [t])[..|tasks|] == tasks;
  }

  lemma Dropped(owners: map<string, string>, c: string, x: string, owner: string)
    ensures x == c ==> (owners - {c})[x := owner] == owners[x := owner]
    ensures x != c ==> (owners - {c})[x := owner] == owners[x := owner] - {c}
  {
  }

  /** Evicting the oldest task drops its context exactly when no newer task shares it. */
  ghost predicate EvictionDrops(tasks: seq<Task>)
    requires tasks != []
  {
    OwnersOf(tasks[1..])
      == if HasContext(tasks[1..], tasks[0].contextId) then OwnersOf(tasks) else OwnersOf(tasks) - {tasks[0].contextId}
  }

  lemma EvictionDropsOne(tasks: seq<Task>)
    requires |tasks| == 1
    ensures EvictionDrops(tasks)
  {
    assert tasks[..0] == [] && tasks[1..] == [];
  }

  lemma EvictionDropsNext(shorter: seq<Task>, last: Task, authenticated: bool)
    requires shorter != [] && Uniform(shorter + [last], authenticated) && EvictionDrops(shorter)
    ensures EvictionDrops(shorter + [last])
  {
    var c := shorter[0].contextId;
    assert (shorter + [last])[1..] == shorter[1..] + [last];
    assert Uniform(shorter, authenticated) by {
      assert forall k :: 0 <= k < |shorter| ==> (shorter + [last])[k] == shorter[k];
    }
    ContextSnoc(shorter[1..], last, c);
    OwnersSnoc(shorter[1..], last);
    OwnersSnoc(shorter, last);
    OwnersExactly(shorter, c);
    if last.owner.Some? { Dropped(OwnersOf(shorter), c, last.contextId, last.owner.value); }
  }

  lemma {:induction false} OwnersWithoutOldest(tasks: seq<Task>, authenticated: bool)
    requires tasks != [] && Uniform(tasks, authenticated)
    ensures EvictionDrops(tasks)
    decreases |tasks|
  {
    if |tasks| == 1 {
      EvictionDropsOne(tasks);
    } else {
      var shorter, last := tasks[..|tasks| - 1], tasks[|tasks| - 1];
      assert tasks == shorter + [last];
      OwnersWithoutOldest(shorter, authenticated);
      EvictionDropsNext(shorter, last, authenticated);
    }
  }

  /** What eviction leaves of a full or of a partly filled store. */
  function Room(tasks: seq<Task>, maxTasks: nat): seq<Task> {
    if |tasks| < maxTasks || tasks == [] then tasks else tasks[1..]
  }

  lemma PutOnNewest(tasks: seq<Task>, task: Task, maxTasks: nat, authenticated: bool)
    requires Uniform(tasks, authenticated)
    ensures
      var after := Room(tasks, maxTasks) + [task];
      Put(Store(tasks, OwnersOf(tasks)), task, maxTasks) == Store(after, OwnersOf(after))
  {
    var kept := Room(tasks, maxTasks);
    if |tasks| >= maxTasks && tasks != [] {
      assert Victim(tasks) == 0 && tasks[..0] + tasks[1..] == tasks[1..];
      OwnersWithoutOldest(tasks, authenticated);
    }
    assert Evict(Store(tasks, OwnersOf(tasks)), maxTasks) == Store(kept, OwnersOf(kept));
    OwnersSnoc(kept, task);
  }

  lemma NewestSnoc(tasks: seq<Task>, task: Task, maxTasks: nat)
    requires maxTasks >= 1
    ensures Newest(tasks + [task], maxTasks) == Room(Newest(tasks, maxTasks), maxTasks) + [task]
  {
  }

  lemma PutAllSnoc(tasks: seq<Task>, task: Task, maxTasks: nat)
    ensures PutAll(tasks + [task], maxTasks) == Put(PutAll(tasks, maxTasks), task, maxTasks)
  {
    assert (tasks + [task])[..|tasks|] == tasks;
  }

  function NewestStore(tasks: seq<Task>, maxTasks: nat): Store {
    Store(Newest(tasks, maxTasks), OwnersOf(Newest(tasks, maxTasks)))
  }

  lemma StoreSnoc(tasks: seq<Task>, task: Task, maxTasks: nat, authenticated: bool)
    requires maxTasks >= 1 && Uniform(tasks, authenticated)
    ensures Put(NewestStore(tasks, maxTasks), task, maxTasks) == NewestStore(tasks + [task], maxTasks)
  {
    var newest := Newest(tasks, maxTasks);
    PutOnNewest(newest, task, maxTasks, authenticated);
    NewestSnoc(tasks, task, maxTasks);
  }

  /** The store is the newest tasks in insertion order, and `contextOwners` is what those say. */
  predicate IsNewest(tasks: seq<Task>, maxTasks: nat) {
    PutAll(tasks, maxTasks) == NewestStore(tasks, maxTasks)
  }

  lemma IsNewestSnoc(before: seq<Task>, task: Task, tasks: seq<Task>, maxTasks: nat, authenticated: bool)
    requires maxTasks >= 1 && Uniform(before, authenticated) && IsNewest(before, maxTasks)
    requires tasks == before + [task]
    ensures IsNewest(tasks, maxTasks)
  {
    PutAllSnoc(before, task, maxTasks);
    StoreSnoc(before, task, maxTasks, authenticated);
  }

  /** The store always is. */
  lemma {:induction false} StoreIsNewest(tasks: seq<Task>, maxTasks: nat, authenticated: bool)
    requires maxTasks >= 1 && Uniform(tasks, authenticated)
    ensures IsNewest(tasks, maxTasks)
  {
    if tasks != [] {
      var before, task := tasks[..|tasks| - 1], tasks[|tasks| - 1];
      StoreIsNewest(before, maxTasks, authenticated);
      IsNewestSnoc(before, task, tasks, maxTasks, authenticated);
    }
  }

  // ---- requests -------------------------------------------------------------------------------------------------

  /** One accepted `message/send`. `counted` until the settled run has given its slot back; `open`
      until the request has been answered. */
  datatype Request = Request(
    contextId: string, owner: Option<string>, settled: Option<bool>, counted: bool, open: bool)

  datatype Server = Server(store: Store, activeRuns: int, requests: seq<Request>, stored: seq<Task>)

  datatype Limits = Limits(maxTasks: nat, maxConcurrentRuns: nat, authenticated: bool)

  datatype Input =
    | Arrive(contextId: string, owner: string)
    | Settle(request: nat, ok: bool)
    | GiveBack(request: nat)
    | TimeOut(request: nat)
    | Respond(request: nat, taskId: string)

  const NEW_SERVER := Server(Store([], map[]), 0, [], [])

  function Update(s: Server, r: nat, q: Request): Server
    requires r < |s.requests|
  {
    s.(requests := s.requests[r := q])
  }

  /** One atomic step between two awaits. */
  function Step(l: Limits, s: Server, i: Input): Server {
    match i
    case Arrive(contextId, owner) =>
      if l.authenticated && contextId in s.store.owners && s.store.owners[contextId] != owner then s
      else if s.activeRuns >= l.maxConcurrentRuns then s
      else
        var q := Request(contextId, if l.authenticated then Some(owner) else None, None, true, true);
        s.(activeRuns := s.activeRuns + 1, requests := s.requests + [q])
    case Settle(r, ok) =>
      if r < |s.requests| && s.requests[r].settled.None?
      then Update(s, r, s.requests[r].(settled := Some(ok))) else s
    case GiveBack(r) =>
      if r < |s.requests| && s.requests[r].settled.Some? && s.requests[r].counted
      then Update(s, r, s.requests[r].(counted := false)).(activeRuns := s.activeRuns - 1) else s
    case TimeOut(r) =>
      if r < |s.requests| && s.requests[r].settled.None? && s.requests[r].open
      then Update(s, r, s.requests[r].(open := false)) else s
    case Respond(r, taskId) =>
      if r < |s.requests| && s.requests[r].settled.Some? && s.requests[r].open then
        var q := s.requests[r];
        var t := Update(s, r, q.(open := false));
        if q.settled.value then
          var task := Task(taskId, q.contextId, q.owner, true);
          t.(store := Put(s.store, task, l.maxTasks), stored := s.stored + [task])
        else t
      else s
  }

  function Run(l: Limits, inputs: seq<Input>): Server {
    if inputs == [] then NEW_SERVER
    else Step(l, Run(l, inputs[..|inputs| - 1]), inputs[|inputs| - 1])
  }

  function Counted(requests: seq<Request>): nat {
    if requests == [] then 0
    else Counted(requests[..|requests| - 1]) + if requests[|requests| - 1].counted then 1 else 0
  }

  function Unsettled(requests: seq<Request>): nat {
    if requests == [] then 0
    else Unsettled(requests[..|requests| - 1]) + if requests[|requests| - 1].settled.None? then 1 else 0
  }

  /** Every settled run has run its final callback. */
  predicate AllGivenBack(requests: seq<Request>) {
    forall k :: 0 <= k < |requests| && requests[k].settled.Some? ==> !requests[k].counted
  }

  ghost predicate Inv(l: Limits, s: Server) {
    && s.activeRuns == Counted(s.requests) && s.activeRuns <= l.maxConcurrentRuns
    && (forall k :: 0 <= k < |s.requests| ==>
          (s.requests[k].settled.None? ==> s.requests[k].counted)
          && (s.requests[k].owner.Some? <==> l.authenticated))
    && Uniform(s.stored, l.authenticated) && s.store == PutAll(s.stored, l.maxTasks)
  }

  lemma {:induction false} CountedUpdate(requests: seq<Request>, r: nat, q: Request)
    requires r < |requests|
    ensures Counted(requests[r := q]) + (if requests[r].counted then 1 else 0)
         == Counted(requests) + if q.counted then 1 else 0
  {
    var n := |requests| - 1;
    if r < n {
      CountedUpdate(requests[..n], r, q);
      assert requests[r := q][..n] == requests[..n][r := q];
    } else {
      assert requests[r := q][..n] == requests[..n];
    }
  }

  lemma SlotKeeps(l: Limits, s: Server, i: Input)
    requires Inv(l, s) && (i.Settle? || i.GiveBack? || i.TimeOut?)
    ensures Inv(l, Step(l, s, i))
  {
    var t := Step(l, s, i);
    if t != s { CountedUpdate(s.requests, i.request, t.requests[i.request]); }
  }

  lemma RespondKeeps(l: Limits, s: Server, i: Input)
    requires Inv(l, s) && i.Respond?
    ensures Inv(l, Step(l, s, i))
  {
    var t := Step(l, s, i);
    if t != s {
      CountedUpdate(s.requests, i.request, t.requests[i.request]);
      if t.stored != s.stored {
        var task := t.stored[|s.stored|];
        assert t.stored == s.stored + [task] && t.stored[..|s.stored|] == s.stored;
      }
    }
  }

  lemma CountedSnoc(requests: seq<Request>, q: Request)
    ensures Counted(requests + [q]) == Counted(requests) + if q.counted then 1 else 0
  {
    assert (requests + [q])[..|requests|] == requests;
  }

  lemma ArriveKeeps(l: Limits, s: Server, i: Input)
    requires Inv(l, s) && i.Arrive?
    ensures Inv(l, Step(l, s, i))
  {
    var t := Step(l, s, i);
    if t != s { CountedSnoc(s.requests, t.requests[|s.requests|]); }
  }

  lemma StepKeeps(l: Limits, s: Server, i: Input)
    requires Inv(l, s)
    ensures Inv(l, Step(l, s, i))
  {
    match i
    case Arrive(_, _) => ArriveKeeps(l, s, i);
    case Respond(_, _) => RespondKeeps(l, s, i);
    case _ => SlotKeeps(l, s, i);
  }

  lemma {:induction false} InvAlways(l: Limits, inputs: seq<Input>)
    ensures Inv(l, Run(l, inputs))
  {
    if inputs != [] {
      InvAlways(l, inputs[..|inputs| - 1]);
      StepKeeps(l, Run(l, inputs[..|inputs| - 1]), inputs[|inputs| - 1]);
    }
  }

  lemma {:induction false} CountedBounds(requests: seq<Request>)
    requires forall k :: 0 <= k < |requests| && requests[k].settled.None? ==> requests[k].counted
    ensures Unsettled(requests) <= Counted(requests)
    ensures Unsettled(requests) == Counted(requests)
       <==> AllGivenBack(requests)
  {
    if requests != [] {
      var n := |requests| - 1;
      CountedBounds(requests[..n]);
      assert forall k :: 0 <= k < n ==> requests[..n][k] == requests[k];
    }
  }

  // ---- main results ---------------------------------------------------------------------------------------------

  /** In every interleaving, timed-out requests included, `activeRuns` covers every unsettled run,
      stays within the limit, and is exact as soon as settled runs have given their slots back. */
  lemma RunSlots(l: Limits, inputs: seq<Input>)
    ensures
      var s := Run(l, inputs);
      && Unsettled(s.requests) <= s.activeRuns <= l.maxConcurrentRuns
      && (Unsettled(s.requests) == s.activeRuns <==> AllGivenBack(s.requests))
  {
    InvAlways(l, inputs);
    CountedBounds(Run(l, inputs).requests);
  }

  /** In every interleaving the store holds the newest finished tasks in order, and the context
      owners are keyed by exactly the contexts that still have a stored owned task. */
  lemma StoredTasks(l: Limits, inputs: seq<Input>, contextId: string)
    requires l.maxTasks >= 1
    ensures
      var s := Run(l, inputs);
      && s.store.tasks == Newest(s.stored, l.maxTasks)
      && (contextId in s.store.owners <==> Owned(s.store.tasks, contextId))
  {
    InvAlways(l, inputs);
    var s := Run(l, inputs);
    StoreIsNewest(s.stored, l.maxTasks, l.authenticated);
    OwnersExactly(s.store.tasks, contextId);
  }

  // ---- what each step changes -----------------------------------------------------------------------------------

  /** The newest stored task of its context. */
  predicate NewestOf(tasks: seq<Task>, k: nat, contextId: string) {
    k < |tasks| && tasks[k].contextId == contextId
    && forall j :: k < j < |tasks| ==> tasks[j].contextId != contextId
  }

  lemma NewestIs(tasks: seq<Task>, contextId: string, n: nat) returns (k: nat)
    requires n <= |tasks| && forall j :: n <= j < |tasks| ==> tasks[j].contextId != contextId
    requires HasContext(tasks, contextId)
    ensures NewestOf(tasks, k, contextId)
    decreases n
  {
    if n > 0 && tasks[n - 1].contextId == contextId {
      k := n - 1;
    } else if n > 0 {
      k := NewestIs(tasks, contextId, n - 1);
    }
  }

  /** The newest stored task of the context, if any, is the caller's. */
  ghost predicate NewestIsOwn(tasks: seq<Task>, contextId: string, owner: string) {
    forall k: nat :: NewestOf(tasks, k, contextId) ==> tasks[k].owner == Some(owner)
  }

  lemma OwnerTest(tasks: seq<Task>, contextId: string, owner: string)
    requires Uniform(tasks, true)
    ensures NewestIsOwn(tasks, contextId, owner)
       <==> (contextId in OwnersOf(tasks) ==> OwnersOf(tasks)[contextId] == owner)
  {
    OwnersExactly(tasks, contextId);
    if HasContext(tasks, contextId) {
      var k := NewestIs(tasks, contextId, |tasks|);
      OwnerIsNewest(tasks, k);
      forall j: nat | NewestOf(tasks, j, contextId) ensures j == k {}
    }
  }

  lemma UniformPart(tasks: seq<Task>, n: nat, authenticated: bool)
    requires Uniform(tasks, authenticated)
    ensures Uniform(Newest(tasks, n), authenticated)
  {
    var part := Newest(tasks, n);
    forall k | 0 <= k < |part| ensures part[k] == tasks[|tasks| - |part| + k] {}
  }

  /** In every interleaving a request is taken exactly when fewer than `maxConcurrentRuns` runs hold a slot
      and, on a server with authentication, the newest stored task of its context, if any, is the caller's. */
  lemma ArrivesExactly(l: Limits, inputs: seq<Input>, contextId: string, owner: string)
    requires l.maxTasks >= 1
    ensures
      var s := Run(l, inputs);
      var t := Step(l, s, Arrive(contextId, owner));
      if Counted(s.requests) < l.maxConcurrentRuns
           && (l.authenticated ==> NewestIsOwn(s.store.tasks, contextId, owner))
      then
        && t.requests == s.requests
             + [Request(contextId, if l.authenticated then Some(owner) else None, None, true, true)]
        && t.activeRuns == s.activeRuns + 1 && t.store == s.store && t.stored == s.stored
      else t == s
  {
    InvAlways(l, inputs);
    var s := Run(l, inputs);
    StoreIsNewest(s.stored, l.maxTasks, l.authenticated);
    UniformPart(s.stored, l.maxTasks, l.authenticated);
    if l.authenticated { OwnerTest(s.store.tasks, contextId, owner); }
  }

  /** What any step does to a request: its run settles once, as it ends; its slot is given back once, after
      that; and it is closed once, by its answer or by a timeout that comes before the run has settled. */
  lemma RequestChanges(l: Limits, s: Server, i: Input, r: nat)
    requires r < |s.requests|
    ensures
      var t := Step(l, s, i);
      && r < |t.requests|
      && var q, u := s.requests[r], t.requests[r];
         && u.contextId == q.contextId && u.owner == q.owner
         && u.settled == (if q.settled.None? && i.Settle? && i.request == r then Some(i.ok) else q.settled)
         && (u.counted <==> q.counted && !(i == GiveBack(r) && q.settled.Some?))
         && (u.open <==>
              q.open && !(i == TimeOut(r) && q.settled.None?) && !(i.Respond? && i.request == r && q.settled.Some?))
  {
  }

  /** A task is stored exactly when an open request is answered whose run has succeeded. */
  lemma StoresExactly(l: Limits, s: Server, i: Input)
    ensures
      var t := Step(l, s, i);
      if i.Respond? && i.request < |s.requests| && s.requests[i.request].open
           && s.requests[i.request].settled == Some(true)
      then
        var q := s.requests[i.request];
        var task := Task(i.taskId, q.contextId, q.owner, true);
        t.stored == s.stored + [task] && t.store == Put(s.store, task, l.maxTasks)
      else t.stored == s.stored && t.store == s.store
  {
  }

  // ---- the store object -----------------------------------------------------------------------------------------

  class Tasks {
    const maxTasks: nat
    var tasks: seq<Task>
    var owners: map<string, string>

    function Now(): Store
      reads this
    {
      Store(tasks, owners)
    }

    constructor (maxTasks: nat)
      ensures this.maxTasks == maxTasks && Now() == Store([], map[])
    {
      this.maxTasks, tasks, owners := maxTasks, [], map[];
    }

    /** `deleteTask`, for the key found at `k`. */
    method DeleteTask(k: nat)
      requires k < |tasks|
      modifies this
      ensures Now() == Delete(old(Now()), k)
    {
      var task := tasks[k];
      tasks := tasks[..k] + tasks[k + 1..];
      var shared := false;
      for j := 0 to |tasks|
        invariant shared <==> exists m :: 0 <= m < j && tasks[m].contextId == task.contextId
      {
        if tasks[j].contextId == task.contextId { shared := true; }
      }
      if !shared { owners := owners - {task.contextId}; }
    }

    method EvictIfNeeded()
      modifies this
      ensures Now() == Evict(old(Now()), maxTasks)
    {
      if |tasks| < maxTasks { return; }
      for k := 0 to |tasks|
        invariant Now() == old(Now())
        invariant forall j :: 0 <= j < k ==> !tasks[j].settled
      {
        if tasks[k].settled {
          var v := Victim(tasks);
          assert v == k;
          DeleteTask(k);
          return;
        }
      }
      if |tasks| > 0 { DeleteTask(0); }
    }

    /** The end of a successful request. */
    method StoreTask(task: Task)
      modifies this
      ensures Now() == Put(old(Now()), task, maxTasks)
    {
      EvictIfNeeded();
      tasks := tasks + [task];
      if task.owner.Some? { owners := owners[task.contextId := task.owner.value]; }
    }
  }
}
