/** The task manager (src/tasks.rs), the lossy stream a browser follows it by (`tasks_topic` in
    src/extensions/core.rs), and the browser's replica (web/src/stores/tasks.ts). */
module Tasks {
  import opened Text

  const KEEP := 1000
  const CAPACITY := 1024  // of the broadcast channel
  const SHOWN := 200      // tasks in a SYNC

  type Id = nat

  datatype Status = Running | Ok | Warning | Failed | Stopped

  datatype Info = Info(
    id: Id, user: string, status: Status, message: Option<string>, endedAt: Option<int>, progress: Option<nat>)

  /** What the replica must agree about; progress is throttled. */
  datatype Core = Core(status: Status, message: Option<string>, endedAt: Option<int>)

  function CoreOf(info: Info): Core
  {
    Core(info.status, info.message, info.endedAt)
  }

  // ---- The manager ----

  /** Every task ever made, the ones still kept, and every event ever broadcast. */
  datatype Server = Server(infos: map<Id, Info>, kept: seq<Id>, events: seq<Info>)

  function Broadcast(s: Server, info: Info): Server
  {
    s.(infos := s.infos[info.id := info], events := s.events + [info])
  }

  function Spawn(s: Server, user: string): Server
  {
    var id := |s.infos|;
    Broadcast(s.(kept := (if |s.kept| >= KEEP then s.kept[1..] else s.kept) + [id]), Info(id, user, Running, None, None, None))
  }

  /** `log`: a line for the log, sent with the entry as it stands. */
  function Log(s: Server, id: Id): Server
    requires id in s.infos
  {
    s.(events := s.events + [s.infos[id]])
  }

  /** `progress`; `due` says whether half a second has passed since the last one sent. */
  function SetProgress(s: Server, id: Id, done: nat, complete: bool, due: bool): Server
    requires id in s.infos
  {
    var info := s.infos[id];
    if info.status != Running || info.progress == Some(done) then s else
    var changed := info.(progress := Some(done));
    if complete || due then Broadcast(s, changed) else s.(infos := s.infos[id := changed])
  }

  function ClearProgress(s: Server, id: Id): Server
    requires id in s.infos
  {
    if s.infos[id].progress.None? then s else Broadcast(s, s.infos[id].(progress := None))
  }

  function Finish(s: Server, id: Id, status: Status, message: Option<string>, time: int): Server
    requires id in s.infos
  {
    if s.infos[id].status != Running then s
    else Broadcast(s, s.infos[id].(status := status, message := message, endedAt := Some(time)))
  }

  /** `find`: among the tasks kept, one of this user. */
  predicate Finds(s: Server, user: string, id: Id)
  {
    id in s.kept && id in s.infos && s.infos[id].user == user
  }

  function Stop(s: Server, user: string, id: Id, time: int): Server
  {
    if !Finds(s, user, id) then s else Finish(Log(s, id), id, Stopped, Some("stopped"), time)
  }

  /** `detail`: a task as it stands. */
  function Snapshot(s: Server, user: string, id: Id): seq<Info>
  {
    if Finds(s, user, id) then [s.infos[id]] else []
  }

  /** The user's tasks among those kept, newest first. */
  function NewestIds(infos: map<Id, Info>, kept: seq<Id>, user: string, limit: nat): seq<Id>
    requires forall id | id in kept :: id in infos
  {
    if kept == [] || limit == 0 then [] else
    var init, id := kept[..|kept| - 1], kept[|kept| - 1];
    if infos[id].user == user then [id] + NewestIds(infos, init, user, limit - 1) else NewestIds(infos, init, user, limit)
  }

  lemma {:induction false} NewestAreKept(infos: map<Id, Info>, kept: seq<Id>, user: string, limit: nat)
    requires forall id | id in kept :: id in infos
    ensures forall id | id in NewestIds(infos, kept, user, limit) :: id in kept && infos[id].user == user
  {
    if kept != [] && limit > 0 {
      NewestAreKept(infos, kept[..|kept| - 1], user, limit - 1);
      NewestAreKept(infos, kept[..|kept| - 1], user, limit);
    }
  }

  /** `list` */
  function List(s: Server, user: string, limit: nat): (tasks: seq<Info>)
    requires forall id | id in s.kept :: id in s.infos
  {
    var ids := NewestIds(s.infos, s.kept, user, limit);
    NewestAreKept(s.infos, s.kept, user, limit);
    seq(|ids|, k requires 0 <= k < |ids| => assert ids[k] in ids; s.infos[ids[k]])
  }

  // ---- The stream ----

  /** What the browser is sent: the stream's lists and updates, and answers to `tasks.detail`. */
  datatype Frame = Sync(tasks: seq<Info>) | Update(task: Info) | Detail(task: Info)

  function Upserts(frame: Frame): seq<Info>
  {
    match frame
    case Sync(tasks) => tasks
    case Update(task) => [task]
    case Detail(task) => [task]
  }

  function Flat(wire: seq<Frame>): seq<Info>
  {
    FlatMap(Upserts, wire)
  }

  /** One user's connection: how far its subscription has read the broadcast, whether a SYNC is due, the snapshots its
      calls of `tasks.detail` have taken and not yet sent, what is on its way to the browser, and the browser's replica
      and waiters. */
  datatype Follower = Follower(
    user: string, pos: nat, syncDue: bool, loads: seq<Info>, wire: seq<Frame>,
    byId: map<Id, Info>, waiters: set<Id>, resolved: seq<Info>)

  /** `recv`: the next event, or the news that the oldest were overwritten. */
  function Receive(s: Server, f: Follower): Follower
  {
    if f.syncDue || f.pos >= |s.events| then f
    else if |s.events| - f.pos > CAPACITY then f.(pos := |s.events| - CAPACITY, syncDue := true)
    else
      var event := s.events[f.pos];
      f.(pos := f.pos + 1, wire := if event.user == f.user then f.wire + [Update(event)] else f.wire)
  }

  function Resync(s: Server, f: Follower): Follower
    requires forall id | id in s.kept :: id in s.infos
  {
    if !f.syncDue then f
    else f.(syncDue := false, wire := f.wire + [Sync(List(s, f.user, SHOWN))])
  }

  /** The connection is lost and made again, with its calls: the topic is subscribed to from here on. */
  function Reconnect(s: Server, f: Follower): Follower
  {
    f.(pos := |s.events|, syncDue := true, loads := [], wire := [])
  }

  /** `loadLog` has called `tasks.detail`, whose handler looks the task up. */
  function Load(s: Server, f: Follower, id: Id): Follower
  {
    f.(loads := f.loads + Snapshot(s, f.user, id))
  }

  /** The answer is sent, whatever happened in between. */
  function Answer(f: Follower, k: nat): Follower
  {
    if k >= |f.loads| then f
    else f.(loads := f.loads[..k] + f.loads[k + 1..], wire := f.wire + [Detail(f.loads[k])])
  }

  function Upsert(f: Follower, task: Info): Follower
  {
    var g := f.(byId := f.byId[task.id := task]);
    if task.status == Running then g
    else g.(waiters := g.waiters - {task.id}, resolved := if task.id in g.waiters then g.resolved + [task] else g.resolved)
  }

  function UpsertAll(f: Follower, tasks: seq<Info>): Follower
    decreases |tasks|
  {
    if tasks == [] then f else UpsertAll(Upsert(f, tasks[0]), tasks[1..])
  }

  function Deliver(f: Follower): Follower
  {
    if f.wire == [] then f else UpsertAll(f.(wire := f.wire[1..]), Upserts(f.wire[0]))
  }

  /** `wait`: a task that has already finished is answered at once. */
  function Wait(f: Follower, id: Id): Follower
  {
    if id in f.byId && f.byId[id].status != Running then f.(resolved := f.resolved + [f.byId[id]])
    else f.(waiters := f.waiters + {id})
  }

  // ---- Agreement ----

  /** What a stream of upserts says last about a task. */
  function Last(stream: seq<Info>, id: Id): Option<Core>
  {
    if stream == [] then None
    else if stream[|stream| - 1].id == id then Some(CoreOf(stream[|stream| - 1]))
    else Last(stream[..|stream| - 1], id)
  }

  /** The user's events the follower has not read. */
  function Unread(events: seq<Info>, user: string): seq<Info>
  {
    if events == [] then [] else (if events[0].user == user then [events[0]] else []) + Unread(events[1..], user)
  }

  predicate Known(s: Server)
  {
    && (forall id | id in s.infos :: id < |s.infos| && s.infos[id].id == id)
    && (forall id | id in s.kept :: id in s.infos)
  }

  /** The last event about a task has its status, message and end time as they are now. */
  predicate Published(s: Server, id: Id)
  {
    id in s.infos ==> Last(s.events, id) == Some(CoreOf(s.infos[id]))
  }

  predicate EventsOwned(s: Server)
  {
    forall event | event in s.events :: event.id in s.infos && s.infos[event.id].user == event.user
  }

  ghost predicate ServerOk(s: Server)
  {
    Known(s) && EventsOwned(s) && forall id :: Published(s, id)
  }

  lemma {:induction false} LastJoin(a: seq<Info>, b: seq<Info>, id: Id)
    ensures Last(a + b, id) == if Last(b, id).Some? then Last(b, id) else Last(a, id)
  {
    if b == [] {
      assert a + b == a;
    } else {
      var all, init := a + b, b[..|b| - 1];
      assert all[|all| - 1] == b[|b| - 1] && all[..|all| - 1] == a + init;
      LastJoin(a, init, id);
    }
  }

  lemma {:induction false} UnreadMore(events: seq<Info>, user: string, event: Info)
    ensures Unread(events + [event], user) == Unread(events, user) + if event.user == user then [event] else []
  {
    if events == [] {
      assert [] + [event] == [event] && [event][1..] == [];
    } else {
      var all, head := events + [event], if events[0].user == user then [events[0]] else [];
      var last := if event.user == user then [event] else [];
      assert all[0] == events[0] && all[1..] == events[1..] + [event];
      UnreadMore(events[1..], user, event);
      assert head + (Unread(events[1..], user) + last) == head + Unread(events[1..], user) + last;
    }
  }

  /** A user's own events say everything there is to say about the user's tasks. */
  lemma {:induction false} LastUnread(events: seq<Info>, user: string, id: Id)
    requires forall event | event in events && event.id == id :: event.user == user
    ensures Last(Unread(events, user), id) == Last(events, id)
  {
    if events != [] {
      var init, event := events[..|events| - 1], events[|events| - 1];
      assert events == init + [event];
      UnreadMore(init, user, event);
      LastUnread(init, user, id);
      LastJoin(Unread(init, user), if event.user == user then [event] else [], id);
    }
  }

  /** Everything on its way to the replica: sent, and not read yet. */
  function Stream(s: Server, f: Follower): seq<Info>
    requires f.pos <= |s.events|
  {
    Flat(f.wire) + Unread(s.events[f.pos..], f.user)
  }

  /** What the replica will hold about a task when everything on its way has arrived. */
  function Destined(stream: seq<Info>, byId: map<Id, Info>, id: Id): Option<Core>
  {
    match Last(stream, id)
    case Some(core) => Some(core)
    case None => if id in byId then Some(CoreOf(byId[id])) else None
  }

  // ---- What every step keeps ----

  const RUNNING := Core(Running, None, None)

  /** With all that is on its way, `unread` being the end of it, the replica will hold the task as it is, unless an
      answer that was late has the last word. */
  predicate Holds(stream: seq<Info>, unread: seq<Info>, byId: map<Id, Info>, id: Id, late: bool, core: Core)
  {
    Destined(stream, byId, id) == Some(if late && Last(unread, id).None? then RUNNING else core)
  }

  predicate Agree(s: Server, f: Follower, late: set<Id>, id: Id)
    requires f.pos <= |s.events|
  {
    && id in s.infos
    && (id in late ==> s.infos[id].status != Running)
    && Holds(Stream(s, f), Unread(s.events[f.pos..], f.user), f.byId, id, id in late, CoreOf(s.infos[id]))
  }

  /** Whoever still waits has not been told of a finished task; whoever was answered got one. */
  predicate WaitersOk(f: Follower)
  {
    && (forall id | id in f.waiters && id in f.byId :: f.byId[id].status == Running)
    && (forall task | task in f.resolved :: task.status != Running)
  }

  ghost predicate FollowOk(s: Server, f: Follower, late: set<Id>)
    requires Known(s)
  {
    && f.pos <= |s.events|
    && WaitersOk(f)
    && (forall id | id in late :: id in s.infos)
    && (!f.syncDue ==> forall id | id in NewestIds(s.infos, s.kept, f.user, SHOWN) :: Agree(s, f, late, id))
  }

  lemma BroadcastPublished(s: Server, info: Info)
    requires ServerOk(s) && info.id in s.infos && info.user == s.infos[info.id].user
    ensures ServerOk(Broadcast(s, info))
  {
    var n := Broadcast(s, info);
    assert n.infos.Keys == s.infos.Keys;
    forall id ensures Published(n, id) {
      assert Published(s, id);
      LastJoin(s.events, [info], id);
      assert [info][..0] == [];
    }
  }

  /** What may be said of a task that is in `late`: it has finished, and stays as it is. */
  predicate Allowed(s: Server, info: Info, late: set<Id>)
  {
    info.id in s.infos && info.user == s.infos[info.id].user && (info.id in late ==> info.status != Running)
  }

  lemma BroadcastAgrees(s: Server, f: Follower, late: set<Id>, info: Info, id: Id)
    requires f.pos <= |s.events| && Agree(s, f, late, id) && s.infos[id].user == f.user && Allowed(s, info, late)
    ensures Agree(Broadcast(s, info), f, late, id)
  {
    StreamMore(s, f, info);
    var unread := Unread(s.events[f.pos..], f.user);
    if info.user == f.user {
      HoldsMore(Stream(s, f), unread, f.byId, id, id in late, CoreOf(s.infos[id]), info);
    } else {
      assert info.id != id && Stream(s, f) + [] == Stream(s, f) && unread + [] == unread;
    }
  }

  lemma HoldsMore(stream: seq<Info>, unread: seq<Info>, byId: map<Id, Info>, id: Id, late: bool, core: Core, info: Info)
    requires Holds(stream, unread, byId, id, late, core)
    ensures Holds(stream + [info], unread + [info], byId, id, late, if info.id == id then CoreOf(info) else core)
  {
    LastJoin(stream, [info], id);
    LastJoin(unread, [info], id);
    assert [info][..0] == [];
  }

  /** Once the topic has read what is said of a task, no answer sent before has the last word. */
  lemma HoldsRead(stream: seq<Info>, head: seq<Info>, rest: seq<Info>, byId: map<Id, Info>, id: Id, late: bool, core: Core)
    requires Holds(stream, head + rest, byId, id, late, core) && |head| <= 1
    ensures Holds(stream, rest, byId, id, late && (head == [] || head[0].id != id), core)
  {
    LastJoin(head, rest, id);
    assert |head| == 1 ==> head[..0] == [] && head[|head| - 1] == head[0];
  }

  lemma StreamMore(s: Server, f: Follower, info: Info)
    requires f.pos <= |s.events|
    ensures Broadcast(s, info).events[f.pos..] == s.events[f.pos..] + [info]
    ensures var more := if info.user == f.user then [info] else [];
            && Unread(Broadcast(s, info).events[f.pos..], f.user) == Unread(s.events[f.pos..], f.user) + more
            && Stream(Broadcast(s, info), f) == Stream(s, f) + more
  {
    var rest := s.events[f.pos..];
    assert Broadcast(s, info).events[f.pos..] == rest + [info];
    UnreadMore(rest, f.user, info);
  }

  // ---- The newest tasks ----

  /** Fewer are among fewer. */
  lemma {:induction false} NewestGrow(infos: map<Id, Info>, kept: seq<Id>, user: string, few: nat, many: nat)
    requires few <= many && forall id | id in kept :: id in infos
    ensures forall id | id in NewestIds(infos, kept, user, few) :: id in NewestIds(infos, kept, user, many)
  {
    if kept != [] && few > 0 {
      NewestGrow(infos, kept[..|kept| - 1], user, few - 1, many - 1);
      NewestGrow(infos, kept[..|kept| - 1], user, few, many);
    }
  }

  /** Forgetting the oldest task adds none to the newest. */
  lemma {:induction false} NewestForget(infos: map<Id, Info>, kept: seq<Id>, user: string, limit: nat)
    requires kept != [] && forall id | id in kept :: id in infos
    ensures forall id | id in NewestIds(infos, kept[1..], user, limit) :: id in NewestIds(infos, kept, user, limit)
  {
    var rest := kept[1..];
    if rest != [] && limit > 0 {
      assert rest[..|rest| - 1] == kept[..|kept| - 1][1..];
      NewestForget(infos, kept[..|kept| - 1], user, limit - 1);
      NewestForget(infos, kept[..|kept| - 1], user, limit);
    }
  }

  /** Only whose task it is matters, not how it stands. */
  lemma {:induction false} NewestSame(a: map<Id, Info>, b: map<Id, Info>, kept: seq<Id>, user: string, limit: nat)
    requires forall id | id in kept :: id in a && id in b && a[id].user == b[id].user
    ensures NewestIds(a, kept, user, limit) == NewestIds(b, kept, user, limit)
  {
    if kept != [] && limit > 0 {
      NewestSame(a, b, kept[..|kept| - 1], user, limit - 1);
      NewestSame(a, b, kept[..|kept| - 1], user, limit);
    }
  }

  /** The tasks kept are the last ones made, oldest first, and no more than are to be kept. */
  predicate LastKept(s: Server)
  {
    && |s.kept| == (if |s.infos| < KEEP then |s.infos| else KEEP)
    && forall k | 0 <= k < |s.kept| :: s.kept[k] == |s.infos| - |s.kept| + k
  }

  predicate Ascending(ids: seq<Id>)
  {
    forall i, j | 0 <= i < j < |ids| :: ids[i] < ids[j]
  }

  /** A task of the user's that is still kept. */
  predicate Own(infos: map<Id, Info>, kept: seq<Id>, user: string, id: Id)
  {
    id in kept && id in infos && infos[id].user == user
  }

  /** The user's kept tasks that were made after this one. */
  function Newer(infos: map<Id, Info>, kept: seq<Id>, user: string, id: Id): set<Id>
  {
    set other | other in kept && other in infos && infos[other].user == user && other > id
  }

  /** One of the user's newest kept tasks: fewer than `limit` are newer. */
  predicate Recent(s: Server, user: string, limit: nat, id: Id)
  {
    Own(s.infos, s.kept, user, id) && |Newer(s.infos, s.kept, user, id)| < limit
  }

  lemma AscendingMore(kept: seq<Id>)
    requires kept != [] && Ascending(kept)
    ensures var init, last := kept[..|kept| - 1], kept[|kept| - 1];
            Ascending(init) && kept == init + [last] && forall k | k in init :: k < last
  {
  }

  lemma NewerMore(infos: map<Id, Info>, init: seq<Id>, last: Id, user: string, id: Id)
    requires (forall k | k in init :: k < last) && forall k | k in init + [last] :: k in infos
    ensures last !in init
    ensures |Newer(infos, init + [last], user, id)| ==
            |Newer(infos, init, user, id)| + (if infos[last].user == user && last > id then 1 else 0)
  {
    assert last in init + [last];
    assert Newer(infos, init + [last], user, id) ==
      Newer(infos, init, user, id) + (if infos[last].user == user && last > id then {last} else {});
  }

  lemma LastIsNewest(infos: map<Id, Info>, init: seq<Id>, last: Id, user: string)
    requires Ascending(init + [last])
    ensures Newer(infos, init + [last], user, last) == {}
  {
    var kept := init + [last];
    forall i | 0 <= i < |kept| ensures kept[i] <= last {
      assert i < |init| ==> kept[i] < kept[|init|];
    }
  }

  /** So said, without saying how they are found. */
  lemma {:induction false} NewestAre(infos: map<Id, Info>, kept: seq<Id>, user: string, limit: nat, id: Id)
    requires Ascending(kept) && forall k | k in kept :: k in infos
    ensures id in NewestIds(infos, kept, user, limit) <==>
            Own(infos, kept, user, id) && |Newer(infos, kept, user, id)| < limit
  {
    if kept != [] && limit > 0 {
      var init, last := kept[..|kept| - 1], kept[|kept| - 1];
      AscendingMore(kept);
      NewerMore(infos, init, last, user, id);
      NewestAre(infos, init, user, if infos[last].user == user then limit - 1 else limit, id);
      if id == last {
        LastIsNewest(infos, init, last, user);
      }
    }
  }

  function OwnedBy(infos: map<Id, Info>, user: string): Id -> bool
  {
    (id: Id) => id in infos && infos[id].user == user
  }

  /** There are as many as there are, up to the limit. */
  lemma {:induction false} NewestCount(infos: map<Id, Info>, kept: seq<Id>, user: string, limit: nat)
    requires forall k | k in kept :: k in infos
    ensures var ids, own := NewestIds(infos, kept, user, limit), Filter(OwnedBy(infos, user), kept);
            |ids| == if |own| < limit then |own| else limit
  {
    if kept != [] && limit > 0 {
      var init, last := kept[..|kept| - 1], kept[|kept| - 1];
      assert kept == init + [last];
      FilterAppend(OwnedBy(infos, user), init, [last]);
      NewestCount(infos, init, user, if infos[last].user == user then limit - 1 else limit);
    }
  }

  /** They come newest first, and whatever is left out is older. */
  predicate InOrder(ids: seq<Id>, infos: map<Id, Info>, kept: seq<Id>, user: string)
  {
    && (forall i, j | 0 <= i < j < |ids| :: ids[i] > ids[j])
    && (forall id | id in kept && Own(infos, kept, user, id) && id !in ids :: forall k | k in ids :: id < k)
  }

  lemma OrderMore(ids: seq<Id>, infos: map<Id, Info>, init: seq<Id>, last: Id, user: string)
    requires InOrder(ids, infos, init, user) && (forall k | k in init :: k < last) && (forall k | k in ids :: k in init)
    ensures InOrder([last] + ids, infos, init + [last], user)
    ensures last in infos && infos[last].user != user ==> InOrder(ids, infos, init + [last], user)
  {
    var all := [last] + ids;
    forall i, j | 0 <= i < j < |all| ensures all[i] > all[j] {
      assert all[j] == ids[j - 1] && ids[j - 1] in ids;
      assert i > 0 ==> all[i] == ids[i - 1];
    }
  }

  lemma {:induction false} NewestInOrder(infos: map<Id, Info>, kept: seq<Id>, user: string, limit: nat)
    requires Ascending(kept) && forall k | k in kept :: k in infos
    ensures limit > 0 ==> InOrder(NewestIds(infos, kept, user, limit), infos, kept, user)
  {
    if kept != [] && limit > 0 {
      var init, last := kept[..|kept| - 1], kept[|kept| - 1];
      assert kept == init + [last];
      var less := if infos[last].user == user then limit - 1 else limit;
      NewestInOrder(infos, init, user, less);
      NewestAreKept(infos, init, user, less);
      if less > 0 {
        OrderMore(NewestIds(infos, init, user, less), infos, init, last, user);
      }
    }
  }

  /** The user's kept tasks, as they stand, newest first: all of them, or as many as the limit lets in, and then none that
      is left out is newer than one that is not. */
  ghost predicate IsList(infos: map<Id, Info>, kept: seq<Id>, user: string, limit: nat, list: seq<Info>)
  {
    var own := Filter(OwnedBy(infos, user), kept);
    && |list| == (if |own| < limit then |own| else limit)
    && (forall task | task in list :: Own(infos, kept, user, task.id) && task == infos[task.id])
    && (forall i, j | 0 <= i < j < |list| :: list[i].id > list[j].id)
    && (forall id: Id | Own(infos, kept, user, id) && id !in Ids(list) :: forall task | task in list :: id < task.id)
  }

  lemma ListIs(s: Server, user: string, limit: nat)
    requires Known(s) && LastKept(s)
    ensures IsList(s.infos, s.kept, user, limit, List(s, user, limit))
    ensures forall id :: Recent(s, user, limit, id) <==> id in Ids(List(s, user, limit))
  {
    var ids, list := NewestIds(s.infos, s.kept, user, limit), List(s, user, limit);
    NewestCount(s.infos, s.kept, user, limit);
    NewestInOrder(s.infos, s.kept, user, limit);
    NewestAreKept(s.infos, s.kept, user, limit);
    forall k | 0 <= k < |list| ensures list[k].id == ids[k] && list[k] == s.infos[ids[k]] && ids[k] in ids && list[k] in list {
      assert ids[k] in ids && ids[k] in s.kept;
    }
    forall id ensures id in Ids(list) <==> id in ids {
    }
    forall id ensures Recent(s, user, limit, id) <==> id in ids {
      NewestAre(s.infos, s.kept, user, limit, id);
    }
  }

  lemma SpawnAmong(s: Server, spawned: string, user: string, id: Id)
    requires ServerOk(s)
    requires id in NewestIds(Spawn(s, spawned).infos, Spawn(s, spawned).kept, user, SHOWN)
    ensures id == |s.infos| || (id in s.infos && id in NewestIds(s.infos, s.kept, user, SHOWN))
  {
    var n, fresh_ := Spawn(s, spawned), |s.infos|;
    var kept := if |s.kept| >= KEEP then s.kept[1..] else s.kept;
    assert n.kept[..|n.kept| - 1] == kept && n.kept[|n.kept| - 1] == fresh_;
    NewestGrow(n.infos, kept, user, SHOWN - 1, SHOWN);
    NewestSame(n.infos, s.infos, kept, user, SHOWN);
    NewestAreKept(s.infos, kept, user, SHOWN);
    if |s.kept| >= KEEP {
      NewestForget(s.infos, s.kept, user, SHOWN);
    }
  }

  lemma SpawnKept(s: Server, user: string)
    requires Known(s) && LastKept(s)
    ensures Known(Spawn(s, user)) && LastKept(Spawn(s, user))
    ensures |s.infos| in Spawn(s, user).kept && Spawn(s, user).infos[|s.infos|].user == user
  {
    var n := Spawn(s, user);
    assert n.infos.Keys == s.infos.Keys + {|s.infos|};
    assert n.kept[|n.kept| - 1] == |s.infos|;
  }

  /** After a spawn, the newest are the new task, if it is the user's, and tasks that were among them before. */
  lemma SpawnNewest(s: Server, spawned: string, user: string, id: Id)
    requires ServerOk(s) && LastKept(s)
    requires Recent(Spawn(s, spawned), user, SHOWN, id)
    ensures if id == |s.infos| then spawned == user else Recent(s, user, SHOWN, id)
  {
    var n := Spawn(s, spawned);
    SpawnKept(s, spawned);
    NewestAre(n.infos, n.kept, user, SHOWN, id);
    SpawnAmong(s, spawned, user, id);
    NewestAre(s.infos, s.kept, user, SHOWN, id);
  }

  lemma SpawnPublished(s: Server, user: string)
    requires ServerOk(s)
    ensures ServerOk(Spawn(s, user))
  {
    var n, info := Spawn(s, user), Info(|s.infos|, user, Running, None, None, None);
    assert n.infos == s.infos[info.id := info] && |n.infos| == |s.infos| + 1;
    forall id ensures Published(n, id) {
      assert Published(s, id);
      LastJoin(s.events, [info], id);
      assert [info][..0] == [];
    }
  }

  // ---- Steps of the system ----

  datatype System = System(server: Server, follower: Follower)

  datatype Step =
    | Spawns(user: string)
    | Logs(id: Id)
    | Progresses(id: Id, done: nat, complete: bool, due: bool)
    | ClearsProgress(id: Id)
    | Finishes(id: Id, status: Status, message: Option<string>, time: int)
    | Stops(user: string, id: Id, time: int)
    | StreamReceives
    | StreamResyncs
    | Reconnects
    | Loads(id: Id)
    | Answers(k: nat)
    | FrameArrives
    | Waits(id: Id)

  function Do(y: System, step: Step): System
    requires Known(y.server)
  {
    var s, f := y.server, y.follower;
    match step
    case Spawns(user) => y.(server := Spawn(s, user))
    case Logs(id) => if id in s.infos then y.(server := Log(s, id)) else y
    case Progresses(id, done, complete, due) =>
      if id in s.infos then y.(server := SetProgress(s, id, done, complete, due)) else y
    case ClearsProgress(id) => if id in s.infos then y.(server := ClearProgress(s, id)) else y
    case Finishes(id, status, message, time) =>
      if id in s.infos && status != Running then y.(server := Finish(s, id, status, message, time)) else y
    case Stops(user, id, time) => y.(server := Stop(s, user, id, time))
    case StreamReceives => y.(follower := Receive(s, f))
    case StreamResyncs => y.(follower := Resync(s, f))
    case Reconnects => y.(follower := Reconnect(s, f))
    case Loads(id) => y.(follower := Load(s, f, id))
    case Answers(k) => y.(follower := Answer(f, k))
    case FrameArrives => y.(follower := Deliver(f))
    case Waits(id) => y.(follower := Wait(f, id))
  }

  /** An answer that was taken before the task finished and is sent after. */
  predicate Overtaken(s: Server, frame: Frame)
  {
    frame.Detail? && frame.task.status == Running && frame.task.id in s.infos && s.infos[frame.task.id].status != Running
  }

  function Ids(tasks: seq<Info>): set<Id>
  {
    set task | task in tasks :: task.id
  }

  /** The tasks of which the last thing put on the wire is an overtaken answer, after a step. */
  function LateAfter(y: System, step: Step, late: set<Id>): set<Id>
    requires Known(y.server)
  {
    var before, after := y.follower.wire, Do(y, step).follower.wire;
    if |after| <= |before| then late else Said(y.server, after[|before|], late)
  }

  function Said(s: Server, frame: Frame, late: set<Id>): set<Id>
  {
    late - Ids(Upserts(frame)) + if Overtaken(s, frame) then {frame.task.id} else {}
  }

  ghost predicate Good(y: System, late: set<Id>)
  {
    ServerOk(y.server) && FollowOk(y.server, y.follower, late)
  }

  lemma BroadcastGood(y: System, late: set<Id>, info: Info)
    requires Good(y, late) && Allowed(y.server, info, late)
    ensures Good(y.(server := Broadcast(y.server, info)), late)
  {
    var s, f, n := y.server, y.follower, Broadcast(y.server, info);
    BroadcastPublished(s, info);
    if !f.syncDue {
      NewestSame(s.infos, n.infos, s.kept, f.user, SHOWN);
      NewestAreKept(s.infos, s.kept, f.user, SHOWN);
      forall id | id in NewestIds(n.infos, n.kept, f.user, SHOWN) ensures Agree(n, f, late, id) {
        BroadcastAgrees(s, f, late, info, id);
      }
    }
  }

  /** A change of progress that is not broadcast. */
  lemma QuietGood(y: System, late: set<Id>, id: Id, progress: Option<nat>)
    requires Good(y, late) && id in y.server.infos
    ensures Good(y.(server := y.server.(infos := y.server.infos[id := y.server.infos[id].(progress := progress)])), late)
  {
    var s, f := y.server, y.follower;
    var n := s.(infos := s.infos[id := s.infos[id].(progress := progress)]);
    assert n.infos.Keys == s.infos.Keys;
    forall i ensures Published(n, i) { assert Published(s, i); }
    if !f.syncDue {
      NewestSame(s.infos, n.infos, s.kept, f.user, SHOWN);
      forall i | i in NewestIds(n.infos, n.kept, f.user, SHOWN) ensures Agree(n, f, late, i) { assert Agree(s, f, late, i); }
    }
  }

  lemma SpawnAgrees(s: Server, f: Follower, late: set<Id>, user: string, id: Id)
    requires ServerOk(s) && f.pos <= |s.events| && |s.infos| !in late
    requires if id == |s.infos| then user == f.user else Agree(s, f, late, id) && s.infos[id].user == f.user
    ensures Agree(Spawn(s, user), f, late, id)
  {
    var info := Info(|s.infos|, user, Running, None, None, None);
    var stream, unread := Stream(s, f), Unread(s.events[f.pos..], f.user);
    StreamMore(s, f, info);
    if id == info.id {
      LastJoin(stream, [info], id);
      assert [info][..0] == [];
    } else if user == f.user {
      HoldsMore(stream, unread, f.byId, id, id in late, CoreOf(s.infos[id]), info);
    } else {
      assert stream + [] == stream && unread + [] == unread;
    }
  }

  lemma SpawnGood(y: System, late: set<Id>, user: string)
    requires Good(y, late)
    ensures Good(y.(server := Spawn(y.server, user)), late)
  {
    var s, f, n := y.server, y.follower, Spawn(y.server, user);
    var info := Info(|s.infos|, user, Running, None, None, None);
    SpawnPublished(s, user);
    if !f.syncDue {
      NewestAreKept(n.infos, n.kept, f.user, SHOWN);
      StreamMore(s, f, info);
      forall id | id in NewestIds(n.infos, n.kept, f.user, SHOWN) ensures Agree(n, f, late, id) {
        SpawnAmong(s, user, f.user, id);
        SpawnAgrees(s, f, late, user, id);
      }
    }
  }

  lemma ReceiveMoves(s: Server, f: Follower)
    requires f.pos < |s.events| && Receive(s, f) != f && !Receive(s, f).syncDue
    ensures var g, event := Receive(s, f), s.events[f.pos];
            var head := if event.user == f.user then [event] else [];
            && Unread(s.events[f.pos..], f.user) == head + Unread(s.events[g.pos..], f.user)
            && Stream(s, g) == Stream(s, f)
  {
    var g, event := Receive(s, f), s.events[f.pos];
    assert s.events[f.pos..][0] == event && s.events[f.pos..][1..] == s.events[g.pos..];
    if event.user == f.user {
      FlatMapMore(Upserts, f.wire, Update(event));
    }
  }

  lemma IdsOf(head: seq<Info>)
    requires |head| <= 1
    ensures Ids(head) == if head == [] then {} else {head[0].id}
  {
  }

  lemma ReceiveAgrees(s: Server, f: Follower, g: Follower, late: set<Id>, head: seq<Info>, id: Id)
    requires f.pos <= |s.events| && g.pos <= |s.events| && Agree(s, f, late, id) && |head| <= 1
    requires Unread(s.events[f.pos..], f.user) == head + Unread(s.events[g.pos..], g.user)
    requires Stream(s, g) == Stream(s, f) && g.byId == f.byId
    ensures Agree(s, g, late - Ids(head), id)
  {
    assert id in late - Ids(head) <==> id in late && (head == [] || head[0].id != id) by { IdsOf(head); }
    HoldsRead(Stream(s, f), head, Unread(s.events[g.pos..], g.user), f.byId, id, id in late, CoreOf(s.infos[id]));
  }

  lemma ReceiveGood(y: System, late: set<Id>)
    requires Good(y, late)
    ensures Good(y.(follower := Receive(y.server, y.follower)), LateAfter(y, StreamReceives, late))
  {
    var s, f, g := y.server, y.follower, Receive(y.server, y.follower);
    if !f.syncDue && !g.syncDue && g != f {
      var event, now := s.events[f.pos], LateAfter(y, StreamReceives, late);
      var head := if event.user == f.user then [event] else [];
      ReceiveMoves(s, f);
      assert now == late - Ids(head);
      forall id | id in NewestIds(s.infos, s.kept, f.user, SHOWN) ensures Agree(s, g, now, id) {
        ReceiveAgrees(s, f, g, late, head, id);
      }
    }
  }

  lemma ListedAgrees(s: Server, f: Follower, late: set<Id>, id: Id)
    requires ServerOk(s) && f.pos <= |s.events| && f.syncDue && id in NewestIds(s.infos, s.kept, f.user, SHOWN)
    ensures id in Ids(List(s, f.user, SHOWN)) && Agree(s, Resync(s, f), late - Ids(List(s, f.user, SHOWN)), id)
  {
    NewestAreKept(s.infos, s.kept, f.user, SHOWN);
    var g, tasks, rest := Resync(s, f), List(s, f.user, SHOWN), s.events[f.pos..];
    FlatMapMore(Upserts, f.wire, Sync(tasks));
    assert Stream(s, g) == Flat(f.wire) + tasks + Unread(rest, f.user);
    ListSays(s, f.user, id);
    LastJoin(Flat(f.wire), tasks, id);
    LastJoin(Flat(f.wire) + tasks, Unread(rest, f.user), id);
    UnreadSays(s, f, id);
  }

  /** A SYNC lists every recent task, and says of each what the last event about it will say, or has said. */
  lemma ResyncAgrees(s: Server, f: Follower, late: set<Id>, id: Id)
    requires ServerOk(s) && LastKept(s) && f.pos <= |s.events| && f.syncDue && Recent(s, f.user, SHOWN, id)
    ensures id in Ids(List(s, f.user, SHOWN)) && Agree(s, Resync(s, f), late - Ids(List(s, f.user, SHOWN)), id)
  {
    NewestAre(s.infos, s.kept, f.user, SHOWN, id);
    ListedAgrees(s, f, late, id);
  }

  /** What is unread of a task ends with the task as it is, if it says anything. */
  lemma UnreadSays(s: Server, f: Follower, id: Id)
    requires ServerOk(s) && f.pos <= |s.events| && id in s.infos && s.infos[id].user == f.user
    ensures var last := Last(Unread(s.events[f.pos..], f.user), id); last == None || last == Some(CoreOf(s.infos[id]))
  {
    var rest := s.events[f.pos..];
    LastUnread(rest, f.user, id);
    assert s.events == s.events[..f.pos] + rest && Published(s, id);
    LastJoin(s.events[..f.pos], rest, id);
  }

  lemma ListSays(s: Server, user: string, id: Id)
    requires Known(s) && id in NewestIds(s.infos, s.kept, user, SHOWN)
    ensures id in s.infos && Last(List(s, user, SHOWN), id) == Some(CoreOf(s.infos[id]))
    ensures id in Ids(List(s, user, SHOWN))
  {
    NewestAreKept(s.infos, s.kept, user, SHOWN);
    var ids, tasks := NewestIds(s.infos, s.kept, user, SHOWN), List(s, user, SHOWN);
    var k :| 0 <= k < |ids| && ids[k] == id;
    forall j | 0 <= j < |tasks| ensures tasks[j] == s.infos[tasks[j].id] && tasks[j].id in s.infos {
      assert ids[j] in ids && ids[j] in s.kept;
    }
    assert tasks[k] in tasks;
    LastOf(tasks, s.infos, k);
  }

  lemma {:induction false} LastOf(tasks: seq<Info>, infos: map<Id, Info>, k: nat)
    requires k < |tasks| && forall j | 0 <= j < |tasks| :: tasks[j].id in infos && tasks[j] == infos[tasks[j].id]
    ensures Last(tasks, tasks[k].id) == Some(CoreOf(tasks[k]))
  {
    if tasks[|tasks| - 1].id != tasks[k].id {
      LastOf(tasks[..|tasks| - 1], infos, k);
    }
  }

  lemma ResyncGood(y: System, late: set<Id>)
    requires Good(y, late)
    ensures Good(y.(follower := Resync(y.server, y.follower)), LateAfter(y, StreamResyncs, late))
  {
    var s, f := y.server, y.follower;
    if f.syncDue {
      var g, now := Resync(s, f), late - Ids(List(s, f.user, SHOWN));
      forall id | id in NewestIds(s.infos, s.kept, f.user, SHOWN) ensures Agree(s, g, now, id) {
        ListedAgrees(s, f, late, id);
      }
      ResyncSays(y, late);
    }
  }

  lemma ResyncSays(y: System, late: set<Id>)
    requires Known(y.server) && y.follower.syncDue
    ensures LateAfter(y, StreamResyncs, late) == late - Ids(List(y.server, y.follower.user, SHOWN))
  {
  }

  /** An answer changes what the replica will hold only if nothing more is to be said of the task. */
  lemma AnswerAgrees(s: Server, f: Follower, late: set<Id>, k: nat, id: Id)
    requires f.pos <= |s.events| && Agree(s, f, late, id) && k < |f.loads| && Final(s, f.loads[k]) && Final(s, s.infos[id])
    ensures Agree(s, Answer(f, k), Said(s, Detail(f.loads[k]), late), id)
  {
    var g, task, unread := Answer(f, k), f.loads[k], Unread(s.events[f.pos..], f.user);
    FlatMapMore(Upserts, f.wire, Detail(task));
    assert Stream(s, g) == Flat(f.wire) + [task] + unread;
    LastJoin(Flat(f.wire), [task], id);
    LastJoin(Flat(f.wire) + [task], unread, id);
    LastJoin(Flat(f.wire), unread, id);
    assert [task][..0] == [] && Ids([task]) == {task.id};
  }

  lemma AnswerGood(y: System, late: set<Id>, k: nat)
    requires Good(y, late) && FinalOk(y)
    ensures Good(y.(follower := Answer(y.follower, k)), LateAfter(y, Answers(k), late))
  {
    var s, f := y.server, y.follower;
    if k < |f.loads| {
      var task := f.loads[k];
      assert task in f.loads && Final(s, task);
      assert LateAfter(y, Answers(k), late) == Said(s, Detail(task), late);
      if !f.syncDue {
        forall id | id in NewestIds(s.infos, s.kept, f.user, SHOWN)
          ensures Agree(s, Answer(f, k), Said(s, Detail(task), late), id)
        {
          assert Agree(s, f, late, id) && Final(s, s.infos[id]);
          AnswerAgrees(s, f, late, k, id);
        }
      }
    }
  }

  lemma {:induction false} UpsertAllIs(f: Follower, tasks: seq<Info>, id: Id)
    ensures var g := UpsertAll(f, tasks);
            && g.wire == f.wire && g.pos == f.pos && g.user == f.user && g.syncDue == f.syncDue && g.loads == f.loads
            && (if id in g.byId then Some(CoreOf(g.byId[id])) else None) == Destined(tasks, f.byId, id)
    decreases |tasks|
  {
    if tasks != [] {
      UpsertAllIs(Upsert(f, tasks[0]), tasks[1..], id);
      LastJoin([tasks[0]], tasks[1..], id);
      assert [tasks[0]] + tasks[1..] == tasks && [tasks[0]][..0] == [];
    }
  }

  lemma {:induction false} UpsertAllWaiters(f: Follower, tasks: seq<Info>)
    requires WaitersOk(f)
    ensures WaitersOk(UpsertAll(f, tasks))
    decreases |tasks|
  {
    if tasks != [] {
      UpsertAllWaiters(Upsert(f, tasks[0]), tasks[1..]);
    }
  }

  lemma DeliverAgrees(s: Server, f: Follower, late: set<Id>, id: Id)
    requires f.pos <= |s.events| && Agree(s, f, late, id) && f.wire != []
    ensures Deliver(f).pos <= |s.events| && Agree(s, Deliver(f), late, id)
  {
    var popped, tasks := f.(wire := f.wire[1..]), Upserts(f.wire[0]);
    UpsertAllIs(popped, tasks, id);
    var unread := Unread(s.events[f.pos..], f.user);
    assert Stream(s, f) == tasks + (Flat(popped.wire) + unread);
    LastJoin(tasks, Flat(popped.wire) + unread, id);
  }

  lemma DeliverGood(y: System, late: set<Id>)
    requires Good(y, late)
    ensures Good(y.(follower := Deliver(y.follower)), late) && |Deliver(y.follower).wire| <= |y.follower.wire|
  {
    var s, f := y.server, y.follower;
    if f.wire != [] {
      var popped, tasks := f.(wire := f.wire[1..]), Upserts(f.wire[0]);
      UpsertAllIs(popped, tasks, 0);
      UpsertAllWaiters(popped, tasks);
      if !f.syncDue {
        forall id | id in NewestIds(s.infos, s.kept, f.user, SHOWN) ensures Agree(s, Deliver(f), late, id) {
          DeliverAgrees(s, f, late, id);
        }
      }
    }
  }

  /** What neither the stream nor the replica takes part in. */
  lemma AsideGood(y: System, late: set<Id>, g: Follower)
    requires Good(y, late) && WaitersOk(g)
    requires var f := y.follower; g == f.(loads := g.loads, waiters := g.waiters, resolved := g.resolved)
    ensures Good(y.(follower := g), late)
  {
    var s, f := y.server, y.follower;
    if !f.syncDue {
      forall i | i in NewestIds(s.infos, s.kept, f.user, SHOWN) ensures Agree(s, g, late, i) { assert Agree(s, f, late, i); }
    }
  }

  lemma ManagerGood(y: System, late: set<Id>, step: Step)
    requires Good(y, late) && LateFinished(y.server, late)
    requires step.Spawns? || step.Logs? || step.Progresses? || step.ClearsProgress? || step.Finishes? || step.Stops?
    ensures Good(Do(y, step), late)
  {
    var s := y.server;
    match step
    case Spawns(user) => SpawnGood(y, late, user);
    case Logs(id) => if id in s.infos { LogIsBroadcast(s, id); BroadcastGood(y, late, s.infos[id]); }
    case Progresses(id, done, complete, due) =>
      if id in s.infos {
        if complete || due { BroadcastGood(y, late, s.infos[id].(progress := Some(done))); }
        else { QuietGood(y, late, id, Some(done)); }
      }
    case ClearsProgress(id) => if id in s.infos { BroadcastGood(y, late, s.infos[id].(progress := None)); }
    case Finishes(id, status, message, time) => if id in s.infos { FinishGood(y, late, id, status, message, time); }
    case Stops(user, id, time) =>
      if Finds(s, user, id) {
        LogIsBroadcast(s, id);
        BroadcastGood(y, late, s.infos[id]);
        FinishGood(y.(server := Log(s, id)), late, id, Stopped, Some("stopped"), time);
      }
  }

  lemma DoGood(y: System, late: set<Id>, step: Step)
    requires Good(y, late) && FinalOk(y) && LateFinished(y.server, late)
    ensures Good(Do(y, step), LateAfter(y, step, late))
  {
    match step
    case StreamReceives => ReceiveGood(y, late);
    case StreamResyncs => ResyncGood(y, late);
    case Reconnects =>
    case Loads(id) => AsideGood(y, late, Load(y.server, y.follower, id));
    case Answers(k) => AnswerGood(y, late, k);
    case FrameArrives => DeliverGood(y, late);
    case Waits(id) => AsideGood(y, late, Wait(y.follower, id));
    case _ => ManagerGood(y, late, step);
  }

  lemma LogIsBroadcast(s: Server, id: Id)
    requires Known(s) && id in s.infos
    ensures Log(s, id) == Broadcast(s, s.infos[id])
  {
    assert s.infos[id := s.infos[id]] == s.infos;
  }

  lemma FinishGood(y: System, late: set<Id>, id: Id, status: Status, message: Option<string>, time: int)
    requires Good(y, late) && id in y.server.infos && LateFinished(y.server, late)
    ensures Good(y.(server := Finish(y.server, id, status, message, time)), late)
  {
    if y.server.infos[id].status == Running {
      BroadcastGood(y, late, y.server.infos[id].(status := status, message := message, endedAt := Some(time)));
    }
  }

  // ---- Finishing is final ----

  /** What is said of a finished task is what will always be said of it; of a running one there is one thing to say. */
  predicate Final(s: Server, task: Info)
  {
    task.id in s.infos && CoreOf(task) == if task.status == Running then RUNNING else CoreOf(s.infos[task.id])
  }

  predicate AllFinal(s: Server, tasks: seq<Info>)
  {
    forall task | task in tasks :: Final(s, task)
  }

  predicate FinalOk(y: System)
  {
    && (forall id | id in y.server.infos :: y.server.infos[id].status == Running ==> CoreOf(y.server.infos[id]) == RUNNING)
    && AllFinal(y.server, y.server.events)
    && AllFinal(y.server, Flat(y.follower.wire))
    && AllFinal(y.server, y.follower.loads)
    && AllFinal(y.server, y.follower.resolved)
    && (forall id | id in y.follower.byId :: Final(y.server, y.follower.byId[id]))
  }

  predicate LateFinished(s: Server, late: set<Id>)
  {
    forall id | id in late :: id in s.infos && s.infos[id].status != Running
  }

  lemma LateStaysFinished(y: System, step: Step, late: set<Id>)
    requires Known(y.server) && LateFinished(y.server, late)
    ensures LateFinished(Do(y, step).server, LateAfter(y, step, late))
  {
    StepKeepsFinished(y, step, Do(y, step));
  }

  /** No finished task changes. */
  predicate KeepsFinished(s: Server, n: Server)
  {
    forall id | id in s.infos :: id in n.infos && (s.infos[id].status != Running ==> CoreOf(n.infos[id]) == CoreOf(s.infos[id]))
  }

  lemma ServerFinal(y: System, n: Server, info: Info)
    requires FinalOk(y) && KeepsFinished(y.server, n)
    requires n.events == y.server.events || n.events == y.server.events + [info]
    requires n.infos == y.server.infos[info.id := info] && (info.status == Running ==> CoreOf(info) == RUNNING)
    ensures FinalOk(y.(server := n))
  {
    forall task: Info | Final(y.server, task) ensures Final(n, task) { }
  }

  lemma BroadcastFinal(y: System, info: Info)
    requires FinalOk(y) && Known(y.server) && info.id in y.server.infos
    requires y.server.infos[info.id].status == Running || CoreOf(info) == CoreOf(y.server.infos[info.id])
    requires info.status == Running ==> CoreOf(info) == RUNNING
    ensures FinalOk(y.(server := Broadcast(y.server, info)))
  {
    ServerFinal(y, Broadcast(y.server, info), info);
  }

  lemma SpawnFinal(y: System, user: string)
    requires FinalOk(y) && Known(y.server)
    ensures FinalOk(y.(server := Spawn(y.server, user)))
  {
    ServerFinal(y, Spawn(y.server, user), Info(|y.server.infos|, user, Running, None, None, None));
  }

  lemma QuietFinal(y: System, id: Id, progress: Option<nat>)
    requires FinalOk(y) && id in y.server.infos && Known(y.server)
    ensures FinalOk(y.(server := y.server.(infos := y.server.infos[id := y.server.infos[id].(progress := progress)])))
  {
    var info := y.server.infos[id].(progress := progress);
    ServerFinal(y, y.server.(infos := y.server.infos[id := info]), info);
  }

  lemma FinishFinal(y: System, id: Id, status: Status, message: Option<string>, time: int)
    requires FinalOk(y) && Known(y.server) && id in y.server.infos && status != Running
    ensures FinalOk(y.(server := Finish(y.server, id, status, message, time)))
  {
    if y.server.infos[id].status == Running {
      BroadcastFinal(y, y.server.infos[id].(status := status, message := message, endedAt := Some(time)));
    }
  }

  lemma ReceiveFinal(y: System)
    requires FinalOk(y)
    ensures FinalOk(y.(follower := Receive(y.server, y.follower)))
  {
    var s, f := y.server, y.follower;
    if f.pos < |s.events| {
      FlatMapMore(Upserts, f.wire, Update(s.events[f.pos]));
    }
  }

  lemma ResyncFinal(y: System)
    requires FinalOk(y) && Known(y.server)
    ensures FinalOk(y.(follower := Resync(y.server, y.follower)))
  {
    var s, f := y.server, y.follower;
    var ids, tasks := NewestIds(s.infos, s.kept, f.user, SHOWN), List(s, f.user, SHOWN);
    NewestAreKept(s.infos, s.kept, f.user, SHOWN);
    FlatMapMore(Upserts, f.wire, Sync(tasks));
    forall task | task in tasks ensures Final(s, task) {
      var k :| 0 <= k < |tasks| && tasks[k] == task;
      assert ids[k] in ids;
    }
  }

  lemma LoadFinal(y: System, id: Id)
    requires FinalOk(y) && Known(y.server)
    ensures FinalOk(y.(follower := Load(y.server, y.follower, id)))
  {
  }

  lemma AnswerFinal(y: System, k: nat)
    requires FinalOk(y)
    ensures FinalOk(y.(follower := Answer(y.follower, k)))
  {
    var f := y.follower;
    if k < |f.loads| {
      FlatMapMore(Upserts, f.wire, Detail(f.loads[k]));
      assert f.loads[k] in f.loads;
    }
  }

  lemma {:induction false} UpsertAllFinal(s: Server, f: Follower, tasks: seq<Info>)
    requires AllFinal(s, tasks) && AllFinal(s, f.resolved) && forall id | id in f.byId :: Final(s, f.byId[id])
    ensures AllFinal(s, UpsertAll(f, tasks).resolved)
    ensures forall id | id in UpsertAll(f, tasks).byId :: Final(s, UpsertAll(f, tasks).byId[id])
    decreases |tasks|
  {
    if tasks != [] {
      assert tasks[0] in tasks;
      UpsertAllFinal(s, Upsert(f, tasks[0]), tasks[1..]);
    }
  }

  lemma DeliverFinal(y: System)
    requires FinalOk(y)
    ensures FinalOk(y.(follower := Deliver(y.follower)))
  {
    var f := y.follower;
    if f.wire != [] {
      var tasks, rest := Upserts(f.wire[0]), Flat(f.wire[1..]);
      assert Flat(f.wire) == tasks + rest;
      assert forall task | task in tasks :: task in tasks + rest;
      assert forall task | task in rest :: task in tasks + rest;
      UpsertAllIs(f.(wire := f.wire[1..]), tasks, 0);
      UpsertAllFinal(y.server, f.(wire := f.wire[1..]), tasks);
    }
  }

  lemma ManagerFinal(y: System, step: Step)
    requires FinalOk(y) && Known(y.server)
    requires step.Spawns? || step.Logs? || step.Progresses? || step.ClearsProgress? || step.Finishes? || step.Stops?
    ensures FinalOk(Do(y, step))
  {
    var s := y.server;
    match step
    case Spawns(user) => SpawnFinal(y, user);
    case Logs(id) => if id in s.infos { LogIsBroadcast(s, id); BroadcastFinal(y, s.infos[id]); }
    case Progresses(id, done, complete, due) =>
      if id in s.infos {
        if complete || due { BroadcastFinal(y, s.infos[id].(progress := Some(done))); }
        else { QuietFinal(y, id, Some(done)); }
      }
    case ClearsProgress(id) => if id in s.infos { BroadcastFinal(y, s.infos[id].(progress := None)); }
    case Finishes(id, status, message, time) =>
      if id in s.infos && status != Running { FinishFinal(y, id, status, message, time); }
    case Stops(user, id, time) =>
      if Finds(s, user, id) {
        LogIsBroadcast(s, id);
        BroadcastFinal(y, s.infos[id]);
        FinishFinal(y.(server := Log(s, id)), id, Stopped, Some("stopped"), time);
      }
  }

  lemma DoFinal(y: System, step: Step)
    requires FinalOk(y) && Known(y.server)
    ensures FinalOk(Do(y, step))
  {
    match step
    case StreamReceives => ReceiveFinal(y);
    case StreamResyncs => ResyncFinal(y);
    case Reconnects =>
    case Loads(id) => LoadFinal(y, id);
    case Answers(k) => AnswerFinal(y, k);
    case FrameArrives => DeliverFinal(y);
    case Waits(id) =>
    case _ => ManagerFinal(y, step);
  }

  // ---- Every run ----

  function Start(user: string): System
  {
    System(Server(map[], [], []), Follower(user, 0, true, [], [], map[], {}, []))
  }

  function Play(user: string, steps: seq<Step>): (y: System)
    ensures Known(y.server)
  {
    if steps == [] then Start(user) else
    var before := Play(user, steps[..|steps| - 1]);
    DoKnown(before, steps[|steps| - 1]);
    Do(before, steps[|steps| - 1])
  }

  /** The tasks of which an overtaken answer is the last thing the server said. */
  function Late(user: string, steps: seq<Step>): set<Id>
  {
    if steps == [] then {} else
    var init := steps[..|steps| - 1];
    LateAfter(Play(user, init), steps[|steps| - 1], Late(user, init))
  }

  lemma ChangeKnown(s: Server, info: Info)
    requires Known(s) && info.id in s.infos
    ensures Known(s.(infos := s.infos[info.id := info]))
  {
    assert s.infos[info.id := info].Keys == s.infos.Keys;
  }

  lemma DoKnown(y: System, step: Step)
    requires Known(y.server)
    ensures Known(Do(y, step).server)
  {
    var s := y.server;
    match step
    case Spawns(user) => assert Spawn(s, user).infos.Keys == s.infos.Keys + {|s.infos|};
    case Progresses(id, done, _, _) => if id in s.infos { ChangeKnown(s, s.infos[id].(progress := Some(done))); }
    case ClearsProgress(id) => if id in s.infos { ChangeKnown(s, s.infos[id].(progress := None)); }
    case Finishes(id, status, message, time) =>
      if id in s.infos { ChangeKnown(s, s.infos[id].(status := status, message := message, endedAt := Some(time))); }
    case Stops(user, id, time) =>
      if id in s.infos { ChangeKnown(s, s.infos[id].(status := Stopped, message := Some("stopped"), endedAt := Some(time))); }
    case _ =>
  }

  lemma {:induction false} PlayOk(user: string, steps: seq<Step>)
    ensures Good(Play(user, steps), Late(user, steps)) && FinalOk(Play(user, steps))
    ensures LateFinished(Play(user, steps).server, Late(user, steps))
  {
    if steps != [] {
      var init, step := steps[..|steps| - 1], steps[|steps| - 1];
      PlayOk(user, init);
      DoGood(Play(user, init), Late(user, init), step);
      DoFinal(Play(user, init), step);
      LateStaysFinished(Play(user, init), step, Late(user, init));
    }
  }

  lemma DoKept(y: System, step: Step, n: System)
    requires Known(y.server) && LastKept(y.server) && n == Do(y, step)
    ensures LastKept(n.server)
  {
    var s := y.server;
    match step
    case Spawns(user) => SpawnKept(s, user);
    case Progresses(id, done, _, _) => if id in s.infos { SameKept(s, s.infos[id].(progress := Some(done))); }
    case ClearsProgress(id) => if id in s.infos { SameKept(s, s.infos[id].(progress := None)); }
    case Finishes(id, status, message, time) =>
      if id in s.infos { SameKept(s, s.infos[id].(status := status, message := message, endedAt := Some(time))); }
    case Stops(user, id, time) =>
      if id in s.infos { SameKept(s, s.infos[id].(status := Stopped, message := Some("stopped"), endedAt := Some(time))); }
    case _ =>
  }

  lemma SameKept(s: Server, info: Info)
    requires Known(s) && LastKept(s) && info.id in s.infos
    ensures LastKept(s.(infos := s.infos[info.id := info]))
  {
    assert s.infos[info.id := info].Keys == s.infos.Keys;
  }

  lemma {:induction false} PlayKept(user: string, steps: seq<Step>)
    ensures LastKept(Play(user, steps).server) && Play(user, steps).follower.user == user
  {
    if steps != [] {
      PlayKept(user, steps[..|steps| - 1]);
      PlayStep(user, steps);
      DoKept(Play(user, steps[..|steps| - 1]), steps[|steps| - 1], Play(user, steps));
      DoUser(Play(user, steps[..|steps| - 1]), steps[|steps| - 1], Play(user, steps));
    }
  }

  lemma DoUser(y: System, step: Step, n: System)
    requires Known(y.server) && n == Do(y, step)
    ensures n.follower.user == y.follower.user
  {
    if step.FrameArrives? && y.follower.wire != [] {
      UpsertAllIs(y.follower.(wire := y.follower.wire[1..]), Upserts(y.follower.wire[0]), 0);
    }
  }

  predicate Drained(y: System)
  {
    !y.follower.syncDue && y.follower.wire == [] && y.follower.pos == |y.server.events|
  }

  /** However many events were overwritten before the subscriber read them, however often it reconnected: once
      its stream is drained, the browser agrees with the server on each kept task of the user's that fewer than 200 kept
      ones are newer than, exactly if the last thing it was sent about the task is not an answer that was overtaken by its
      finishing; and only for such a task may somebody still wait after it has finished. */
  lemma DrainedAgrees(user: string, steps: seq<Step>, id: Id)
    requires Drained(Play(user, steps)) && Recent(Play(user, steps).server, user, SHOWN, id)
    ensures var (s, f) := (Play(user, steps).server, Play(user, steps).follower);
            && id in s.infos && id in f.byId
            && (CoreOf(f.byId[id]) == CoreOf(s.infos[id]) <==> id !in Late(user, steps))
            && (s.infos[id].status != Running && id in f.waiters ==> id in Late(user, steps))
  {
    var y := Play(user, steps);
    PlayOk(user, steps);
    PlayKept(user, steps);
    NewestAre(y.server.infos, y.server.kept, user, SHOWN, id);
    assert Agree(y.server, y.follower, Late(user, steps), id);
    assert y.server.events[y.follower.pos..] == [];
  }

  /** Where no log is loaded, no answer is ever late: drained, the browser agrees on all of them. */
  lemma {:induction false} NothingLoadedNothingLate(user: string, steps: seq<Step>)
    requires forall step | step in steps :: !step.Loads?
    ensures Play(user, steps).follower.loads == [] && Late(user, steps) == {}
  {
    if steps != [] {
      var init := steps[..|steps| - 1];
      NothingLoadedNothingLate(user, init);
      NothingLate(Play(user, init), steps[|steps| - 1]);
    }
  }

  lemma NothingLate(y: System, step: Step)
    requires Known(y.server) && y.follower.loads == [] && !step.Loads?
    ensures Do(y, step).follower.loads == [] && LateAfter(y, step, {}) == {}
  {
    if step.FrameArrives? && y.follower.wire != [] {
      UpsertAllIs(y.follower.(wire := y.follower.wire[1..]), Upserts(y.follower.wire[0]), 0);
    }
  }

  /** From any state, the stream being refreshed first: a task that finishes while `tasks.detail` is being answered. */
  function Race(id: Id, status: Status, time: int): seq<Step>
  {
    [Reconnects, StreamResyncs, FrameArrives,
     Loads(id), Finishes(id, status, None, time), StreamReceives, Answers(0), FrameArrives, FrameArrives]
  }

  lemma PlayNext(user: string, steps: seq<Step>, step: Step)
    ensures Play(user, steps + [step]) == Do(Play(user, steps), step)
  {
    assert (steps + [step])[..|steps + [step]| - 1] == steps;
  }

  lemma Refreshes(y: System, a: System, b: System, c: System)
    requires Known(y.server) && a == Do(y, Reconnects) && Known(a.server) && b == Do(a, StreamResyncs)
    requires Known(b.server) && c == Do(b, FrameArrives)
    ensures c.server == y.server && Drained(c) && c.follower.loads == [] && c.follower.user == y.follower.user
  {
    UpsertAllIs(b.follower.(wire := b.follower.wire[1..]), Upserts(b.follower.wire[0]), 0);
  }

  lemma ReadsLast(y: System, event: Info, n: System)
    requires Known(y.server) && !y.follower.syncDue && event.user == y.follower.user && n == Do(y, StreamReceives)
    requires y.follower.pos + 1 == |y.server.events| && y.server.events[y.follower.pos] == event
    ensures n == y.(follower := y.follower.(pos := |y.server.events|, wire := y.follower.wire + [Update(event)]))
  {
  }

  lemma Overtakes(y: System, id: Id, status: Status, time: int, a: System, b: System, c: System, d: System)
    requires Known(y.server) && Drained(y) && y.follower.loads == [] && Finds(y.server, y.follower.user, id)
    requires y.server.infos[id].status == Running && status != Running
    requires a == Do(y, Loads(id)) && Known(a.server) && b == Do(a, Finishes(id, status, None, time))
    requires Known(b.server) && c == Do(b, StreamReceives) && Known(c.server) && d == Do(c, Answers(0))
    ensures var done := y.server.infos[id].(status := status, message := None, endedAt := Some(time));
            && d.server == Broadcast(y.server, done)
            && d.follower == y.follower.(pos := |d.server.events|, wire := [Update(done), Detail(y.server.infos[id])])
  {
    var info := y.server.infos[id];
    assert a == y.(follower := y.follower.(loads := [info]));
    var done := info.(status := status, message := None, endedAt := Some(time));
    assert b == a.(server := Broadcast(y.server, done));
    ReadsLast(b, done, c);
  }

  lemma Arrive(y: System, task: Info, n: System)
    requires Known(y.server) && y.follower.wire != [] && Upserts(y.follower.wire[0]) == [task] && n == Do(y, FrameArrives)
    ensures n == y.(follower := Upsert(y.follower.(wire := y.follower.wire[1..]), task))
  {
    var f := y.follower.(wire := y.follower.wire[1..]);
    assert [task][1..] == [] && UpsertAll(f, [task]) == UpsertAll(Upsert(f, task), []);
  }

  lemma RunRefreshes(user: string, steps: seq<Step>) returns (more: seq<Step>)
    ensures more == steps + [Reconnects] + [StreamResyncs] + [FrameArrives]
    ensures var (y, n) := (Play(user, steps), Play(user, more));
            n.server == y.server && Drained(n) && n.follower.loads == [] && n.follower.user == y.follower.user
  {
    var a, b := steps + [Reconnects], steps + [Reconnects] + [StreamResyncs];
    more := b + [FrameArrives];
    PlayNext(user, steps, Reconnects);
    PlayNext(user, a, StreamResyncs);
    PlayNext(user, b, FrameArrives);
    Refreshes(Play(user, steps), Play(user, a), Play(user, b), Play(user, more));
  }

  lemma RunOvertakes(user: string, steps: seq<Step>, id: Id, status: Status, time: int) returns (more: seq<Step>)
    requires var y := Play(user, steps);
             && Drained(y) && y.follower.loads == [] && Finds(y.server, y.follower.user, id)
             && y.server.infos[id].status == Running && status != Running
    ensures more == steps + [Loads(id)] + [Finishes(id, status, None, time)] + [StreamReceives] + [Answers(0)]
    ensures var (y, n) := (Play(user, steps), Play(user, more));
            var done := y.server.infos[id].(status := status, message := None, endedAt := Some(time));
            && n.server == Broadcast(y.server, done)
            && n.follower == y.follower.(pos := |n.server.events|, wire := [Update(done), Detail(y.server.infos[id])])
  {
    var a := steps + [Loads(id)];
    var b := a + [Finishes(id, status, None, time)];
    var c := b + [StreamReceives];
    more := c + [Answers(0)];
    PlayNext(user, steps, Loads(id));
    PlayNext(user, a, Finishes(id, status, None, time));
    PlayNext(user, b, StreamReceives);
    PlayNext(user, c, Answers(0));
    Overtakes(Play(user, steps), id, status, time, Play(user, a), Play(user, b), Play(user, c), Play(user, more));
  }

  lemma Delivered(user: string, steps: seq<Step>, task: Info)
    requires var f := Play(user, steps).follower; f.wire != [] && Upserts(f.wire[0]) == [task]
    ensures var (y, n) := (Play(user, steps), Play(user, steps + [FrameArrives]));
            n.server == y.server
            && n.follower == Upsert(y.follower.(wire := y.follower.wire[1..]), task)
  {
    PlayNext(user, steps, FrameArrives);
    Arrive(Play(user, steps), task, Play(user, steps + [FrameArrives]));
  }

  lemma UpsertsTwice(f: Follower, first: Info, second: Info, g: Follower, h: Follower)
    requires f.wire == [Update(first), Detail(second)] && first.id == second.id
    requires g == Upsert(f.(wire := f.wire[1..]), first) && g.wire != [] && h == Upsert(g.(wire := g.wire[1..]), second)
    ensures h.wire == [] && h.pos == f.pos && h.syncDue == f.syncDue && h.byId == f.byId[second.id := second]
  {
  }

  lemma RaceIs(steps: seq<Step>, id: Id, status: Status, time: int)
    ensures steps + [Reconnects] + [StreamResyncs] + [FrameArrives]
            + [Loads(id)] + [Finishes(id, status, None, time)] + [StreamReceives] + [Answers(0)]
            + [FrameArrives] + [FrameArrives] == steps + Race(id, status, time)
  {
  }

  /** Then the stream is drained, and the browser has the finished task as running. */
  lemma LoadedTooLate(user: string, steps: seq<Step>, id: Id, status: Status, time: int)
    requires var y := Play(user, steps);
             Finds(y.server, y.follower.user, id) && y.server.infos[id].status == Running && status != Running
    ensures var n := Play(user, steps + Race(id, status, time));
            && Drained(n) && id in n.server.infos && n.server.infos[id].status == status
            && id in n.follower.byId && n.follower.byId[id].status == Running
  {
    var info := Play(user, steps).server.infos[id];
    var done := info.(status := status, message := None, endedAt := Some(time));
    var a := RunRefreshes(user, steps);
    var b := RunOvertakes(user, a, id, status, time);
    Delivered(user, b, done);
    Delivered(user, b + [FrameArrives], info);
    UpsertsTwice(Play(user, b).follower, done, info, Play(user, b + [FrameArrives]).follower,
                 Play(user, b + [FrameArrives] + [FrameArrives]).follower);
    RaceIs(steps, id, status, time);
  }

  /** Whoever waits for a task is given it as it finished, and as it will stay. */
  lemma WaitersGetTheOutcome(user: string, steps: seq<Step>, task: Info)
    requires task in Play(user, steps).follower.resolved
    ensures var s := Play(user, steps).server;
            task.status != Running && task.id in s.infos && CoreOf(s.infos[task.id]) == CoreOf(task)
  {
    var y := Play(user, steps);
    PlayOk(user, steps);
    assert Final(y.server, task);
  }

  /** Whoever asked for a task's outcome is still waiting, or has been given one. */
  predicate Answered(f: Follower, id: Id)
  {
    id in f.waiters || exists k | 0 <= k < |f.resolved| :: f.resolved[k].id == id
  }

  lemma UpsertAnswers(f: Follower, task: Info, id: Id)
    requires Answered(f, id)
    ensures Answered(Upsert(f, task), id)
  {
    var g := Upsert(f, task);
    if id in f.waiters && id !in g.waiters {
      assert g.resolved[|f.resolved|] == task;
    } else if id !in f.waiters {
      var k :| 0 <= k < |f.resolved| && f.resolved[k].id == id;
      assert g.resolved[k] == f.resolved[k];
    }
  }

  lemma {:induction false} UpsertAllAnswers(f: Follower, tasks: seq<Info>, id: Id)
    requires Answered(f, id)
    ensures Answered(UpsertAll(f, tasks), id)
    decreases |tasks|
  {
    if tasks != [] {
      UpsertAnswers(f, tasks[0], id);
      UpsertAllAnswers(Upsert(f, tasks[0]), tasks[1..], id);
    }
  }

  lemma StepAnswers(y: System, step: Step, n: System, id: Id)
    requires Known(y.server) && n == Do(y, step)
    requires (forall i | i in y.follower.byId :: y.follower.byId[i].id == i)
    requires Answered(y.follower, id) || step == Waits(id)
    ensures Answered(n.follower, id)
  {
    var f, g := y.follower, n.follower;
    if step.FrameArrives? && f.wire != [] {
      UpsertAllAnswers(f.(wire := f.wire[1..]), Upserts(f.wire[0]), id);
    } else if step == Waits(id) && id in f.byId && f.byId[id].status != Running {
      assert g.resolved[|f.resolved|] == f.byId[id];
    } else if Answered(f, id) && id !in f.waiters {
      var k :| 0 <= k < |f.resolved| && f.resolved[k].id == id;
      assert g.resolved[k] == f.resolved[k];
    }
  }

  lemma {:induction false} KeyedByItself(user: string, steps: seq<Step>, id: Id)
    requires id in Play(user, steps).follower.byId
    ensures Play(user, steps).follower.byId[id].id == id
  {
    if steps != [] {
      var before := Play(user, steps[..|steps| - 1]);
      forall i | i in before.follower.byId ensures before.follower.byId[i].id == i {
        KeyedByItself(user, steps[..|steps| - 1], i);
      }
      PlayStep(user, steps);
      if steps[|steps| - 1].FrameArrives? && before.follower.wire != [] {
        var f := before.follower;
        UpsertAllKeys(f.(wire := f.wire[1..]), Upserts(f.wire[0]));
      }
    }
  }

  lemma {:induction false} UpsertAllKeys(f: Follower, tasks: seq<Info>)
    requires forall i | i in f.byId :: f.byId[i].id == i
    ensures forall i | i in UpsertAll(f, tasks).byId :: UpsertAll(f, tasks).byId[i].id == i
    decreases |tasks|
  {
    if tasks != [] {
      UpsertAllKeys(Upsert(f, tasks[0]), tasks[1..]);
    }
  }

  lemma {:induction false} NobodyIsForgotten(user: string, steps: seq<Step>, id: Id)
    requires Waits(id) in steps
    ensures Answered(Play(user, steps).follower, id)
  {
    var init, last := steps[..|steps| - 1], steps[|steps| - 1];
    assert steps == init + [last];
    PlayStep(user, steps);
    forall i | i in Play(user, init).follower.byId ensures Play(user, init).follower.byId[i].id == i {
      KeyedByItself(user, init, i);
    }
    if last != Waits(id) {
      NobodyIsForgotten(user, init, id);
    }
    StepAnswers(Play(user, init), last, Play(user, steps), id);
  }

  /** So who waits for a recent task has its outcome once the stream is drained, unless an overtaken answer was the
      last word. */
  lemma WaitersAreAnswered(user: string, steps: seq<Step>, id: Id)
    requires Drained(Play(user, steps)) && Recent(Play(user, steps).server, user, SHOWN, id)
    requires Waits(id) in steps && id !in Late(user, steps) && Play(user, steps).server.infos[id].status != Running
    ensures var (s, f) := (Play(user, steps).server, Play(user, steps).follower);
            exists task | task in f.resolved :: task.id == id && CoreOf(task) == CoreOf(s.infos[id])
  {
    var f := Play(user, steps).follower;
    NobodyIsForgotten(user, steps, id);
    DrainedAgrees(user, steps, id);
    var k :| 0 <= k < |f.resolved| && f.resolved[k].id == id;
    WaitersGetTheOutcome(user, steps, f.resolved[k]);
  }

  /** Once finished, always so: however the run goes on. */
  lemma {:induction false} FinishedStays(user: string, steps: seq<Step>, more: seq<Step>, id: Id)
    requires id in Play(user, steps).server.infos && Play(user, steps).server.infos[id].status != Running
    ensures var n := Play(user, steps + more).server;
            id in n.infos && CoreOf(n.infos[id]) == CoreOf(Play(user, steps).server.infos[id])
    decreases |more|
  {
    if more == [] {
      assert steps + more == steps;
    } else {
      FinishedStays(user, steps, more[..|more| - 1], id);
      PlayMore(user, steps, more);
    }
  }

  /** The first way a task finishes is the one its user's browser ends up with. */
  lemma FirstOutcomeShown(user: string, steps: seq<Step>, id: Id, status: Status, message: Option<string>, time: int,
                          more: seq<Step>)
    requires id in Play(user, steps).server.infos && Play(user, steps).server.infos[id].status == Running && status != Running
    requires var all := steps + [Finishes(id, status, message, time)] + more;
             Drained(Play(user, all)) && Recent(Play(user, all).server, user, SHOWN, id) && id !in Late(user, all)
    ensures var f := Play(user, steps + [Finishes(id, status, message, time)] + more).follower;
            id in f.byId && CoreOf(f.byId[id]) == Core(status, message, Some(time))
  {
    var done := steps + [Finishes(id, status, message, time)];
    PlayNext(user, steps, Finishes(id, status, message, time));
    FinishedStays(user, done, more, id);
    DrainedAgrees(user, done + more, id);
  }

  lemma PlayMore(user: string, steps: seq<Step>, more: seq<Step>)
    requires more != []
    ensures KeepsFinished(Play(user, steps + more[..|more| - 1]).server, Play(user, steps + more).server)
  {
    var all, before := steps + more, steps + more[..|more| - 1];
    assert all[..|all| - 1] == before && all[|all| - 1] == more[|more| - 1];
    PlayStep(user, all);
    StepKeepsFinished(Play(user, before), more[|more| - 1], Play(user, all));
  }

  lemma PlayStep(user: string, steps: seq<Step>)
    requires steps != []
    ensures Play(user, steps) == Do(Play(user, steps[..|steps| - 1]), steps[|steps| - 1])
  {
  }

  lemma StepKeepsFinished(y: System, step: Step, n: System)
    requires Known(y.server) && n == Do(y, step)
    ensures KeepsFinished(y.server, n.server)
  {
  }

  // ---- The code ----

  class TaskManager {
    var infos: map<Id, Info>
    var tasks: seq<Id>  // those kept, oldest first
    ghost var events: seq<Info>

    ghost function Model(): Server
      reads this
    {
      Server(infos, tasks, events)
    }

    constructor ()
      ensures Model() == Server(map[], [], [])
    {
      infos, tasks, events := map[], [], [];
    }

    method SpawnTask(user: string) returns (id: Id)
      modifies this
      ensures Model() == Spawn(old(Model()), user)
      ensures id == |old(infos)| && infos[id] == Info(id, user, Running, None, None, None)
      ensures events == old(events) + [infos[id]]
    {
      id := |infos|;
      if |tasks| >= KEEP {
        tasks := tasks[1..];
      }
      tasks := tasks + [id];
      infos := infos[id := Info(id, user, Running, None, None, None)];
      events := events + [infos[id]];
    }

    method LogLine(id: Id)
      requires id in infos
      modifies this
      ensures Model() == Log(old(Model()), id)
    {
      events := events + [infos[id]];
    }

    method ReportProgress(id: Id, done: nat, complete: bool, due: bool)
      requires Known(Model()) && id in infos
      modifies this
      ensures Model() == SetProgress(old(Model()), id, done, complete, due)
      ensures infos == if old(infos[id]).status == Running then old(infos)[id := old(infos[id]).(progress := Some(done))]
                       else old(infos)
      ensures events == if infos[id] != old(infos[id]) && (complete || due) then old(events) + [infos[id]] else old(events)
    {
      if infos[id].status != Running || infos[id].progress == Some(done) {
        return;
      }
      infos := infos[id := infos[id].(progress := Some(done))];
      if !complete && !due {
        return;
      }
      events := events + [infos[id]];
    }

    method ClearBar(id: Id)
      requires Known(Model()) && id in infos
      modifies this
      ensures Model() == ClearProgress(old(Model()), id)
      ensures infos == old(infos)[id := old(infos[id]).(progress := None)]
      ensures events == if infos[id] != old(infos[id]) then old(events) + [infos[id]] else old(events)
    {
      if infos[id].progress.None? {
        return;
      }
      infos := infos[id := infos[id].(progress := None)];
      events := events + [infos[id]];
    }

    method FinishTask(id: Id, status: Status, message: Option<string>, time: int)
      requires Known(Model()) && id in infos
      modifies this
      ensures Model() == Finish(old(Model()), id, status, message, time)
      ensures old(infos[id]).status == Running ==>
                && CoreOf(infos[id]) == Core(status, message, Some(time)) && events == old(events) + [infos[id]]
      ensures old(infos[id]).status != Running ==> infos == old(infos) && events == old(events)
    {
      if infos[id].status != Running {
        return;
      }
      infos := infos[id := infos[id].(status := status, message := message, endedAt := Some(time))];
      events := events + [infos[id]];
    }

    method Detail(user: string, id: Id) returns (snapshot: seq<Info>)
      requires Known(Model())
      ensures snapshot == Snapshot(Model(), user, id)
    {
      snapshot := if id in tasks && infos[id].user == user then [infos[id]] else [];
    }

    method StopTask(user: string, id: Id, time: int) returns (found: bool)
      requires Known(Model())
      modifies this
      ensures Model() == Stop(old(Model()), user, id, time)
      ensures found <==> id in old(tasks) && old(infos[id].user == user)
      ensures found ==> id in infos && infos[id].status != Running
      ensures found && old(id in infos && infos[id].status == Running) ==>
                CoreOf(infos[id]) == Core(Stopped, Some("stopped"), Some(time))
      ensures !found ==> Model() == old(Model())
    {
      found := id in tasks && infos[id].user == user;
      if found {
        LogLine(id);
        FinishTask(id, Stopped, Some("stopped"), time);
      }
    }

    /** `list`: back through the tasks, taking the user's. */
    method ListTasks(user: string, limit: nat) returns (list: seq<Info>)
      requires Known(Model()) && LastKept(Model())
      ensures list == List(Model(), user, limit)
      ensures IsList(infos, tasks, user, limit, list)
    {
      list := Collect(user, limit);
      ListIs(Model(), user, limit);
    }

    method Collect(user: string, limit: nat) returns (list: seq<Info>)
      requires Known(Model())
      ensures list == List(Model(), user, limit)
    {
      ghost var ids := [];
      list := [];
      var left: nat := |tasks|;
      assert tasks[..|tasks|] == tasks;
      while left > 0 && |list| < limit
        invariant left <= |tasks| && |list| == |ids| <= limit
        invariant forall k | 0 <= k < |list| :: ids[k] in infos && list[k] == infos[ids[k]]
        invariant ids + NewestIds(infos, tasks[..left], user, limit - |ids|) == NewestIds(infos, tasks, user, limit)
      {
        left := left - 1;
        assert tasks[..left + 1][..left] == tasks[..left];
        var id := tasks[left];
        if infos[id].user == user {
          ghost var rest := NewestIds(infos, tasks[..left], user, limit - |ids| - 1);
          assert ids + ([id] + rest) == ids + [id] + rest;
          list := list + [infos[id]];
          ids := ids + [id];
        }
      }
      assert ids + [] == ids;
    }
  }

  /** `tasks_topic`: what one user's stream has read, and what it has emitted that the browser has yet to take. */
  class Topic {
    const user: string
    var pos: nat
    var syncDue: bool
    var sent: seq<Frame>

    ghost predicate Is(f: Follower)
      reads this
    {
      f.user == user && f.pos == pos && f.syncDue == syncDue && f.wire == sent
    }

    /** Subscribed to the broadcast from here on; a SYNC comes first. */
    constructor (user: string, ghost s: Server, ghost f: Follower, pos: nat)
      requires f.user == user && pos == |s.events|
      ensures Is(Reconnect(s, f))
    {
      this.user, this.pos, syncDue, sent := user, pos, true, [];
    }

    /** One turn of the loop, with `events` as broadcast so far. */
    method Turn(manager: TaskManager, events: seq<Info>, ghost f: Follower)
      requires Known(manager.Model()) && LastKept(manager.Model()) && manager.events == events && Is(f)
      modifies this
      ensures Is(if f.syncDue then Resync(manager.Model(), f) else Receive(manager.Model(), f))
    {
      if syncDue {
        var list := manager.ListTasks(user, SHOWN);
        sent := sent + [Sync(list)];
        syncDue := false;
        return;
      }
      if pos >= |events| {
        return;
      }
      if |events| - pos > CAPACITY {
        pos := |events| - CAPACITY;
        syncDue := true;
        return;
      }
      var event := events[pos];
      pos := pos + 1;
      if event.user == user {
        sent := sent + [Update(event)];
      }
    }
  }

  /** The browser's store. */
  class TaskStore {
    var byId: map<Id, Info>
    var waiters: set<Id>
    var resolved: seq<Info>

    ghost predicate Is(f: Follower)
      reads this
    {
      f.byId == byId && f.waiters == waiters && f.resolved == resolved
    }

    method UpsertTask(task: Info, ghost f: Follower)
      requires Is(f)
      modifies this
      ensures Is(Upsert(f, task))
    {
      byId := byId[task.id := task];
      if task.status != Running {
        if task.id in waiters {
          resolved := resolved + [task];
        }
        waiters := waiters - {task.id};
      }
    }

    method OnFrame(frame: Frame, ghost f: Follower)
      requires Is(f) && f.wire != [] && f.wire[0] == frame
      modifies this
      ensures Is(Deliver(f))
    {
      var tasks := Upserts(frame);
      ghost var g := f.(wire := f.wire[1..]);
      for i := 0 to |tasks|
        invariant Is(g)
        invariant UpsertAll(g, tasks[i..]) == Deliver(f)
      {
        UpsertTask(tasks[i], g);
        assert tasks[i..][0] == tasks[i] && tasks[i..][1..] == tasks[i + 1..];
        g := Upsert(g, tasks[i]);
      }
    }

    method WaitFor(id: Id, ghost f: Follower)
      requires Is(f)
      modifies this
      ensures Is(Wait(f, id))
    {
      if id in byId && byId[id].status != Running {
        resolved := resolved + [byId[id]];
      } else {
        waiters := waiters + {id};
      }
    }
  }
}
