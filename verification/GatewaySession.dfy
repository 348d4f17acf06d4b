/** The session between the browser's `Gateway` (web/src/api/gateway.ts) and the server's `/ws` (src/gateway/mod.rs). */
module GatewaySession {
  import opened Text

  type Id = nat

  /** Frames to the server; `immediate` frames are the same frames, sent before the queue. */
  datatype Request = Call(id: Id) | Subscribe(id: Id) | Unsubscribe(id: Id)

  /** Frames to the browser; `Answer` is a result, an error or a pong. */
  datatype Response = Hello | Answer(id: Id) | Event(id: Id) | End(id: Id)

  // ---- The browser ----

  datatype Connection = Closed | Connecting | Open

  /** What happens to promises and callbacks, in order. */
  datatype Happening = Settled(id: Id) | OnEvent(id: Id) | OnEnd(id: Id) | UserClosed(id: Id)

  datatype Client = Client(
    state: Connection,
    opening: bool,  // `onOpen` is pending
    ready: bool,
    queue: seq<Request>,
    pending: seq<Id>,
    subs: seq<Id>,  // the open subscriptions, oldest first
    next: Id,
    history: seq<Happening>)

  function Without(ids: seq<Id>, id: Id): seq<Id>
  {
    if ids == [] then [] else if ids[0] == id then Without(ids[1..], id) else [ids[0]] + Without(ids[1..], id)
  }

  function Subscribes(ids: seq<Id>): (requests: seq<Request>)
    ensures |requests| == |ids| && forall k | 0 <= k < |ids| :: requests[k] == Subscribe(ids[k])
  {
    seq(|ids|, k requires 0 <= k < |ids| => Subscribe(ids[k]))
  }

  function Settles(ids: seq<Id>): (what: seq<Happening>)
    ensures |what| == |ids| && forall k | 0 <= k < |ids| :: what[k] == Settled(ids[k])
  {
    seq(|ids|, k requires 0 <= k < |ids| => Settled(ids[k]))
  }

  // ---- The server ----

  type Instance = nat

  /** One connection: its subscription tasks, the abort handle kept for each subscription id, and its calls. */
  datatype Conn = Conn(open: bool, running: map<Instance, Id>, handles: map<Id, Instance>, spawned: Instance, calls: set<Id>)

  const FRESH := Conn(true, map[], map[], 0, {})

  /** Aborting a task that has ended does nothing. */
  function Abort(s: Conn, task: Instance): Conn
  {
    s.(running := s.running - {task})
  }

  /** A subscription task runs, or ends at once: before its handle is stored, which then stays behind. */
  function Spawn(s: Conn, id: Id, endsAtOnce: bool): (Conn, seq<Response>)
  {
    var task := s.spawned;
    var started := s.(spawned := task + 1,
                      running := if endsAtOnce then s.running else s.running[task := id],
                      handles := (if endsAtOnce then s.handles - {id} else s.handles));
    var stored := started.(handles := started.handles[id := task]);
    (if id in started.handles then Abort(stored, started.handles[id]) else stored, if endsAtOnce then [End(id)] else [])
  }

  /** `on_message` */
  function OnMessage(s: Conn, request: Request, endsAtOnce: bool): (Conn, seq<Response>)
  {
    if !s.open then (s, []) else
    match request
    case Call(id) => (s.(calls := s.calls + {id}), [])
    case Subscribe(id) => Spawn(s, id, endsAtOnce)
    case Unsubscribe(id) =>
      (if id in s.handles then Abort(s.(handles := s.handles - {id}), s.handles[id]) else s, [End(id)])
  }

  /** A subscription's handler returns. */
  function TaskEnds(s: Conn, task: Instance): (Conn, seq<Response>)
    requires task in s.running
  {
    var id := s.running[task];
    (s.(running := s.running - {task}, handles := s.handles - {id}), [End(id)])
  }

  /** `cancel_all`: every handle that is kept is aborted. */
  function OnClose(s: Conn): Conn
  {
    s.(open := false, running := s.running - s.handles.Values, handles := map[])
  }

  // ---- The two together ----

  datatype System = System(client: Client, up: seq<Request>, down: seq<Response>, server: Conn)

  const START := System(Client(Closed, false, false, [], [], [], 0, []), [], [], Conn(false, map[], map[], 0, {}))

  datatype Step =
    | UserSubscribes
    | UserCloses(id: Id)
    | UserCalls(immediate: bool)
    | TimesOut(id: Id)
    | ResponseArrives
    | OnOpenSettles
    | SocketCloses
    | Reconnects
    | RequestArrives(endsAtOnce: bool)
    | HandlerReturns(task: Instance)
    | HandlerEmits(task: Instance)
    | CallAnswers(id: Id)
    | ServerCloses

  /** `connect`: a new socket, on which the server says hello first. */
  function Connect(y: System): System
  {
    if !y.client.state.Closed? then y
    else System(y.client.(state := Connecting, opening := false, ready := false), [], [Hello], FRESH)
  }

  /** `send`: onto the socket, or onto the queue. */
  function Send(y: System, request: Request, immediate: bool): System
  {
    if y.client.state.Open? && (y.client.ready || immediate) then y.(up := y.up + [request])
    else y.(client := y.client.(queue := y.client.queue + [request]))
  }

  function Note(y: System, what: Happening): System
  {
    y.(client := y.client.(history := y.client.history + [what]))
  }

  function SubscribeNew(y: System): System
  {
    var id := y.client.next;
    var added := y.(client := y.client.(next := id + 1, subs := y.client.subs + [id]));
    if y.client.state.Open? && y.client.ready then Send(added, Subscribe(id), false) else Connect(added)
  }

  function CloseSub(y: System, id: Id): System
  {
    if id !in y.client.subs then y else
    var closed := Note(y.(client := y.client.(subs := Without(y.client.subs, id))), UserClosed(id));
    if y.client.state.Open? then Send(closed, Unsubscribe(id), false) else closed
  }

  function CallNew(y: System, immediate: bool): System
  {
    var connected := Connect(y);
    var id := connected.client.next;
    Send(connected.(client := connected.client.(next := id + 1, pending := connected.client.pending + [id])), Call(id), immediate)
  }

  function Settle(y: System, id: Id): System
  {
    if id !in y.client.pending then y
    else Note(y.(client := y.client.(pending := Without(y.client.pending, id))), Settled(id))
  }

  function Receive(y: System, response: Response): System
  {
    match response
    case Hello => y.(client := y.client.(state := Open, opening := true))
    case Answer(id) => Settle(y, id)
    case Event(id) => if id in y.client.subs then Note(y, OnEvent(id)) else y
    case End(id) =>
      if id !in y.client.subs then y
      else Note(y.(client := y.client.(subs := Without(y.client.subs, id))), OnEnd(id))
  }

  /** The rest of the hello: the queue is flushed, and every subscription made again. */
  function Opened(y: System): System
  {
    y.(client := y.client.(opening := false, ready := true, queue := []),
       up := y.up + y.client.queue + Subscribes(y.client.subs))
  }

  function Disconnected(y: System): System
  {
    System(y.client.(state := Closed, ready := false, pending := [],
                     history := y.client.history + Settles(y.client.pending)),
           [], [], OnClose(y.server))
  }

  function Do(y: System, step: Step): System
  {
    match step
    case UserSubscribes => SubscribeNew(y)
    case UserCloses(id) => CloseSub(y, id)
    case UserCalls(immediate) => CallNew(y, immediate)
    case TimesOut(id) => Settle(y, id)
    case ResponseArrives => if y.down == [] then y else Receive(y.(down := y.down[1..]), y.down[0])
    case OnOpenSettles => if y.client.opening then Opened(y) else y
    case SocketCloses => if y.client.state.Closed? || y.client.opening then y else Disconnected(y)
    case Reconnects => Connect(y)
    case RequestArrives(endsAtOnce) =>
      if y.up == [] then y else
      var (server, responses) := OnMessage(y.server, y.up[0], endsAtOnce);
      y.(up := y.up[1..], server := server, down := y.down + responses)
    case HandlerReturns(task) =>
      if task !in y.server.running then y else
      var (server, responses) := TaskEnds(y.server, task);
      y.(server := server, down := y.down + responses)
    case HandlerEmits(task) =>
      if task !in y.server.running then y else y.(down := y.down + [Event(y.server.running[task])])
    case CallAnswers(id) =>
      if !y.server.open || id !in y.server.calls then y
      else y.(server := y.server.(calls := y.server.calls - {id}), down := y.down + [Answer(id)])
    case ServerCloses => y.(server := OnClose(y.server))
  }

  // ---- The invariant ----

  /** The subscription's task is running, and it is the one the connection would abort. */
  predicate Runs(s: Conn, id: Id)
  {
    id in s.handles && s.handles[id] in s.running && s.running[s.handles[id]] == id
  }

  predicate ConnOk(s: Conn)
  {
    && (forall task | task in s.running :: task < s.spawned && Runs(s, s.running[task]) && s.handles[s.running[task]] == task)
    && (forall id | id in s.handles :: s.handles[id] < s.spawned)
    && (forall a, b | a in s.handles && b in s.handles && a != b :: s.handles[a] != s.handles[b])
    && (!s.open ==> s.handles == map[])
  }

  /** One subscription: being asked for, running, or ended, while it is open; being dropped, if not. */
  predicate IdOk(y: System, id: Id)
  {
    var asked, dropped, ended := Subscribe(id) in y.up, Unsubscribe(id) in y.up, End(id) in y.down;
    var open, runs := id in y.client.subs, Runs(y.server, id);
    && (open && y.client.ready && y.server.open ==> asked || runs || ended)
    && (open ==> !dropped && Unsubscribe(id) !in y.client.queue)
    && (open && ended ==> !runs && !asked)
    && ((asked || runs) && !open ==> dropped)
    && (asked ==> id !in y.server.handles)
    && (!y.client.ready ==> !asked && !dropped && !ended && id !in y.server.handles)
    && (open || asked || dropped || ended || id in y.server.handles || Unsubscribe(id) in y.client.queue
        ==> id < y.client.next)
  }

  /** A subscription is asked for once on a connection, and never after it was dropped. */
  predicate UpOk(up: seq<Request>)
  {
    forall j, k | 0 <= j < k < |up| && up[k].Subscribe? && up[j].id == up[k].id :: up[j].Call?
  }

  predicate Distinct(ids: seq<Id>)
  {
    forall j, k | 0 <= j < k < |ids| :: ids[j] != ids[k]
  }

  predicate ClientOk(c: Client)
  {
    && Distinct(c.subs)
    && (forall request | request in c.queue :: !request.Subscribe?)
    && (c.ready ==> c.state.Open? && !c.opening)
    && (c.opening ==> c.state.Open?)
  }

  /** A connection says hello once, first. */
  predicate HelloOk(y: System)
  {
    forall k | 0 <= k < |y.down| && y.down[k].Hello? :: k == 0 && y.client.state.Connecting?
  }

  ghost predicate Linked(y: System)
  {
    ClientOk(y.client) && ConnOk(y.server) && UpOk(y.up) && HelloOk(y) && forall id :: IdOk(y, id)
  }

  lemma {:induction false} WithoutIs(ids: seq<Id>, id: Id)
    ensures forall x :: x in Without(ids, id) <==> x in ids && x != id
  {
    if ids != [] {
      WithoutIs(ids[1..], id);
      assert ids == [ids[0]] + ids[1..];
      var rest := Without(ids[1..], id);
      assert forall x :: x in [ids[0]] + rest <==> x == ids[0] || x in rest;
    }
  }

  lemma {:induction false} WithoutDistinct(ids: seq<Id>, id: Id)
    requires Distinct(ids)
    ensures Distinct(Without(ids, id))
  {
    if ids != [] {
      forall j, k | 0 <= j < k < |ids[1..]| ensures ids[1..][j] != ids[1..][k] {
        assert ids[j + 1] != ids[k + 1];
      }
      WithoutDistinct(ids[1..], id);
      WithoutIs(ids[1..], id);
      assert ids[0] !in ids[1..];
    }
  }

  lemma ConnectLinked(y: System)
    requires Linked(y)
    ensures Linked(Connect(y))
  {
    var n := Connect(y);
    forall id ensures IdOk(n, id) { assert IdOk(y, id); }
  }

  /** What is put on the socket or the queue of an open connection, other than a subscription, keeps the rest. */
  lemma SendLinked(y: System, request: Request, immediate: bool)
    requires Linked(y)
    requires request.Call? || (request.Unsubscribe? && request.id !in y.client.subs && request.id < y.client.next && !immediate)
    ensures Linked(Send(y, request, immediate))
  {
    var n := Send(y, request, immediate);
    forall id ensures IdOk(n, id) { assert IdOk(y, id); }
    forall j, k | 0 <= j < k < |n.up| && n.up[k].Subscribe? && n.up[j].id == n.up[k].id ensures n.up[j].Call? {
      assert k < |y.up|;
    }
  }

  lemma AskLinked(y: System, id: Id)
    requires ClientOk(y.client) && ConnOk(y.server) && UpOk(y.up) && HelloOk(y) && forall i | i != id :: IdOk(y, i)
    requires y.client.state.Open? && y.client.ready && id in y.client.subs && id < y.client.next
    requires Subscribe(id) !in y.up && Unsubscribe(id) !in y.up && End(id) !in y.down && id !in y.server.handles
    requires Unsubscribe(id) !in y.client.queue
    ensures Linked(y.(up := y.up + [Subscribe(id)]))
  {
    var n := y.(up := y.up + [Subscribe(id)]);
    forall i ensures IdOk(n, i) { assert i != id ==> IdOk(y, i); }
    forall j, k | 0 <= j < k < |n.up| && n.up[k].Subscribe? && n.up[j].id == n.up[k].id ensures n.up[j].Call? {
      if k == |y.up| {
        assert n.up[j] == y.up[j] && y.up[j] in y.up;
      }
    }
  }

  lemma SubscribeLinked(y: System)
    requires Linked(y)
    ensures Linked(SubscribeNew(y))
  {
    var id := y.client.next;
    assert IdOk(y, id);
    var added := y.(client := y.client.(next := id + 1, subs := y.client.subs + [id]));
    forall i | i != id ensures IdOk(added, i) { assert IdOk(y, i); }
    if y.client.state.Open? && y.client.ready {
      AskLinked(added, id);
    } else {
      assert IdOk(added, id);
      ConnectLinked(added);
    }
  }

  /** A subscription that is closed, by the user or the server, leaves only what it had asked for to be dropped. */
  lemma RemoveLinked(y: System, id: Id, what: Happening)
    requires Linked(y) && id in y.client.subs
    requires forall i | i != id :: IdOk(y, i)
    ensures var n := Note(y.(client := y.client.(subs := Without(y.client.subs, id))), what);
            && ClientOk(n.client) && id !in n.client.subs && id < n.client.next
            && forall i | i != id :: IdOk(n, i)
  {
    var n := Note(y.(client := y.client.(subs := Without(y.client.subs, id))), what);
    WithoutIs(y.client.subs, id);
    WithoutDistinct(y.client.subs, id);
    assert IdOk(y, id);
    forall i | i != id ensures IdOk(n, i) { assert IdOk(y, i); }
  }

  lemma CloseLinked(y: System, id: Id)
    requires Linked(y)
    ensures Linked(CloseSub(y, id))
  {
    if id in y.client.subs {
      assert IdOk(y, id);
      RemoveLinked(y, id, UserClosed(id));
      var closed := Note(y.(client := y.client.(subs := Without(y.client.subs, id))), UserClosed(id));
      if y.client.state.Open? && y.client.ready {
        DropLinked(y, closed, id);
      } else {
        assert IdOk(closed, id);
        if y.client.state.Open? {
          SendLinked(closed, Unsubscribe(id), false);
        }
      }
    }
  }

  lemma DropLinked(y: System, closed: System, id: Id)
    requires Linked(y) && id in y.client.subs && y.client.ready
    requires ClientOk(closed.client) && id !in closed.client.subs && id < closed.client.next
    requires forall i | i != id :: IdOk(closed, i)
    requires closed.server == y.server && closed.up == y.up && closed.down == y.down
    requires closed.client.state == y.client.state && closed.client.ready == y.client.ready
    requires closed.client.queue == y.client.queue
    ensures Linked(closed.(up := closed.up + [Unsubscribe(id)]))
  {
    var n := closed.(up := closed.up + [Unsubscribe(id)]);
    assert IdOk(y, id);
    forall i ensures IdOk(n, i) { assert i != id ==> IdOk(closed, i); }
    forall j, k | 0 <= j < k < |n.up| && n.up[k].Subscribe? && n.up[j].id == n.up[k].id ensures n.up[j].Call? {
      assert k < |y.up|;
    }
  }

  lemma CallLinked(y: System, immediate: bool)
    requires Linked(y)
    ensures Linked(CallNew(y, immediate))
  {
    ConnectLinked(y);
    var connected := Connect(y);
    var id := connected.client.next;
    var n := connected.(client := connected.client.(next := id + 1, pending := connected.client.pending + [id]));
    forall i ensures IdOk(n, i) { assert IdOk(connected, i); }
    SendLinked(n, Call(id), immediate);
  }

  lemma SettleLinked(y: System, id: Id)
    requires Linked(y)
    ensures Linked(Settle(y, id))
  {
    var n := Settle(y, id);
    forall i ensures IdOk(n, i) { assert IdOk(y, i); }
  }

  lemma ReceiveLinked(y: System)
    requires Linked(y) && y.down != []
    ensures Linked(Receive(y.(down := y.down[1..]), y.down[0]))
  {
    var popped := y.(down := y.down[1..]);
    assert y.down == [y.down[0]] + popped.down;
    assert forall k | 0 <= k < |popped.down| :: popped.down[k] == y.down[k + 1];
    match y.down[0]
    case End(id) =>
      if id in y.client.subs {
        RemoveLinked(y, id, OnEnd(id));
        var n := Receive(popped, y.down[0]);
        var removed := Note(y.(client := y.client.(subs := Without(y.client.subs, id))), OnEnd(id));
        assert IdOk(y, id);
        forall i ensures IdOk(n, i) { assert i != id ==> IdOk(removed, i); }
      } else {
        forall i ensures IdOk(popped, i) { assert IdOk(y, i); }
      }
    case Hello =>
      var n := Receive(popped, Hello);
      forall i ensures IdOk(n, i) { assert IdOk(y, i); }
    case Answer(id) =>
      forall i ensures IdOk(popped, i) { assert IdOk(y, i); }
      SettleLinked(popped, id);
    case Event(id) =>
      var n := Receive(popped, Event(id));
      forall i ensures IdOk(n, i) { assert IdOk(y, i); }
  }

  lemma OpenedLinked(y: System)
    requires Linked(y) && y.client.opening
    ensures Linked(Opened(y))
  {
    var n, again := Opened(y), Subscribes(y.client.subs);
    forall i ensures IdOk(n, i) {
      assert IdOk(y, i);
      assert Subscribe(i) in n.up <==> i in y.client.subs by {
        if i in y.client.subs {
          var k :| 0 <= k < |y.client.subs| && y.client.subs[k] == i;
          assert again[k] == Subscribe(i);
        }
      }
    }
    OpenedUpOk(y);
  }

  lemma OpenedUpOk(y: System)
    requires Linked(y) && y.client.opening
    ensures UpOk(Opened(y).up)
  {
    var before, again := y.up + y.client.queue, Subscribes(y.client.subs);
    var up := before + again;
    forall request | request in before
      ensures !request.Subscribe? && (request.Unsubscribe? ==> request.id !in y.client.subs)
    {
      assert request in y.up || request in y.client.queue;
      assert IdOk(y, request.id);
    }
    assert forall k | 0 <= k < |before| :: up[k] == before[k] && up[k] in before;
    assert forall k | |before| <= k < |up| :: up[k] == again[k - |before|];
  }

  lemma DisconnectedLinked(y: System)
    requires Linked(y) && !y.client.opening
    ensures Linked(Disconnected(y))
  {
    var n := Disconnected(y);
    CloseConn(y.server);
    forall i ensures IdOk(n, i) { assert IdOk(y, i); }
  }

  /** When a connection closes, none of its tasks is left running. */
  lemma CloseConn(s: Conn)
    requires ConnOk(s)
    ensures OnClose(s).running == map[] && ConnOk(OnClose(s))
  {
    forall task | task in s.running ensures task in s.handles.Values {
      assert s.handles[s.running[task]] == task;
    }
    assert OnClose(s).running.Keys == {};
  }

  lemma ServerClosesLinked(y: System)
    requires Linked(y)
    ensures Linked(y.(server := OnClose(y.server)))
  {
    var n := y.(server := OnClose(y.server));
    CloseConn(y.server);
    forall i ensures IdOk(n, i) { assert IdOk(y, i); }
  }

  /** For an id that has no handle yet, nothing is aborted. */
  lemma SpawnIs(s: Conn, id: Id, endsAtOnce: bool)
    requires s.open && id !in s.handles
    ensures Spawn(s, id, endsAtOnce).1 == if endsAtOnce then [End(id)] else []
    ensures Spawn(s, id, endsAtOnce).0 == s.(
                                            spawned := s.spawned + 1, handles := s.handles[id := s.spawned],
                                            running := if endsAtOnce then s.running else s.running[s.spawned := id])
  {
    assert s.handles - {id} == s.handles;
  }

  /** The handle of a newly spawned handler, stored whether or not it still runs. */
  lemma StoreOk(s: Conn, id: Id, n: Conn)
    requires ConnOk(s) && s.open && id !in s.handles
    requires n == s.(spawned := s.spawned + 1, handles := s.handles[id := s.spawned])
    ensures ConnOk(n) && !Runs(n, id)
    ensures forall i | i != id :: Runs(n, i) <==> Runs(s, i)
  {
    forall task | task in n.running
      ensures task < n.spawned && Runs(n, n.running[task]) && n.handles[n.running[task]] == task
    {
      assert Runs(s, s.running[task]) && s.running[task] != id;
    }
  }

  lemma RunOk(s: Conn, id: Id, n: Conn)
    requires ConnOk(s) && id in s.handles && s.handles[id] !in s.running
    requires n == s.(running := s.running[s.handles[id] := id])
    ensures ConnOk(n) && Runs(n, id)
    ensures forall i | i != id :: Runs(n, i) <==> Runs(s, i)
  {
  }

  lemma SpawnOk(s: Conn, id: Id, ended: bool, n: Conn)
    requires ConnOk(s) && s.open && id !in s.handles
    requires n == s.(spawned := s.spawned + 1, handles := s.handles[id := s.spawned],
                     running := if ended then s.running else s.running[s.spawned := id])
    ensures ConnOk(n) && (Runs(n, id) <==> !ended)
    ensures forall i | i != id :: Runs(n, i) <==> Runs(s, i)
  {
    var stored := s.(spawned := s.spawned + 1, handles := s.handles[id := s.spawned]);
    StoreOk(s, id, stored);
    if !ended {
      RunOk(stored, id, n);
    }
  }

  lemma SubscribeArrives(y: System, id: Id, endsAtOnce: bool, server: Conn, responses: seq<Response>)
    requires Linked(y) && y.up != [] && y.up[0] == Subscribe(id) && y.server.open
    requires (server, responses) == Spawn(y.server, id, endsAtOnce)
    ensures Linked(y.(up := y.up[1..], server := server, down := y.down + responses))
  {
    assert y.up[0] in y.up && IdOk(y, id);
    SpawnIs(y.server, id, endsAtOnce);
    SpawnOk(y.server, id, endsAtOnce, server);
    SpawnedLinked(y, id, server, responses, endsAtOnce);
  }

  lemma SpawnedLinked(y: System, id: Id, server: Conn, responses: seq<Response>, ended: bool)
    requires Linked(y) && y.up != [] && y.up[0] == Subscribe(id) && y.server.open
    requires ConnOk(server) && server.open && responses == if ended then [End(id)] else []
    requires (Runs(server, id) <==> !ended) && server.handles.Keys == y.server.handles.Keys + {id}
    requires forall i | i != id :: Runs(server, i) <==> Runs(y.server, i)
    ensures Linked(y.(up := y.up[1..], server := server, down := y.down + responses))
  {
    var n := y.(up := y.up[1..], server := server, down := y.down + responses);
    PopUp(y);
    assert IdOk(y, id);
    assert ended ==> n.down == y.down + [End(id)];
    forall i ensures IdOk(n, i) {
      assert IdOk(y, i);
      assert i in server.handles <==> i in y.server.handles || i == id;
    }
  }

  /** Dropping a subscription's handle aborts its task, and no other. */
  lemma DropOk(s: Conn, id: Id, n: Conn)
    requires ConnOk(s) && s.open
    requires n == if id in s.handles then Abort(s.(handles := s.handles - {id}), s.handles[id]) else s
    ensures ConnOk(n) && n.open && !Runs(n, id) && n.handles.Keys == s.handles.Keys - {id}
    ensures forall i | i != id :: Runs(n, i) <==> Runs(s, i)
  {
  }

  lemma UnsubscribeArrives(y: System, id: Id, server: Conn)
    requires Linked(y) && y.up != [] && y.up[0] == Unsubscribe(id) && y.server.open
    requires ConnOk(server) && server.open && !Runs(server, id) && server.handles.Keys == y.server.handles.Keys - {id}
    requires forall i | i != id :: Runs(server, i) <==> Runs(y.server, i)
    ensures Linked(y.(up := y.up[1..], server := server, down := y.down + [End(id)]))
  {
    var n := y.(up := y.up[1..], server := server, down := y.down + [End(id)]);
    PopUp(y);
    assert IdOk(y, id);
    forall i ensures IdOk(n, i) {
      assert IdOk(y, i);
      assert i in server.handles <==> i in y.server.handles && i != id;
    }
  }

  lemma OtherArrives(y: System, endsAtOnce: bool)
    requires Linked(y) && y.up != [] && (y.up[0].Call? || !y.server.open)
    ensures Linked(Do(y, RequestArrives(endsAtOnce)))
  {
    var n := Do(y, RequestArrives(endsAtOnce));
    PopUp(y);
    forall i ensures IdOk(n, i) { assert IdOk(y, i); }
  }

  /** Taking the first request off the socket. */
  lemma PopUp(y: System)
    requires UpOk(y.up) && y.up != []
    ensures UpOk(y.up[1..])
    ensures forall request :: request in y.up <==> request == y.up[0] || request in y.up[1..]
    ensures !y.up[0].Call? ==> Subscribe(y.up[0].id) !in y.up[1..]
  {
    var rest := y.up[1..];
    assert y.up == [y.up[0]] + rest;
    assert forall k | 0 <= k < |rest| :: rest[k] == y.up[k + 1];
  }

  lemma ReturnLinked(y: System, task: Instance)
    requires Linked(y) && task in y.server.running
    ensures Linked(Do(y, HandlerReturns(task)))
  {
    var id, n := y.server.running[task], Do(y, HandlerReturns(task));
    assert IdOk(y, id);
    forall i ensures IdOk(n, i) { assert IdOk(y, i); }
  }

  lemma SpeakLinked(y: System, response: Response)
    requires Linked(y) && (response.Event? || response.Answer?)
    ensures Linked(y.(down := y.down + [response]))
  {
    var n := y.(down := y.down + [response]);
    forall i ensures IdOk(n, i) { assert IdOk(y, i); }
  }

  lemma DoLinked(y: System, step: Step)
    requires Linked(y)
    ensures Linked(Do(y, step))
  {
    match step
    case UserSubscribes => SubscribeLinked(y);
    case UserCloses(id) => CloseLinked(y, id);
    case UserCalls(immediate) => CallLinked(y, immediate);
    case TimesOut(id) => SettleLinked(y, id);
    case ResponseArrives => if y.down != [] { ReceiveLinked(y); }
    case OnOpenSettles => if y.client.opening { OpenedLinked(y); }
    case SocketCloses => if !y.client.opening { DisconnectedLinked(y); }
    case Reconnects => ConnectLinked(y);
    case RequestArrives(endsAtOnce) =>
      if y.up != [] {
        if y.server.open && y.up[0].Subscribe? {
          var (server, responses) := Spawn(y.server, y.up[0].id, endsAtOnce);
          SubscribeArrives(y, y.up[0].id, endsAtOnce, server, responses);
        } else if y.server.open && y.up[0].Unsubscribe? {
          var (server, responses) := OnMessage(y.server, y.up[0], endsAtOnce);
          DropOk(y.server, y.up[0].id, server);
          UnsubscribeArrives(y, y.up[0].id, server);
        } else {
          OtherArrives(y, endsAtOnce);
        }
      }
    case HandlerReturns(task) => if task in y.server.running { ReturnLinked(y, task); }
    case HandlerEmits(task) => if task in y.server.running { SpeakLinked(y, Event(y.server.running[task])); }
    case CallAnswers(id) => CallAnswersLinked(y, id);
    case ServerCloses => ServerClosesLinked(y);
  }

  lemma CallAnswersLinked(y: System, id: Id)
    requires Linked(y)
    ensures Linked(Do(y, CallAnswers(id)))
  {
    var answered := y.(server := y.server.(calls := y.server.calls - {id}));
    forall i ensures IdOk(answered, i) { assert IdOk(y, i); }
    SpeakLinked(answered, Answer(id));
  }

  // ---- Promises and callbacks ----

  /** What is open has only had events; what is pending, nothing; and every id ever given out is accounted for. */
  predicate TaleOk(c: Client, id: Id)
  {
    && (id in c.subs ==> id < c.next && forall h | h in c.history && h.id == id :: h.OnEvent?)
    && (id in c.pending ==> id < c.next && id !in c.subs && forall h | h in c.history :: h.id != id)
    && (forall h | h in c.history :: h.id < c.next)
    && (id < c.next ==> id in c.pending || id in c.subs || Settled(id) in c.history || UserClosed(id) in c.history
                        || OnEnd(id) in c.history)
  }

  /** A promise settles at most once, and nothing is called back after a subscription ended or was closed. */
  predicate NothingAfter(history: seq<Happening>)
  {
    forall j, k | 0 <= j < k < |history| && history[j].id == history[k].id :: history[j].OnEvent?
  }

  ghost predicate Told(c: Client)
  {
    Distinct(c.pending) && NothingAfter(c.history) && forall id :: TaleOk(c, id)
  }

  lemma NoteTold(c: Client, n: Client, what: Happening)
    requires Told(c) && n.history == c.history + [what] && n.next == c.next
    requires if what.Settled? then what.id in c.pending && n.pending == Without(c.pending, what.id) && n.subs == c.subs
             else what.id in c.subs && n.pending == c.pending
                  && n.subs == if what.OnEvent? then c.subs else Without(c.subs, what.id)
    ensures Told(n)
  {
    WithoutIs(c.pending, what.id);
    WithoutDistinct(c.pending, what.id);
    WithoutIs(c.subs, what.id);
    assert TaleOk(c, what.id);
    forall id ensures TaleOk(n, id) { assert TaleOk(c, id); }
    forall j, k | 0 <= j < k < |n.history| && n.history[j].id == n.history[k].id ensures n.history[j].OnEvent? {
      assert n.history[j] in c.history;
    }
  }

  lemma GrowTold(c: Client, n: Client)
    requires Told(c) && n.history == c.history && n.next == c.next + 1
    requires (n.pending == c.pending + [c.next] && n.subs == c.subs) || (n.pending == c.pending && n.subs == c.subs + [c.next])
    ensures Told(n)
  {
    assert TaleOk(c, c.next);
    forall id ensures TaleOk(n, id) { assert TaleOk(c, id); }
  }

  lemma DisconnectTold(c: Client, n: Client)
    requires Told(c) && n.history == c.history + Settles(c.pending) && n.pending == [] && n.subs == c.subs && n.next == c.next
    ensures Told(n)
  {
    var settles := Settles(c.pending);
    forall id ensures TaleOk(n, id) {
      assert TaleOk(c, id);
      if id in c.pending {
        var k :| 0 <= k < |c.pending| && c.pending[k] == id;
        assert settles[k] == Settled(id) && Settled(id) in n.history;
      }
      forall h | h in n.history ensures h.id < n.next && (id in n.subs && h.id == id ==> h.OnEvent?) {
        if h !in c.history {
          assert h in settles && TaleOk(c, h.id);
        }
      }
    }
    forall j, k | 0 <= j < k < |n.history| && n.history[j].id == n.history[k].id ensures n.history[j].OnEvent? {
      if k >= |c.history| {
        assert TaleOk(c, c.pending[k - |c.history|]);
        assert j < |c.history| ==> n.history[j] in c.history;
      }
    }
  }

  lemma SameTold(c: Client, n: Client)
    requires Told(c) && n.history == c.history && n.pending == c.pending && n.subs == c.subs && n.next == c.next
    ensures Told(n)
  {
    forall id ensures TaleOk(n, id) { assert TaleOk(c, id); }
  }

  lemma DoTold(y: System, step: Step)
    requires Told(y.client)
    ensures Told(Do(y, step).client)
  {
    var c, n := y.client, Do(y, step).client;
    match step
    case UserSubscribes => GrowTold(c, n);
    case UserCalls(_) => GrowTold(c, n);
    case UserCloses(id) => if id in c.subs { NoteTold(c, n, UserClosed(id)); }
    case TimesOut(id) => if id in c.pending { NoteTold(c, n, Settled(id)); }
    case ResponseArrives =>
      if y.down != [] {
        match y.down[0]
        case Hello => SameTold(c, n);
        case Answer(id) => if id in c.pending { NoteTold(c, n, Settled(id)); }
        case Event(id) => if id in c.subs { NoteTold(c, n, OnEvent(id)); }
        case End(id) => if id in c.subs { NoteTold(c, n, OnEnd(id)); }
      }
    case SocketCloses => if n != c { DisconnectTold(c, n); }
    case _ => SameTold(c, n);
  }

  // ---- Every run ----

  function Play(steps: seq<Step>): System
  {
    if steps == [] then START else Do(Play(steps[..|steps| - 1]), steps[|steps| - 1])
  }

  lemma {:induction false} PlayOk(steps: seq<Step>)
    ensures Linked(Play(steps)) && Told(Play(steps).client)
  {
    if steps == [] {
      StartOk();
    } else {
      PlayOk(steps[..|steps| - 1]);
      DoLinked(Play(steps[..|steps| - 1]), steps[|steps| - 1]);
      DoTold(Play(steps[..|steps| - 1]), steps[|steps| - 1]);
    }
  }

  lemma StartOk()
    ensures Linked(START) && Told(START.client)
  {
    forall id ensures IdOk(START, id) && TaleOk(START.client, id) { }
  }

  /** Once the session is open, ready and drained, the tasks running for it on the server are exactly its open
      subscriptions, one each: after any subscribing, closing, ending, disconnecting and reconnecting. */
  lemma SettledSession(steps: seq<Step>)
    requires var y := Play(steps); y.client.ready && y.server.open && y.up == [] && y.down == []
    ensures var y := Play(steps);
            && (forall id :: id in y.client.subs <==> exists task :: task in y.server.running && y.server.running[task] == id)
            && (forall a, b | a in y.server.running && b in y.server.running && y.server.running[a] == y.server.running[b] :: a == b)
  {
    var y := Play(steps);
    PlayOk(steps);
    forall id ensures id in y.client.subs <==> exists task :: task in y.server.running && y.server.running[task] == id {
      assert IdOk(y, id);
      if id in y.client.subs {
        assert y.server.handles[id] in y.server.running;
      }
    }
  }

  /** Over any run: a promise settles at most once and a subscription ends at most once, by the user or the server,
      with no callback after that; and each call made is either pending or settled. */
  lemma OnceOnly(steps: seq<Step>, j: nat, k: nat)
    requires j < k < |Play(steps).client.history|
    ensures var h := Play(steps).client.history; h[j].id == h[k].id ==> h[j].OnEvent?
  {
    PlayOk(steps);
  }

  lemma NothingIsLost(steps: seq<Step>, id: Id)
    requires id < Play(steps).client.next
    ensures var c := Play(steps).client;
            id in c.pending || id in c.subs || Settled(id) in c.history || UserClosed(id) in c.history || OnEnd(id) in c.history
  {
    PlayOk(steps);
    assert TaleOk(Play(steps).client, id);
  }

  // ---- What is sent, and when ----

  /** What a step puts on the socket. */
  function Put(before: seq<Request>, after: seq<Request>): seq<Request>
  {
    if |before| <= |after| then after[|before|..] else []
  }

  /** What is put on sockets while a run goes on from another, over all connections. */
  function Sent(from: seq<Step>, more: seq<Step>): seq<Request>
  {
    if more == [] then [] else
    var init := more[..|more| - 1];
    Sent(from, init) + Put(Play(from + init).up, Do(Play(from + init), more[|more| - 1]).up)
  }

  /** A step that flushes the queue. */
  predicate Flushes(y: System, step: Step)
  {
    step.OnOpenSettles? && y.client.opening
  }

  /** Whether the session opens at some point of a run that goes on from another. */
  predicate Opens(from: seq<Step>, more: seq<Step>)
  {
    more != [] && var init := more[..|more| - 1];
    Opens(from, init) || Flushes(Play(from + init), more[|more| - 1])
  }

  function Times(requests: seq<Request>, id: Id): nat
  {
    multiset(requests)[Call(id)]
  }

  /** A closed connection has nothing on its socket. */
  predicate ClosedEmpty(y: System)
  {
    !y.client.state.Open? ==> y.up == []
  }

  lemma DoClosedEmpty(y: System, step: Step)
    requires ClosedEmpty(y) && ClientOk(y.client)
    ensures ClosedEmpty(Do(y, step))
  {
  }

  predicate NoCalls(requests: seq<Request>)
  {
    forall request | request in requests :: !request.Call?
  }

  lemma NoTimes(requests: seq<Request>, id: Id)
    requires NoCalls(requests)
    ensures Times(requests, id) == 0
  {
    assert Call(id) !in requests;
  }

  /** What a step does to the socket and the queue: one frame goes onto either, or the queue onto the socket. */
  predicate Moves(y: System, n: System, made: seq<Request>)
  {
    if n.client.ready && !y.client.ready then n.client.queue == [] && Put(y.up, n.up) == y.client.queue + made
    else (Put(y.up, n.up) == made && n.client.queue == y.client.queue)
         || (Put(y.up, n.up) == [] && n.client.queue == y.client.queue + made)
  }

  function Made(y: System, step: Step): seq<Request>
  {
    match step
    case OnOpenSettles => if y.client.opening then Subscribes(y.client.subs) else []
    case UserSubscribes => if y.client.state.Open? && y.client.ready then [Subscribe(y.client.next)] else []
    case UserCloses(id) => if id in y.client.subs && y.client.state.Open? then [Unsubscribe(id)] else []
    case UserCalls(_) => [Call(y.client.next)]
    case _ => []
  }

  lemma CallMoves(y: System, immediate: bool)
    requires ClosedEmpty(y) && ClientOk(y.client)
    ensures var n := CallNew(y, immediate);
            && Moves(y, n, [Call(y.client.next)]) && n.client.next == y.client.next + 1
            && (n.client.ready ==> y.client.ready)
  {
  }

  lemma StepMoves(y: System, step: Step)
    requires ClosedEmpty(y) && ClientOk(y.client)
    ensures Moves(y, Do(y, step), Made(y, step)) && y.client.next <= Do(y, step).client.next
    ensures Do(y, step).client.ready && !y.client.ready <==> Flushes(y, step)
    ensures step.UserCalls? ==> y.client.next < Do(y, step).client.next
  {
    match step
    case UserCalls(immediate) => CallMoves(y, immediate);
    case OnOpenSettles =>
    case _ =>
      var n, made := Do(y, step), Made(y, step);
      assert made == [] || n.client.queue == y.client.queue + made || n.up == y.up + made;
  }

  lemma MadeCounts(y: System, step: Step, id: Id)
    ensures Times(Made(y, step), id) == if step.UserCalls? && id == y.client.next then 1 else 0
  {
    if !step.UserCalls? {
      NoTimes(Made(y, step), id);
    }
  }

  /** A frame of a call is neither made nor lost by any step but the call itself: it goes from the queue to the socket. */
  lemma StepCounts(y: System, step: Step, id: Id)
    requires ClosedEmpty(y) && ClientOk(y.client)
    ensures var n := Do(y, step);
            && Times(Put(y.up, n.up), id) + Times(n.client.queue, id)
               == Times(y.client.queue, id) + (if step.UserCalls? && id == y.client.next then 1 else 0)
            && (Flushes(y, step) ==> n.client.queue == [])
            && (!Flushes(y, step) ==> Times(n.client.queue, id) >= Times(y.client.queue, id))
            && y.client.next <= n.client.next
            && (step.UserCalls? ==> y.client.next < n.client.next)
  {
    StepMoves(y, step);
    MadeCounts(y, step, id);
    MovesCounts(y, Do(y, step), Made(y, step), id);
  }

  lemma MovesCounts(y: System, n: System, made: seq<Request>, id: Id)
    requires Moves(y, n, made)
    ensures Times(Put(y.up, n.up), id) + Times(n.client.queue, id) == Times(y.client.queue, id) + Times(made, id)
    ensures n.client.ready && !y.client.ready ==> n.client.queue == []
    ensures !(n.client.ready && !y.client.ready) ==> Times(n.client.queue, id) >= Times(y.client.queue, id)
  {
  }

  lemma {:induction false} PlayClosedEmpty(steps: seq<Step>)
    ensures ClosedEmpty(Play(steps)) && ClientOk(Play(steps).client)
  {
    PlayOk(steps);
    if steps != [] {
      PlayClosedEmpty(steps[..|steps| - 1]);
      DoClosedEmpty(Play(steps[..|steps| - 1]), steps[|steps| - 1]);
    }
  }

  lemma LastOfJoin<T>(from: seq<T>, more: seq<T>)
    requires more != []
    ensures from + more != [] && (from + more)[|from + more| - 1] == more[|more| - 1]
    ensures (from + more)[..|from + more| - 1] == from + more[..|more| - 1]
  {
  }

  lemma PlayStep(steps: seq<Step>)
    requires steps != []
    ensures Play(steps) == Do(Play(steps[..|steps| - 1]), steps[|steps| - 1])
  {
  }

  lemma PlayOn(from: seq<Step>, more: seq<Step>)
    requires more != []
    ensures Play(from + more) == Do(Play(from + more[..|more| - 1]), more[|more| - 1])
  {
    LastOfJoin(from, more);
    PlayStep(from + more);
  }

  /** The frame of a call was sent at most once, and waits in the queue if it is pending and was not. */
  predicate SentOk(sent: seq<Request>, c: Client, id: Id)
  {
    && Times(sent, id) + Times(c.queue, id) <= 1
    && (id >= c.next ==> Times(sent, id) + Times(c.queue, id) == 0 && id !in c.pending)
    && (id in c.pending ==> Times(sent, id) + Times(c.queue, id) == 1)
  }

  lemma StepSent(sent: seq<Request>, y: System, step: Step, id: Id)
    requires ClosedEmpty(y) && ClientOk(y.client) && SentOk(sent, y.client, id)
    ensures SentOk(sent + Put(y.up, Do(y, step).up), Do(y, step).client, id)
  {
    StepCounts(y, step, id);
    if id in Do(y, step).client.pending {
      StepPending(y, step, id);
    }
  }

  lemma StepPending(y: System, step: Step, id: Id)
    requires id in Do(y, step).client.pending
    ensures id in y.client.pending || (step.UserCalls? && id == y.client.next)
  {
    match step
    case TimesOut(i) => WithoutIs(y.client.pending, i);
    case ResponseArrives => if y.down != [] && y.down[0].Answer? { WithoutIs(y.client.pending, y.down[0].id); }
    case _ =>
  }

  /** Over any run, all connections taken together, the frame of a call is sent at most once, and it is not lost while
      the call is pending. */
  lemma {:induction false} SentAtMostOnce(steps: seq<Step>, id: Id)
    ensures SentOk(Sent([], steps), Play(steps).client, id)
  {
    assert [] + steps == steps;
    if steps != [] {
      var init := steps[..|steps| - 1];
      SentAtMostOnce(init, id);
      PlayClosedEmpty(init);
      assert [] + init == init;
      PlayOn([], steps);
      StepSent(Sent([], init), Play(init), steps[|steps| - 1], id);
    }
  }

  lemma {:induction false} QueuedUntilOpens(from: seq<Step>, more: seq<Step>, id: Id)
    requires id < Play(from).client.next
    ensures id < Play(from + more).client.next
    ensures Times(Sent(from, more), id) + Times(Play(from + more).client.queue, id) == Times(Play(from).client.queue, id)
    ensures Call(id) in Play(from + more).client.queue <==> Call(id) in Play(from).client.queue && !Opens(from, more)
  {
    if more == [] {
      assert from + more == from;
    } else {
      var init, step := more[..|more| - 1], more[|more| - 1];
      QueuedUntilOpens(from, init, id);
      PlayClosedEmpty(from + init);
      PlayOn(from, more);
      StepCounts(Play(from + init), step, id);
    }
  }

  /** Once a call was made, and whether it was settled or not: its frame is sent from here on exactly if it is still queued
      and the session opens. */
  lemma SentAfter(from: seq<Step>, more: seq<Step>, id: Id)
    requires id < Play(from).client.next
    ensures Call(id) in Sent(from, more) <==> Call(id) in Play(from).client.queue && Opens(from, more)
  {
    QueuedUntilOpens(from, more, id);
    SentAtMostOnce(from, id);
  }

  lemma CallQueues(y: System, immediate: bool)
    requires Call(y.client.next) !in y.client.queue
    ensures CallNew(y, immediate).client.next == y.client.next + 1
    ensures Call(y.client.next) in CallNew(y, immediate).client.queue
       <==> !(y.client.state.Open? && (y.client.ready || immediate))
  {
  }

  /** Seen from when the call is made: it is sent after some later point, at which its promise may long have been rejected,
      exactly if the session was not open for it then, did not open until that point, and opens after it. */
  lemma SentAfterAll(before: seq<Step>, immediate: bool, until: seq<Step>, more: seq<Step>)
    ensures var c, made := Play(before).client, before + [UserCalls(immediate)];
            Call(c.next) in Sent(made + until, more) <==>
            !(c.state.Open? && (c.ready || immediate)) && !Opens(made, until) && Opens(made + until, more)
  {
    var y, made := Play(before), before + [UserCalls(immediate)];
    PlayOn(before, [UserCalls(immediate)]);
    assert before + [] == before && Play(made) == CallNew(y, immediate);
    SentAtMostOnce(before, y.client.next);
    CallQueues(y, immediate);
    QueuedUntilOpens(made, until, y.client.next);
    SentAfter(made + until, more, y.client.next);
  }

  lemma PlayIs(steps: seq<Step>, step: Step, y: System, n: System)
    requires Play(steps) == y && Do(y, step) == n
    ensures Play(steps + [step]) == n
  {
    PlayOn(steps, [step]);
    assert steps + [] == steps;
  }

  lemma Called()
    ensures Play([UserCalls(false)])
         == System(Client(Connecting, false, false, [Call(0)], [0], [], 1, []), [], [Hello], FRESH)
  {
    PlayIs([], UserCalls(false), START, System(Client(Connecting, false, false, [Call(0)], [0], [], 1, []), [], [Hello], FRESH));
    assert [] + [UserCalls(false)] == [UserCalls(false)];
  }

  /** A call that is rejected, as the socket closes before it was sent. */
  lemma Rejected()
    ensures Play([UserCalls(false), SocketCloses])
         == System(Client(Closed, false, false, [Call(0)], [], [], 1, [Settled(0)]), [], [], OnClose(FRESH))
  {
    Called();
    var y := System(Client(Connecting, false, false, [Call(0)], [0], [], 1, []), [], [Hello], FRESH);
    assert Settles([0]) == [Settled(0)];
    PlayIs([UserCalls(false)], SocketCloses, y, Disconnected(y));
    assert [UserCalls(false)] + [SocketCloses] == [UserCalls(false), SocketCloses];
  }

  /** On the next connection it is sent all the same. */
  lemma RejectedYetSent()
    ensures var from := [UserCalls(false), SocketCloses];
            && Play(from).client.history == [Settled(0)] && Play(from).client.pending == []
            && Call(0) in Sent(from, [Reconnects, ResponseArrives, OnOpenSettles])
  {
    var from, more := [UserCalls(false), SocketCloses], [Reconnects, ResponseArrives, OnOpenSettles];
    Rejected();
    var lost := Play(from).client;
    PlayIs(from, Reconnects, Play(from), System(lost.(state := Connecting), [], [Hello], FRESH));
    PlayIs(from + [Reconnects], ResponseArrives, Play(from + [Reconnects]),
           System(lost.(state := Open, opening := true), [], [], FRESH));
    assert from + [Reconnects] + [ResponseArrives] == from + more[..|more| - 1];
    assert Flushes(Play(from + more[..|more| - 1]), more[|more| - 1]);
    SentAfter(from, more, 0);
  }

  // ---- Where a call is ----

  /** How often a call is on its way: queued, sent, being worked on, or answered. */
  function Places(y: System, id: Id): nat
  {
    Times(y.client.queue, id) + Times(y.up, id) + (if id in y.server.calls then 1 else 0) + multiset(y.down)[Answer(id)]
  }

  /** A call is in one place at most; while it is pending, in one, unless the server has closed the connection. */
  predicate CallOk(y: System, id: Id)
  {
    && Places(y, id) <= 1
    && (id >= y.client.next ==> Places(y, id) == 0)
    && (id in y.client.pending ==> id < y.client.next && (Places(y, id) == 1 || !y.server.open))
  }

  /** Nothing waits in the queue of a session that is ready, or for an answer on a closed connection. */
  predicate Unhindered(c: Client)
  {
    (c.ready ==> c.queue == []) && (c.state.Closed? ==> c.pending == [])
  }

  lemma UnhinderedStep(y: System, step: Step, n: System)
    requires Unhindered(y.client) && ClientOk(y.client) && n == Do(y, step)
    ensures Unhindered(n.client)
  {
  }

  lemma NewConnection(y: System, n: System, id: Id)
    requires CallOk(y, id) && Unhindered(y.client) && n == Connect(y)
    ensures CallOk(n, id)
  {
    assert multiset([Hello])[Answer(id)] == 0;
  }

  lemma SendsOne(y: System, request: Request, immediate: bool, n: System, id: Id)
    requires n == Send(y, request, immediate)
    ensures Places(n, id) == Places(y, id) + if request == Call(id) then 1 else 0
    ensures n.server == y.server && n.client.pending == y.client.pending && n.client.next == y.client.next
  {
  }

  lemma CallPlaces(y: System, immediate: bool, n: System, id: Id)
    requires CallOk(y, id) && Unhindered(y.client) && n == CallNew(y, immediate)
    ensures CallOk(n, id)
  {
    var connected := Connect(y);
    NewConnection(y, connected, id);
    var made := connected.client.next;
    var added := connected.(client := connected.client.(next := made + 1, pending := connected.client.pending + [made]));
    SendsOne(added, Call(made), immediate, n, id);
    assert Places(added, id) == Places(connected, id);
  }

  lemma CloseSubPlaces(y: System, sub: Id, n: System, id: Id)
    requires CallOk(y, id) && n == CloseSub(y, sub)
    ensures CallOk(n, id)
  {
    var closed := Note(y.(client := y.client.(subs := Without(y.client.subs, sub))), UserClosed(sub));
    if sub in y.client.subs && y.client.state.Open? {
      SendsOne(closed, Unsubscribe(sub), false, n, id);
      assert Places(closed, id) == Places(y, id);
    }
  }

  lemma SubscribePlaces(y: System, n: System, id: Id)
    requires CallOk(y, id) && Unhindered(y.client) && n == SubscribeNew(y)
    ensures CallOk(n, id)
  {
    var new_ := y.client.next;
    var added := y.(client := y.client.(next := new_ + 1, subs := y.client.subs + [new_]));
    assert Places(added, id) == Places(y, id);
    if y.client.state.Open? && y.client.ready {
      SendsOne(added, Subscribe(new_), false, n, id);
    } else {
      NewConnection(added, n, id);
    }
  }

  lemma SettlePlaces(y: System, settled: Id, n: System, id: Id)
    requires Places(y, id) <= 1 && (id >= y.client.next ==> Places(y, id) == 0)
    requires id in y.client.pending ==> id < y.client.next && (id == settled || Places(y, id) == 1 || !y.server.open)
    requires n == Settle(y, settled)
    ensures CallOk(n, id)
  {
    WithoutIs(y.client.pending, settled);
    assert Places(n, id) == Places(y, id);
  }

  lemma ReceivePlaces(y: System, n: System, id: Id)
    requires CallOk(y, id) && y.down != [] && n == Receive(y.(down := y.down[1..]), y.down[0])
    ensures CallOk(n, id)
  {
    var popped := y.(down := y.down[1..]);
    assert y.down == [y.down[0]] + popped.down;
    assert Places(y, id) == Places(popped, id) + if y.down[0] == Answer(id) then 1 else 0;
    if y.down[0].Answer? {
      SettlePlaces(popped, y.down[0].id, n, id);
    } else {
      assert Places(n, id) == Places(popped, id);
    }
  }

  lemma OpenedPlaces(y: System, n: System, id: Id)
    requires CallOk(y, id) && n == Opened(y)
    ensures CallOk(n, id)
  {
    NoTimes(Subscribes(y.client.subs), id);
    assert Places(n, id) == Places(y, id);
  }

  lemma SaysNoAnswer(down: seq<Response>, responses: seq<Response>, id: Id)
    requires forall response | response in responses :: !response.Answer?
    ensures multiset(down + responses)[Answer(id)] == multiset(down)[Answer(id)]
  {
    assert Answer(id) in responses ==> !Answer(id).Answer?;
    assert multiset(responses)[Answer(id)] == 0;
  }

  /** What the server makes of a request, as far as calls go. */
  lemma MessageCalls(s: Conn, request: Request, endsAtOnce: bool)
    ensures var (n, responses) := OnMessage(s, request, endsAtOnce);
            && n.calls == s.calls + (if s.open && request.Call? then {request.id} else {}) && n.open == s.open
            && forall response | response in responses :: response.End?
  {
  }

  lemma RequestPlaces(y: System, server: Conn, responses: seq<Response>, n: System, id: Id)
    requires CallOk(y, id) && y.up != []
    requires server.calls == y.server.calls + (if y.server.open && y.up[0].Call? then {y.up[0].id} else {})
    requires server.open == y.server.open && forall response | response in responses :: !response.Answer?
    requires n == y.(up := y.up[1..], server := server, down := y.down + responses)
    ensures CallOk(n, id)
  {
    assert y.up == [y.up[0]] + y.up[1..];
    assert Times(y.up, id) == Times(y.up[1..], id) + if y.up[0] == Call(id) then 1 else 0;
    SaysNoAnswer(y.down, responses, id);
  }

  lemma ServerPlaces(y: System, step: Step, n: System, id: Id)
    requires CallOk(y, id) && n == Do(y, step)
    requires step.HandlerReturns? || step.HandlerEmits? || step.CallAnswers? || step.ServerCloses?
    ensures CallOk(n, id)
  {
    if step.HandlerReturns? && step.task in y.server.running {
      SaysNoAnswer(y.down, [End(y.server.running[step.task])], id);
    } else if step.HandlerEmits? && step.task in y.server.running {
      SaysNoAnswer(y.down, [Event(y.server.running[step.task])], id);
    }
  }

  lemma CallStep(y: System, step: Step, n: System, id: Id)
    requires CallOk(y, id) && Unhindered(y.client) && n == Do(y, step)
    ensures CallOk(n, id)
  {
    match step
    case UserSubscribes => SubscribePlaces(y, n, id);
    case UserCloses(sub) => CloseSubPlaces(y, sub, n, id);
    case UserCalls(immediate) => CallPlaces(y, immediate, n, id);
    case TimesOut(settled) => SettlePlaces(y, settled, n, id);
    case ResponseArrives => if y.down != [] { ReceivePlaces(y, n, id); }
    case OnOpenSettles => if y.client.opening { OpenedPlaces(y, n, id); }
    case SocketCloses =>
    case Reconnects => NewConnection(y, n, id);
    case RequestArrives(endsAtOnce) =>
      if y.up != [] {
        var (server, responses) := OnMessage(y.server, y.up[0], endsAtOnce);
        MessageCalls(y.server, y.up[0], endsAtOnce);
        RequestPlaces(y, server, responses, n, id);
      }
    case _ => ServerPlaces(y, step, n, id);
  }

  lemma {:induction false} PlayCalls(steps: seq<Step>, id: Id)
    ensures CallOk(Play(steps), id) && Unhindered(Play(steps).client)
  {
    if steps != [] {
      PlayCalls(steps[..|steps| - 1], id);
      PlayOk(steps[..|steps| - 1]);
      PlayStep(steps);
      CallStep(Play(steps[..|steps| - 1]), steps[|steps| - 1], Play(steps), id);
      UnhinderedStep(Play(steps[..|steps| - 1]), steps[|steps| - 1], Play(steps));
    }
  }

  predicate AtRest(y: System)
  {
    y.client.ready && y.server.open && y.up == [] && y.down == []
  }

  /** Once the session is open, ready and drained, the only promises pending are those whose calls the server still works
      on: every call has got there, and whatever was answered has settled its promise. */
  lemma OnlyUnansweredPend(steps: seq<Step>, id: Id)
    requires AtRest(Play(steps)) && id in Play(steps).client.pending
    ensures id in Play(steps).server.calls
  {
    PlayCalls(steps, id);
  }

  /** The call is neither to be sent nor worked on any more. */
  predicate Over(y: System, id: Id)
  {
    id < y.client.next && Times(y.client.queue, id) == 0 && Times(y.up, id) == 0 && id !in y.server.calls
  }

  lemma OverStep(y: System, step: Step, n: System, id: Id)
    requires Over(y, id) && n == Do(y, step)
    ensures Over(n, id)
  {
    match step
    case UserSubscribes => UserOver(y, step, n, id);
    case UserCalls(immediate) => SendsOver(y, immediate, n, id);
    case UserCloses(_) => UserOver(y, step, n, id);
    case OnOpenSettles => NoTimes(Subscribes(y.client.subs), id);
    case RequestArrives(endsAtOnce) =>
      if y.up != [] {
        assert y.up == [y.up[0]] + y.up[1..];
        MessageCalls(y.server, y.up[0], endsAtOnce);
      }
    case _ => OtherOver(y, step, n, id);
  }

  lemma UserOver(y: System, step: Step, n: System, id: Id)
    requires Over(y, id) && n == Do(y, step) && (step.UserSubscribes? || step.UserCloses?)
    ensures Over(n, id)
  {
  }

  lemma SendsOver(y: System, immediate: bool, n: System, id: Id)
    requires Over(y, id) && n == CallNew(y, immediate)
    ensures Over(n, id)
  {
  }

  lemma OtherOver(y: System, step: Step, n: System, id: Id)
    requires Over(y, id) && n == Do(y, step)
    requires !step.UserSubscribes? && !step.UserCalls? && !step.UserCloses? && !step.OnOpenSettles? && !step.RequestArrives?
    ensures Over(n, id)
  {
  }

  lemma {:induction false} StaysOver(from: seq<Step>, more: seq<Step>, id: Id)
    requires Over(Play(from), id)
    ensures Over(Play(from + more), id)
  {
    if more == [] {
      assert from + more == from;
    } else {
      var init := more[..|more| - 1];
      StaysOver(from, init, id);
      PlayOn(from, more);
      OverStep(Play(from + init), more[|more| - 1], Play(from + more), id);
    }
  }

  /** So an answer settles its promise: whatever happens after the server gave it, the promise is not pending once the
      session is drained. */
  lemma AnswerSettles(before: seq<Step>, id: Id, more: seq<Step>)
    requires Play(before).server.open && id in Play(before).server.calls
    requires AtRest(Play(before + [CallAnswers(id)] + more))
    ensures var c := Play(before + [CallAnswers(id)] + more).client; id !in c.pending && id < c.next
  {
    var answered := before + [CallAnswers(id)];
    PlayCalls(before, id);
    PlayOn(before, [CallAnswers(id)]);
    assert before + [] == before;
    StaysOver(answered, more, id);
    if id in Play(answered + more).client.pending {
      OnlyUnansweredPend(answered + more, id);
    }
  }

  // ---- Every event is heard ----

  function Heard(history: seq<Happening>, id: Id): nat
  {
    multiset(history)[OnEvent(id)]
  }

  function Coming(down: seq<Response>, id: Id): nat
  {
    multiset(down)[Event(id)]
  }

  /** Whether a step gives up a connection, with all that was on it, for another or none. */
  predicate DropsConnection(y: System, step: Step)
  {
    match step
    case SocketCloses => !y.client.state.Closed? && !y.client.opening
    case UserSubscribes => y.client.state.Closed?
    case UserCalls(_) => y.client.state.Closed?
    case Reconnects => y.client.state.Closed?
    case _ => false
  }

  /** The events of a subscription that its handler emitted over a run. */
  function Emitted(steps: seq<Step>, id: Id): nat
  {
    if steps == [] then 0 else
    var init, last := steps[..|steps| - 1], steps[|steps| - 1];
    var running := Play(init).server.running;
    Emitted(init, id) + if last.HandlerEmits? && last.task in running && running[last.task] == id then 1 else 0
  }

  /** Those that were lost with a connection. */
  function LostEvents(steps: seq<Step>, id: Id): nat
  {
    if steps == [] then 0 else
    var init, last := steps[..|steps| - 1], steps[|steps| - 1];
    LostEvents(init, id) + if DropsConnection(Play(init), last) then Coming(Play(init).down, id) else 0
  }

  predicate HearsAll(y: System, id: Id, emitted: nat, lost: nat)
  {
    && (id in y.client.subs || id >= y.client.next ==> Heard(y.client.history, id) + Coming(y.down, id) + lost == emitted)
    && (id >= y.client.next ==> emitted == 0)
  }

  lemma SaysOther(down: seq<Response>, response: Response, id: Id)
    ensures Coming(down + [response], id) == Coming(down, id) + if response == Event(id) then 1 else 0
  {
  }

  lemma EmitHears(y: System, task: Instance, n: System, id: Id, emitted: nat, lost: nat)
    requires HearsAll(y, id, emitted, lost) && task in y.server.running && n == Do(y, HandlerEmits(task))
    requires id >= y.client.next ==> y.server.running[task] != id
    ensures HearsAll(n, id, emitted + (if y.server.running[task] == id then 1 else 0), lost)
  {
    SaysOther(y.down, Event(y.server.running[task]), id);
  }

  lemma ReceiveHears(y: System, n: System, id: Id, emitted: nat, lost: nat)
    requires HearsAll(y, id, emitted, lost) && y.down != [] && n == Receive(y.(down := y.down[1..]), y.down[0])
    ensures HearsAll(n, id, emitted, lost)
  {
    assert y.down == [y.down[0]] + y.down[1..];
    assert Coming(y.down, id) == Coming(y.down[1..], id) + if y.down[0] == Event(id) then 1 else 0;
    if y.down[0].End? {
      WithoutIs(y.client.subs, y.down[0].id);
    }
  }

  lemma DropHears(y: System, step: Step, n: System, id: Id, emitted: nat, lost: nat)
    requires HearsAll(y, id, emitted, lost) && DropsConnection(y, step) && n == Do(y, step)
    ensures HearsAll(n, id, emitted, lost + Coming(y.down, id))
  {
    assert Coming([Hello], id) == 0;
    if step.SocketCloses? {
      var settles := Settles(y.client.pending);
      assert OnEvent(id) !in multiset(settles);
      assert Heard(n.client.history, id) == Heard(y.client.history, id);
    }
  }

  lemma SameHears(y: System, n: System, id: Id, emitted: nat, lost: nat)
    requires HearsAll(y, id, emitted, lost)
    requires n.client.history == y.client.history && Coming(n.down, id) == Coming(y.down, id)
    requires n.client.next >= y.client.next && (id in n.client.subs ==> id in y.client.subs || id == y.client.next)
    ensures HearsAll(n, id, emitted, lost)
  {
  }

  lemma UserHears(y: System, step: Step, n: System, id: Id, emitted: nat, lost: nat)
    requires HearsAll(y, id, emitted, lost) && !DropsConnection(y, step) && n == Do(y, step)
    requires step.UserSubscribes? || step.UserCalls? || step.Reconnects? || step.OnOpenSettles?
    ensures HearsAll(n, id, emitted, lost)
  {
    SameHears(y, n, id, emitted, lost);
  }

  lemma EndingHears(y: System, step: Step, n: System, id: Id, emitted: nat, lost: nat)
    requires HearsAll(y, id, emitted, lost) && n == Do(y, step) && (step.UserCloses? || step.TimesOut?)
    ensures HearsAll(n, id, emitted, lost)
  {
    if step.UserCloses? {
      WithoutIs(y.client.subs, step.id);
    }
  }

  lemma SaysNoEvent(down: seq<Response>, responses: seq<Response>, id: Id)
    requires forall response | response in responses :: !response.Event?
    ensures Coming(down + responses, id) == Coming(down, id)
  {
    assert Event(id) in responses ==> !Event(id).Event?;
    assert multiset(responses)[Event(id)] == 0;
  }

  lemma ServerHears(y: System, step: Step, n: System, id: Id, emitted: nat, lost: nat)
    requires HearsAll(y, id, emitted, lost) && n == Do(y, step)
    requires step.RequestArrives? || step.HandlerReturns? || step.CallAnswers? || step.ServerCloses?
    ensures HearsAll(n, id, emitted, lost)
  {
    match step
    case RequestArrives(endsAtOnce) =>
      if y.up != [] {
        MessageCalls(y.server, y.up[0], endsAtOnce);
        SaysNoEvent(y.down, OnMessage(y.server, y.up[0], endsAtOnce).1, id);
      }
    case HandlerReturns(task) => if task in y.server.running { SaysNoEvent(y.down, [End(y.server.running[task])], id); }
    case CallAnswers(call) => SaysNoEvent(y.down, [Answer(call)], id);
    case _ =>
  }

  lemma HearStep(y: System, step: Step, n: System, id: Id, emitted: nat, lost: nat)
    requires HearsAll(y, id, emitted, lost) && !DropsConnection(y, step) && !step.HandlerEmits? && n == Do(y, step)
    ensures HearsAll(n, id, emitted, lost)
  {
    match step
    case UserCloses(_) => EndingHears(y, step, n, id, emitted, lost);
    case TimesOut(_) => EndingHears(y, step, n, id, emitted, lost);
    case ResponseArrives => if y.down != [] { ReceiveHears(y, n, id, emitted, lost); }
    case UserSubscribes => UserHears(y, step, n, id, emitted, lost);
    case UserCalls(_) => UserHears(y, step, n, id, emitted, lost);
    case Reconnects => UserHears(y, step, n, id, emitted, lost);
    case OnOpenSettles => UserHears(y, step, n, id, emitted, lost);
    case SocketCloses =>
    case _ => ServerHears(y, step, n, id, emitted, lost);
  }

  lemma {:induction false} PlayHears(steps: seq<Step>, id: Id)
    ensures HearsAll(Play(steps), id, Emitted(steps, id), LostEvents(steps, id))
  {
    if steps != [] {
      var init, last := steps[..|steps| - 1], steps[|steps| - 1];
      PlayHears(init, id);
      PlayOk(init);
      PlayStep(steps);
      var y, n, emitted, lost := Play(init), Play(steps), Emitted(init, id), LostEvents(init, id);
      if last.HandlerEmits? && last.task in y.server.running {
        assert IdOk(y, y.server.running[last.task]);
        EmitHears(y, last.task, n, id, emitted, lost);
      } else if DropsConnection(y, last) {
        DropHears(y, last, n, id, emitted, lost);
      } else if !last.HandlerEmits? {
        HearStep(y, last, n, id, emitted, lost);
      }
    }
  }

  /** The callback of an open subscription has been run once for every event its handlers have emitted, but for those still
      on their way and those that were on a connection when it was given up. */
  lemma EveryEventHeard(steps: seq<Step>, id: Id)
    requires id in Play(steps).client.subs
    ensures Heard(Play(steps).client.history, id) + Coming(Play(steps).down, id) + LostEvents(steps, id) == Emitted(steps, id)
  {
    PlayHears(steps, id);
  }

  // ---- The code ----

  /** The browser's `Gateway`; `socket` is what it has sent on the current connection and the server has yet to
      read. Each method is proved to be its step of the system, whatever the rest of the system is. */
  class Gateway {
    var state: Connection
    var opening: bool
    var ready: bool
    var queue: seq<Request>
    var pending: seq<Id>
    var subs: seq<Id>
    var next: Id
    var socket: seq<Request>
    ghost var history: seq<Happening>

    ghost predicate Is(y: System)
      reads this
    {
      y.client == Client(state, opening, ready, queue, pending, subs, next, history) && y.up == socket
    }

    constructor ()
      ensures Is(START)
    {
      state, opening, ready, queue, pending, subs, next, socket, history := Closed, false, false, [], [], [], 0, [], [];
    }

    method Open(ghost y: System)
      requires Is(y)
      modifies this
      ensures Is(Connect(y))
    {
      if !state.Closed? {
        return;
      }
      state, opening, ready := Connecting, false, false;
      socket := [];
    }

    method Transmit(request: Request, immediate: bool, ghost y: System)
      requires Is(y)
      modifies this
      ensures Is(Send(y, request, immediate))
    {
      if state.Open? && (ready || immediate) {
        socket := socket + [request];
      } else {
        queue := queue + [request];
      }
    }

    method CallMethod(immediate: bool, ghost y: System) returns (id: Id)
      requires Is(y)
      modifies this
      ensures Is(Do(y, UserCalls(immediate)))
    {
      Open(y);
      id := next;
      next := next + 1;
      pending := pending + [id];
      ghost var connected := Connect(y);
      Transmit(Call(id), immediate, connected.(client := connected.client.(next := id + 1, pending := connected.client.pending + [id])));
    }

    method SubscribeTo(ghost y: System) returns (id: Id)
      requires Is(y)
      modifies this
      ensures Is(Do(y, UserSubscribes)) && id in subs
    {
      id := next;
      next := next + 1;
      subs := subs + [id];
      ghost var added := y.(client := y.client.(next := id + 1, subs := y.client.subs + [id]));
      if state.Open? && ready {
        Transmit(Subscribe(id), false, added);
      } else {
        Open(added);
      }
    }

    method CloseSubscription(id: Id, ghost y: System)
      requires Is(y)
      modifies this
      ensures Is(Do(y, UserCloses(id))) && id !in subs
    {
      if id !in subs {
        return;
      }
      WithoutIs(subs, id);
      subs := Without(subs, id);
      history := history + [UserClosed(id)];
      if state.Open? {
        Transmit(Unsubscribe(id), false, Note(y.(client := y.client.(subs := Without(y.client.subs, id))), UserClosed(id)));
      }
    }

    method OnTimeout(id: Id, ghost y: System)
      requires Is(y)
      modifies this
      ensures Is(Do(y, TimesOut(id))) && id !in pending
    {
      WithoutIs(pending, id);
      if id in pending {
        pending := Without(pending, id);
        history := history + [Settled(id)];
      }
    }

    method OnResponse(response: Response, ghost y: System)
      requires Is(y) && y.down != [] && y.down[0] == response
      modifies this
      ensures Is(Do(y, ResponseArrives))
    {
      match response
      case Hello =>
        state, opening := Connection.Open, true;
      case Answer(id) =>
        if id in pending {
          pending := Without(pending, id);
          history := history + [Settled(id)];
        }
      case Event(id) =>
        if id in subs {
          history := history + [OnEvent(id)];
        }
      case End(id) =>
        if id in subs {
          subs := Without(subs, id);
          history := history + [OnEnd(id)];
        }
    }

    /** What follows `onOpen`: the queue is flushed, and each subscription made again. */
    method OnReady(ghost y: System)
      requires Is(y) && opening
      modifies this
      ensures Is(Do(y, OnOpenSettles))
    {
      opening, ready := false, true;
      socket := socket + queue;
      queue := [];
      ghost var flushed := socket;
      var live := subs;
      for i := 0 to |live|
        invariant socket == flushed + Subscribes(live)[..i]
        invariant Is(Opened(y).(up := socket))
      {
        assert Subscribes(live)[..i + 1] == Subscribes(live)[..i] + [Subscribe(live[i])];
        socket := socket + [Subscribe(live[i])];
      }
      assert Subscribes(live)[..|live|] == Subscribes(live);
    }

    method OnSocketClose(ghost y: System)
      requires Is(y) && !state.Closed? && !opening
      modifies this
      ensures Is(Do(y, SocketCloses))
    {
      state, ready, socket := Closed, false, [];
      ghost var before := history;
      var lost := pending;
      pending := [];
      for i := 0 to |lost|
        invariant history == before + Settles(lost)[..i]
        invariant Is(Disconnected(y).(client := Disconnected(y).client.(history := history)))
      {
        assert Settles(lost)[..i + 1] == Settles(lost)[..i] + [Settled(lost[i])];
        history := history + [Settled(lost[i])];
      }
      assert Settles(lost)[..|lost|] == Settles(lost);
    }
  }

  /** The server's side of one connection. */
  class Handler {
    var open: bool
    var running: map<Instance, Id>
    var handles: map<Id, Instance>
    var spawned: Instance
    var calls: set<Id>

    ghost function Model(): Conn
      reads this
    {
      Conn(open, running, handles, spawned, calls)
    }

    constructor ()
      ensures Model() == FRESH
    {
      open, running, handles, spawned, calls := true, map[], map[], 0, {};
    }

    method Receive(request: Request, endsAtOnce: bool) returns (responses: seq<Response>)
      modifies this
      ensures (Model(), responses) == OnMessage(old(Model()), request, endsAtOnce)
    {
      responses := [];
      if !open {
        return;
      }
      match request
      case Call(id) =>
        calls := calls + {id};
      case Subscribe(id) =>
        var task := spawned;
        spawned := spawned + 1;
        if endsAtOnce {
          handles := handles - {id};
          responses := [End(id)];
        } else {
          running := running[task := id];
        }
        if id in handles {
          running := running - {handles[id]};
        }
        handles := handles[id := task];
      case Unsubscribe(id) =>
        if id in handles {
          running := running - {handles[id]};
          handles := handles - {id};
        }
        responses := [End(id)];
    }

    method Return(task: Instance) returns (responses: seq<Response>)
      requires task in running
      modifies this
      ensures (Model(), responses) == TaskEnds(old(Model()), task)
    {
      var id := running[task];
      running := running - {task};
      handles := handles - {id};
      responses := [End(id)];
    }

    /** `cancel_all` leaves no task of the connection running. */
    method Close()
      requires ConnOk(Model())
      modifies this
      ensures Model() == OnClose(old(Model())) && running == map[]
    {
      CloseConn(Model());
      open := false;
      running := running - handles.Values;
      handles := map[];
    }
  }
}
