/** The upload protocol: the browser's chunk loop (`transfer` in create/uploads.ts) and the upload proxy's socket
    (src/gateway/upload.rs), joined by two FIFO channels. */
module Upload {
  import opened Text

  type Byte = b: int | 0 <= b < 256

  // ---- The server ----

  datatype Reason = NotPrepared | DataTooEarly | TooMuchData | ProxyRefused | EndedShort | BrowserClosed | Elsewhere

  datatype SessionState = Preparing | Uploading(sent: nat) | Finished | Failed(reason: Reason)

  /** One socket's `Active` and its session. `forwarded` is what the upstream body has accepted. */
  datatype Server = Server(
    size: nat, session: SessionState, prepared: bool, upstream: bool, received: nat, finished: bool, open: bool,
    forwarded: seq<Byte>)

  datatype Message = Binary(chunk: seq<Byte>) | DoneText

  datatype Reply = Ready | Ack(bytes: nat) | Done | Error(reason: Reason)

  /** `UploadSession::fail`: unless already finished or failed. */
  function FailSession(session: SessionState, reason: Reason): SessionState
  {
    if session.Finished? || session.Failed? then session else Failed(reason)
  }

  function Fail(s: Server, reason: Reason): (Server, seq<Reply>)
  {
    (s.(session := FailSession(s.session, reason)), [Error(reason)])
  }

  /** `finish`: the body ends, and the proxy gives its verdict. */
  function Finish(s: Server, verdict: bool): (Server, seq<Reply>)
  {
    if !s.upstream then (s, []) else
    var ended := s.(upstream := false, finished := true);
    if verdict then (ended.(session := Finished), [Done]) else Fail(ended, ProxyRefused)
  }

  /** What waits for CDI and opens the upload request. */
  function Prepare(s: Server, ok: bool): (Server, seq<Reply>)
  {
    if s.prepared || !s.open then (s, [])
    else if ok then (s.(prepared := true, upstream := true, session := Uploading(0)), [Ready])
    else Fail(s.(prepared := true), NotPrepared)
  }

  /** `on_message`; `accepts` says whether the proxy still takes the body, `verdict` whether it answers 2xx. */
  function OnMessage(s: Server, message: Message, accepts: bool, verdict: bool): (Server, seq<Reply>)
  {
    if !s.open || s.finished then (s, []) else
    match message
    case Binary(chunk) =>
      if !s.upstream then Fail(s, DataTooEarly)
      else if s.received + |chunk| > s.size then Fail(s, TooMuchData)
      else if !accepts then Finish(s, verdict)
      else
        var sent := s.received + |chunk|;
        var taken := s.(received := sent, session := Uploading(sent), forwarded := s.forwarded + chunk);
        if sent == s.size then
          var (ended, replies) := Finish(taken, verdict);
          (ended, [Ack(sent)] + replies)
        else (taken, [Ack(sent)])
    case DoneText =>
      if s.received != s.size then Fail(s, EndedShort) else Finish(s, verdict)
  }

  function OnServerClose(s: Server): Server
  {
    if !s.open then s
    else if s.finished then s.(open := false, prepared := true)
    else s.(open := false, prepared := true, upstream := false, session := FailSession(s.session, BrowserClosed))
  }

  /** What CDI's proxy is taken to promise: a 2xx answer only to a body of the declared length. */
  predicate Truthful(s: Server, verdict: bool)
  {
    verdict ==> |s.forwarded| == s.size
  }

  /** What the server keeps, whoever is at the other end. */
  predicate ServerOk(s: Server)
  {
    && |s.forwarded| == s.received <= s.size
    && (s.session.Finished? ==> s.received == s.size && s.finished)
    && (s.finished ==> !s.upstream && s.prepared)
    && (!s.open ==> !s.upstream)
    && (s.upstream ==> s.prepared)
    && (s.received > 0 ==> s.prepared)
    && (s.finished || !s.open ==> Concluded(s.session))
  }

  predicate Concluded(session: SessionState)
  {
    session.Finished? || session.Failed?
  }

  /** One message, of any client. */
  lemma MessageSafe(s: Server, message: Message, accepts: bool, verdict: bool)
    requires ServerOk(s)
    requires Truthful(OnMessage(s, message, accepts, verdict).0, verdict)
    ensures ServerOk(OnMessage(s, message, accepts, verdict).0)
    ensures s.forwarded <= OnMessage(s, message, accepts, verdict).0.forwarded
    ensures Done in OnMessage(s, message, accepts, verdict).1 ==>
              OnMessage(s, message, accepts, verdict).0.received == s.size
  {
  }

  // ---- The server, whoever the client is ----

  datatype ServerEvent =
    | Prepares(ok: bool)
    | Receives(message: Message, accepts: bool, verdict: bool)
    | Closes
    | FailsElsewhere

  function ServerStep(s: Server, event: ServerEvent): (Server, seq<Reply>)
  {
    match event
    case Prepares(ok) => Prepare(s, ok)
    case Receives(message, accepts, verdict) =>
      var (n, replies) := OnMessage(s, message, accepts, verdict);
      if Truthful(n, verdict) then (n, replies) else (s, [])
    case Closes => (OnServerClose(s), [])
    case FailsElsewhere => (s.(session := FailSession(s.session, Elsewhere)), [])
  }

  function Fresh(size: nat): Server
  {
    Server(size, Preparing, false, false, 0, false, true, [])
  }

  /** The server after these events, and everything it has replied. */
  function Serve(size: nat, events: seq<ServerEvent>): (Server, seq<Reply>)
  {
    if events == [] then (Fresh(size), []) else
    var (s, replies) := Serve(size, events[..|events| - 1]);
    var (n, more) := ServerStep(s, events[|events| - 1]);
    (n, replies + more)
  }

  /** Nothing follows the news that it is done, and acks only grow. */
  predicate InOrder(replies: seq<Reply>)
  {
    forall j, k | 0 <= j < k < |replies| ::
      !replies[j].Done? && (replies[j].Ack? && replies[k].Ack? ==> replies[j].bytes <= replies[k].bytes)
  }

  predicate Replied(s: Server, replies: seq<Reply>)
  {
    && InOrder(replies)
    && (forall reply | reply in replies && reply.Ack? :: reply.bytes <= s.received)
    && (Done in replies ==> s.finished && s.received == s.size)
    && (Done in replies <==> s.session.Finished?)
  }

  lemma ServerStepSafe(s: Server, event: ServerEvent)
    requires ServerOk(s)
    ensures var (n, more) := ServerStep(s, event);
            && ServerOk(n) && n.size == s.size && s.forwarded <= n.forwarded && InOrder(more)
            && (s.finished ==> more == [] && n.finished && n.received == s.received)
            && (forall reply | reply in more && reply.Ack? :: s.received <= reply.bytes <= n.received)
            && (Done in more ==> n.finished && n.received == n.size)
            && (s.session.Finished? || Done in more <==> n.session.Finished?)
  {
    match event
    case Receives(message, accepts, verdict) =>
      var (n, more) := OnMessage(s, message, accepts, verdict);
      if Truthful(n, verdict) {
        MessageSafe(s, message, accepts, verdict);
      }
    case _ =>
  }

  lemma RepliedMore(s: Server, replies: seq<Reply>, n: Server, more: seq<Reply>)
    requires Replied(s, replies) && InOrder(more) && s.received <= n.received && n.size == s.size
    requires s.finished ==> more == [] && n.finished && n.received == s.received
    requires forall reply | reply in more && reply.Ack? :: s.received <= reply.bytes <= n.received
    requires Done in more ==> n.finished && n.received == n.size
    requires s.session.Finished? || Done in more <==> n.session.Finished?
    ensures Replied(n, replies + more)
  {
    var all := replies + more;
    forall j, k | 0 <= j < k < |all|
      ensures !all[j].Done? && (all[j].Ack? && all[k].Ack? ==> all[j].bytes <= all[k].bytes)
    {
      if k < |replies| {
        assert all[j] == replies[j] && all[k] == replies[k];
      } else if j < |replies| {
        assert all[j] == replies[j] && replies[j] in replies;
        assert all[k] == more[k - |replies|] && all[k] in more;
      } else {
        assert all[j] == more[j - |replies|] && all[k] == more[k - |replies|];
      }
    }
  }

  /** Whatever any client sends, and however preparing, closing and failing come in between: no more than was declared is
      forwarded, acks count what was and only grow, and the upload is called finished, once and at the end, only with
      all of it forwarded. */
  lemma {:induction false} ServerSafe(size: nat, events: seq<ServerEvent>)
    ensures var (s, replies) := Serve(size, events);
            && ServerOk(s) && s.size == size && |s.forwarded| == s.received <= size
            && (s.session.Finished? ==> s.received == size)
            && (s.finished || !s.open ==> s.session.Finished? || s.session.Failed?)
            && (Done in replies <==> s.session.Finished?)
            && Replied(s, replies)
  {
    if events != [] {
      ServerSafe(size, events[..|events| - 1]);
      var (s, replies) := Serve(size, events[..|events| - 1]);
      var (n, more) := ServerStep(s, events[|events| - 1]);
      ServerStepSafe(s, events[|events| - 1]);
      RepliedMore(s, replies, n, more);
    }
  }

  // ---- The browser ----

  datatype Status = Waiting | Sending | Processing | Completed | Erred | Cancelled

  /** Where the chunk loop is. */
  datatype Phase = NotStarted | Reading(offset: nat) | Awaiting(offset: nat) | Ended

  datatype Client = Client(status: Status, sent: nat, phase: Phase, open: bool)

  function Min(a: nat, b: nat): nat { if a < b then a else b }

  /** `file.slice(offset, min(size, offset + chunkSize))` */
  function ChunkAt(file: seq<Byte>, size: nat, offset: nat): seq<Byte>
    requires offset <= |file|
  {
    file[offset..Min(|file|, offset + size)]
  }

  /** The loop's guard and the check after it. */
  function LoopTop(c: Client, total: nat, offset: nat): Client
  {
    if offset < total && c.open && c.status.Sending? then c.(phase := Reading(offset)) else c.(phase := Ended)
  }

  function FailJob(c: Client): Client
  {
    if c.status in {Completed, Cancelled, Erred} then c
    else c.(status := Erred, phase := if c.phase.Awaiting? then Ended else c.phase)
  }

  /** `socket.onmessage`; `processed` says how the processing of a finished upload ends. */
  function OnReply(c: Client, total: nat, size: nat, reply: Reply, processed: bool): Client
  {
    match reply
    case Error(_) => FailJob(c)
    case Ack(bytes) =>
      if c.phase.Awaiting? then LoopTop(c.(sent := bytes), total, c.phase.offset + size) else c
    case Done =>
      if processed then c.(sent := total, status := Completed)
      else FailJob(c.(sent := total, status := Processing))
    case Ready =>
      LoopTop(c.(status := Sending), total, 0)
  }

  function OnClientClose(c: Client): Client
  {
    var closed := c.(open := false);
    if c.status.Sending? || c.status.Waiting? then FailJob(closed) else closed
  }

  function Cancel(c: Client): Client
  {
    if c.status.Sending? || c.status.Waiting? then c.(status := Cancelled, open := false) else c
  }

  // ---- The two together ----

  datatype System = System(client: Client, up: seq<Message>, down: seq<Reply>, server: Server)

  datatype Event =
    | PrepareEnds(ok: bool)
    | ReplyArrives(processed: bool)
    | ChunkRead
    | ReadFails
    | MessageArrives(accepts: bool, verdict: bool)
    | ClientCloses
    | ServerCloses
    | UserCancels
    | SessionFailsElsewhere

  function Start(total: nat): System
  {
    System(Client(Waiting, 0, NotStarted, true), [], [], Fresh(total))
  }

  function Step(file: seq<Byte>, size: nat, y: System, event: Event): System
  {
    match event
    case PrepareEnds(ok) =>
      var (server, replies) := Prepare(y.server, ok);
      y.(server := server, down := y.down + replies)
    case ReplyArrives(processed) =>
      if y.down == [] then y
      else y.(client := OnReply(y.client, |file|, size, y.down[0], processed), down := y.down[1..])
    case ChunkRead =>
      if !y.client.phase.Reading? || y.client.phase.offset > |file| then y else
      var offset := y.client.phase.offset;
      y.(client := y.client.(phase := Awaiting(offset)),
         up := if y.client.open then y.up + [Binary(ChunkAt(file, size, offset))] else y.up)
    case ReadFails =>
      if y.client.phase.Reading? then y.(client := y.client.(phase := Ended)) else y
    case MessageArrives(accepts, verdict) =>
      if y.up == [] then y else
      var (server, replies) := OnMessage(y.server, y.up[0], accepts, verdict);
      if Truthful(server, verdict) then y.(up := y.up[1..], server := server, down := y.down + replies) else y
    case ClientCloses => y.(client := OnClientClose(y.client))
    case ServerCloses => y.(server := OnServerClose(y.server))
    case UserCancels => y.(client := Cancel(y.client))
    case SessionFailsElsewhere => y.(server := y.server.(session := FailSession(y.server.session, Elsewhere)))
  }

  function Acks(down: seq<Reply>): seq<nat>
  {
    if down == [] then [] else (if down[0].Ack? then [down[0].bytes] else []) + Acks(down[1..])
  }

  function Readies(down: seq<Reply>): nat
  {
    if down == [] then 0 else (if down[0].Ready? then 1 else 0) + Readies(down[1..])
  }

  lemma {:induction false} AcksAppend(a: seq<Reply>, b: seq<Reply>)
    ensures Acks(a + b) == Acks(a) + Acks(b)
  {
    if a == [] {
      assert a + b == b;
    } else {
      AcksAppend(a[1..], b);
      assert (a + b)[0] == a[0] && (a + b)[1..] == a[1..] + b;
      var head := if a[0].Ack? then [a[0].bytes] else [];
      assert head + (Acks(a[1..]) + Acks(b)) == head + Acks(a[1..]) + Acks(b);
    }
  }

  lemma {:induction false} ReadiesAppend(a: seq<Reply>, b: seq<Reply>)
    ensures Readies(a + b) == Readies(a) + Readies(b)
  {
    if a == [] {
      assert a + b == b;
    } else {
      ReadiesAppend(a[1..], b);
      assert (a + b)[0] == a[0] && (a + b)[1..] == a[1..] + b;
    }
  }

  lemma OfTwo(x: Reply, y: Reply)
    ensures Acks([x]) == (if x.Ack? then [x.bytes] else []) && Readies([x]) == (if x.Ready? then 1 else 0)
    ensures Acks([x, y]) == Acks([x]) + Acks([y]) && Readies([x, y]) == Readies([x]) + Readies([y])
  {
    assert [x][1..] == [] && [x, y] == [x] + [y];
    AcksAppend([x], [y]);
    ReadiesAppend([x], [y]);
  }

  /** The server has forwarded a prefix of the file; at most one chunk is on its way or unacknowledged, and it is
      the next one. */
  predicate InStep(file: seq<Byte>, size: nat, y: System)
  {
    var r, phase, acks := y.server.received, y.client.phase, Acks(y.down);
    && y.server.size == |file| && r <= |file| && y.server.forwarded == file[..r]
    && |y.up| + |acks| <= 1
    && (y.up != [] ==> r < |file| && y.up[0] == Binary(ChunkAt(file, size, r)) && (phase.Awaiting? ==> phase.offset == r))
    && (acks != [] ==> acks[0] == r && (phase.Awaiting? ==> r == Min(|file|, phase.offset + size)))
    && (phase.Reading? ==> y.up == [] && acks == [] && phase.offset == r < |file|)
    && (phase.NotStarted? ==> y.up == [] && acks == [] && r == 0)
  }

  /** The loop is started once, by a server that is prepared. */
  predicate StartedOnce(y: System)
  {
    var started := Readies(y.down) + if y.client.phase.NotStarted? then 0 else 1;
    && started + (if y.server.prepared then 0 else 1) <= 1
    && (started == 1 ==> y.server.upstream || y.server.finished || !y.server.open)
  }

  predicate Unfounded(reason: Reason)
  {
    reason.TooMuchData? || reason.DataTooEarly? || reason.EndedShort?
  }

  /** The errors a faithful client cannot cause are never reported, and success only for the whole file. */
  predicate Honest(file: seq<Byte>, y: System)
  {
    && (y.server.session.Failed? ==> !Unfounded(y.server.session.reason))
    && (forall reply | reply in y.down && reply.Error? :: !Unfounded(reply.reason))
    && (Done in y.down ==> y.server.received == |file|)
    && (y.client.status in {Processing, Completed} ==> y.server.received == |file|)
    && (y.client.sent <= y.server.received)
  }

  predicate Good(file: seq<Byte>, size: nat, y: System)
  {
    ServerOk(y.server) && InStep(file, size, y) && StartedOnce(y) && Honest(file, y)
  }

  lemma StartGood(file: seq<Byte>, size: nat)
    ensures Good(file, size, Start(|file|))
  {
  }

  lemma PrepareGood(file: seq<Byte>, size: nat, y: System, ok: bool)
    requires Good(file, size, y)
    ensures Good(file, size, Step(file, size, y, PrepareEnds(ok)))
  {
    var (server, replies) := Prepare(y.server, ok);
    if replies != [] {
      OfTwo(replies[0], replies[0]);
      assert replies == [replies[0]];
      AcksAppend(y.down, replies);
      ReadiesAppend(y.down, replies);
    } else {
      assert y.down + replies == y.down;
    }
  }

  lemma ReplyInStep(file: seq<Byte>, size: nat, y: System, processed: bool)
    requires InStep(file, size, y) && StartedOnce(y) && size > 0
    ensures InStep(file, size, Step(file, size, y, ReplyArrives(processed)))
  {
    if y.down != [] {
      assert y.down == [y.down[0]] + y.down[1..];
    }
  }

  lemma ReplyStarted(file: seq<Byte>, size: nat, y: System, processed: bool)
    requires StartedOnce(y)
    ensures StartedOnce(Step(file, size, y, ReplyArrives(processed)))
  {
  }

  lemma ReplyHonest(file: seq<Byte>, size: nat, y: System, processed: bool)
    requires InStep(file, size, y) && Honest(file, y)
    ensures Honest(file, Step(file, size, y, ReplyArrives(processed)))
  {
    if y.down != [] {
      assert y.down[0] in y.down;
    }
  }

  lemma ReplyGood(file: seq<Byte>, size: nat, y: System, processed: bool)
    requires Good(file, size, y) && size > 0
    ensures Good(file, size, Step(file, size, y, ReplyArrives(processed)))
  {
    ReplyInStep(file, size, y, processed);
    ReplyStarted(file, size, y, processed);
    ReplyHonest(file, size, y, processed);
  }

  /** What the server answers to the next chunk: nothing if it is gone or has finished, a refusal by the proxy,
      or the ack of everything so far, followed at the end by the verdict. */
  predicate Answers(file: seq<Byte>, size: nat, s: Server, n: Server, replies: seq<Reply>)
    requires s.received <= |file|
  {
    var sent := Min(|file|, s.received + size);
    || (n == s && replies == [] && (!s.open || s.finished))
    || (n == s.(upstream := false, finished := true, session := FailSession(s.session, ProxyRefused))
        && replies == [Error(ProxyRefused)])
    || (n.received == sent && n.forwarded == s.forwarded + ChunkAt(file, size, s.received) && n.size == s.size
        && n.prepared == s.prepared && n.open == s.open
        && ((sent < |file| && n.upstream && !n.finished && n.session == Uploading(sent) && replies == [Ack(sent)])
            || (sent == |file| && n.finished && !n.upstream && n.session == Finished && replies == [Ack(sent), Done])
            || (sent == |file| && n.finished && !n.upstream && n.session == Failed(ProxyRefused)
                && replies == [Ack(sent), Error(ProxyRefused)])))
  }

  lemma ChunkAnswered(file: seq<Byte>, size: nat, s: Server, accepts: bool, verdict: bool)
    requires ServerOk(s) && s.size == |file| && s.received < |file|
    requires s.upstream || s.finished || !s.open
    requires Truthful(OnMessage(s, Binary(ChunkAt(file, size, s.received)), accepts, verdict).0, verdict)
    ensures var (n, replies) := OnMessage(s, Binary(ChunkAt(file, size, s.received)), accepts, verdict);
            Answers(file, size, s, n, replies)
  {
  }

  lemma AnswersHead(file: seq<Byte>, size: nat, s: Server, n: Server, replies: seq<Reply>)
    requires s.received <= |file| && Answers(file, size, s, n, replies)
    ensures Acks(replies) == (if replies != [] && replies[0].Ack? then [n.received] else [])
    ensures Readies(replies) == 0
  {
    if replies != [] {
      OfTwo(replies[0], replies[|replies| - 1]);
      OfTwo(replies[|replies| - 1], replies[0]);
      assert |replies| == 1 ==> replies == [replies[0]];
      assert |replies| == 2 ==> replies == [replies[0], replies[1]];
    }
  }

  lemma AnswersInStep(file: seq<Byte>, size: nat, y: System, n: Server, replies: seq<Reply>)
    requires ServerOk(y.server) && InStep(file, size, y) && y.up != [] && Answers(file, size, y.server, n, replies)
    ensures InStep(file, size, y.(up := y.up[1..], server := n, down := y.down + replies))
  {
    AcksAppend(y.down, replies);
    var r := y.server.received;
    assert file[..r] + ChunkAt(file, size, r) == file[..Min(|file|, r + size)];
    AnswersHead(file, size, y.server, n, replies);
  }

  lemma AnswersStarted(file: seq<Byte>, size: nat, y: System, n: Server, replies: seq<Reply>)
    requires InStep(file, size, y) && StartedOnce(y) && Answers(file, size, y.server, n, replies)
    requires y.up != []
    ensures StartedOnce(y.(up := y.up[1..], server := n, down := y.down + replies))
  {
    ReadiesAppend(y.down, replies);
    AnswersHead(file, size, y.server, n, replies);
  }

  lemma AnswersHonest(file: seq<Byte>, size: nat, y: System, n: Server, replies: seq<Reply>)
    requires InStep(file, size, y) && Honest(file, y) && y.up != [] && Answers(file, size, y.server, n, replies)
    ensures Honest(file, y.(up := y.up[1..], server := n, down := y.down + replies))
  {
    assert forall reply | reply in y.down + replies :: reply in y.down || reply in replies;
  }

  lemma MessageGood(file: seq<Byte>, size: nat, y: System, accepts: bool, verdict: bool)
    requires Good(file, size, y) && size > 0
    ensures Good(file, size, Step(file, size, y, MessageArrives(accepts, verdict)))
  {
    if y.up != [] {
      var (n, replies) := OnMessage(y.server, y.up[0], accepts, verdict);
      if Truthful(n, verdict) {
        ChunkAnswered(file, size, y.server, accepts, verdict);
        MessageSafe(y.server, y.up[0], accepts, verdict);
        AnswersInStep(file, size, y, n, replies);
        AnswersStarted(file, size, y, n, replies);
        AnswersHonest(file, size, y, n, replies);
      }
    }
  }

  lemma StepGood(file: seq<Byte>, size: nat, y: System, event: Event)
    requires Good(file, size, y) && size > 0
    ensures Good(file, size, Step(file, size, y, event))
  {
    match event
    case PrepareEnds(ok) => PrepareGood(file, size, y, ok);
    case ReplyArrives(processed) => ReplyGood(file, size, y, processed);
    case MessageArrives(accepts, verdict) => MessageGood(file, size, y, accepts, verdict);
    case ChunkRead =>
    case ReadFails =>
    case ClientCloses =>
    case ServerCloses =>
    case UserCancels =>
    case SessionFailsElsewhere =>
  }

  // ---- Every run ----

  function Play(file: seq<Byte>, size: nat, events: seq<Event>): (y: System)
    requires size > 0
    ensures Good(file, size, y)
  {
    if events == [] then
      StartGood(file, size);
      Start(|file|)
    else
      var before := Play(file, size, events[..|events| - 1]);
      StepGood(file, size, before, events[|events| - 1]);
      Step(file, size, before, events[|events| - 1])
  }

  /** Whatever the order of chunks, replies, failures, closes and cancels: what was forwarded is a prefix of the
      file; at most one chunk is unacknowledged; no oversize, early or short data is ever reported; and neither
      side calls the upload finished before the whole file was forwarded. */
  lemma EveryRun(file: seq<Byte>, size: nat, events: seq<Event>)
    requires size > 0
    ensures var y := Play(file, size, events);
            && y.server.forwarded == file[..y.server.received]
            && |y.up| + |Acks(y.down)| <= 1
            && (y.server.session.Failed? ==> !Unfounded(y.server.session.reason))
            && (forall reply | reply in y.down && reply.Error? :: !Unfounded(reply.reason))
            && (y.server.session.Finished? || y.client.status in {Processing, Completed} || Done in y.down
                ==> y.server.forwarded == file)
  {
    var y := Play(file, size, events);
    if y.server.received == |file| {
      assert file[..|file|] == file;
    }
  }

  /** Each ack leaves less to send than there was before it. */
  lemma EachAckAdvances(file: seq<Byte>, size: nat, events: seq<Event>, accepts: bool, verdict: bool)
    requires size > 0
    ensures var y := Play(file, size, events);
            var n := Step(file, size, y, MessageArrives(accepts, verdict));
            Acks(n.down) != Acks(y.down) ==>
              && Acks(n.down) == [n.server.received]
              && |file| - n.server.received < |file| - y.server.received
  {
    var y := Play(file, size, events);
    if y.up != [] {
      var (n, replies) := OnMessage(y.server, y.up[0], accepts, verdict);
      if Truthful(n, verdict) {
        ChunkAnswered(file, size, y.server, accepts, verdict);
        AnswersHead(file, size, y.server, n, replies);
        AcksAppend(y.down, replies);
      }
    }
  }

  // ---- The code ----

  /** One connection of `UploadProxy`: its `Active` and the session's state. */
  class ProxyConnection {
    const size: nat
    var session: SessionState
    var prepared: bool
    var upstream: bool
    var received: nat
    var finished: bool
    var open: bool
    ghost var forwarded: seq<Byte>

    ghost function Model(): Server
      reads this
    {
      Server(size, session, prepared, upstream, received, finished, open, forwarded)
    }

    constructor (size: nat)
      ensures Model() == Server(size, Preparing, false, false, 0, false, true, [])
    {
      this.size := size;
      session, prepared, upstream, received, finished, open, forwarded := Preparing, false, false, 0, false, true, [];
    }

    method FailWith(reason: Reason) returns (replies: seq<Reply>)
      modifies this
      ensures (Model(), replies) == Fail(old(Model()), reason)
    {
      if !session.Finished? && !session.Failed? {
        session := Failed(reason);
      }
      replies := [Error(reason)];
    }

    method End(verdict: bool) returns (replies: seq<Reply>)
      modifies this
      ensures (Model(), replies) == Finish(old(Model()), verdict)
    {
      if !upstream {
        return [];
      }
      upstream := false;
      finished := true;
      if verdict {
        session := Finished;
        replies := [Done];
      } else {
        replies := FailWith(ProxyRefused);
      }
    }

    method OnPrepared(ok: bool) returns (replies: seq<Reply>)
      modifies this
      ensures (Model(), replies) == Prepare(old(Model()), ok)
      ensures !old(prepared) && open ==> prepared && replies == [if ok then Ready else Error(NotPrepared)]
      ensures !old(prepared) && open ==> if ok then upstream && session == Uploading(0) else Concluded(session)
    {
      if prepared || !open {
        return [];
      }
      prepared := true;
      if ok {
        upstream := true;
        session := Uploading(0);
        replies := [Ready];
      } else {
        replies := FailWith(NotPrepared);
      }
    }

    method Handle(message: Message, accepts: bool, verdict: bool) returns (replies: seq<Reply>)
      modifies this
      ensures (Model(), replies) == OnMessage(old(Model()), message, accepts, verdict)
      ensures !old(open) || old(finished) ==> replies == []
      ensures forall reply | reply in replies && reply.Error? :: Concluded(session)
      ensures open && !old(finished) && message.Binary? ==>
                if old(upstream) && accepts && old(received) + |message.chunk| <= size
                then forwarded == old(forwarded) + message.chunk && replies != [] && replies[0] == Ack(received)
                else forwarded == old(forwarded) && |replies| == 1 && !replies[0].Ack?
      ensures open && !old(finished) && message.DoneText? && old(received) != size ==> replies == [Error(EndedShort)]
    {
      if !open || finished {
        return [];
      }
      match message
      case Binary(chunk) =>
        if !upstream {
          replies := FailWith(DataTooEarly);
          return;
        }
        if received + |chunk| > size {
          replies := FailWith(TooMuchData);
          return;
        }
        if !accepts {
          replies := End(verdict);
          return;
        }
        forwarded := forwarded + chunk;
        received := received + |chunk|;
        session := Uploading(received);
        var last: seq<Reply> := [];
        if received == size {
          last := End(verdict);
          replies := [Ack(size)] + last;
        } else {
          replies := [Ack(received)];
        }
      case DoneText =>
        if received != size {
          replies := FailWith(EndedShort);
        } else {
          replies := End(verdict);
        }
    }

    method OnClose()
      modifies this
      ensures Model() == OnServerClose(old(Model()))
      ensures ServerOk(old(Model())) ==> !open && !upstream && (session.Finished? || session.Failed?)
    {
      if !open {
        return;
      }
      open, prepared := false, true;
      if !finished {
        if !session.Finished? && !session.Failed? {
          session := Failed(BrowserClosed);
        }
        upstream := false;
      }
    }
  }

  /** One upload job in the browser: what its socket's handlers and the chunk loop share. */
  class Job {
    const total: nat
    var status: Status
    var sent: nat
    var phase: Phase
    var open: bool

    ghost function Model(): Client
      reads this
    {
      Client(status, sent, phase, open)
    }

    constructor (total: nat)
      ensures Model() == Client(Waiting, 0, NotStarted, true) && this.total == total
    {
      this.total := total;
      status, sent, phase, open := Waiting, 0, NotStarted, true;
    }

    method Fails()
      modifies this
      ensures Model() == FailJob(old(Model()))
      ensures status == if old(status) in {Completed, Cancelled} then old(status) else Erred
    {
      if status in {Completed, Cancelled, Erred} {
        return;
      }
      status := Erred;
      if phase.Awaiting? {
        phase := Phase.Ended;
      }
    }

    method Continue(offset: nat)
      modifies this
      ensures Model() == LoopTop(old(Model()), total, offset)
    {
      if offset < total && open && status.Sending? {
        phase := Reading(offset);
      } else {
        phase := Phase.Ended;
      }
    }

    method Receive(size: nat, reply: Reply, processed: bool)
      modifies this
      ensures Model() == OnReply(old(Model()), total, size, reply, processed)
      ensures reply.Error? ==> status in {Completed, Cancelled, Erred}
      ensures reply.Done? ==> sent == total && status == if processed then Completed else Erred
      ensures reply.Ready? ==> status == Sending && (phase.Reading? <==> open && total > 0)
      ensures reply.Ack? && old(phase.Awaiting?) ==> sent == reply.bytes && (phase.Reading? || phase.Ended?)
    {
      match reply
      case Error(_) =>
        Fails();
      case Ack(bytes) =>
        if phase.Awaiting? {
          sent := bytes;
          Continue(phase.offset + size);
        }
      case Done =>
        sent := total;
        status := Processing;
        if processed {
          status := Completed;
        } else {
          Fails();
        }
      case Ready =>
        status := Sending;
        Continue(0);
    }

    method OnClose()
      modifies this
      ensures Model() == OnClientClose(old(Model()))
      ensures !open && status !in {Waiting, Sending}
    {
      open := false;
      if status.Sending? || status.Waiting? {
        Fails();
      }
    }

    method Stop()
      modifies this
      ensures Model() == Cancel(old(Model()))
      ensures status == if old(status) in {Waiting, Sending} then Cancelled else old(status)
    {
      if status.Sending? || status.Waiting? {
        status, open := Cancelled, false;
      }
    }
  }

  /** How a transfer that nothing interrupts ends. */
  predicate Settled(total: nat, verdict: bool, processed: bool, c: Client, s: Server)
  {
    if s.received < total then c.status == Erred && s.session == Failed(ProxyRefused)
    else if verdict then s.session == Finished && (processed <==> c.status == Completed)
    else s.session == Failed(ProxyRefused) && c.status == Erred
  }

  predicate Underway(total: nat, c: Client, s: Server)
  {
    && c.phase.Reading? && c.phase.offset == s.received < total && c.status == Sending
    && s.upstream && !s.finished && s.session.Uploading?
  }

  /** One round: a chunk, and what the proxy answers to it. */
  method SendChunk(file: seq<Byte>, size: nat, job: Job, proxy: ProxyConnection, accepts: bool, verdict: bool, processed: bool)
    requires size > 0 && job.total == proxy.size == |file|
    requires Underway(|file|, job.Model(), proxy.Model()) && job.open && proxy.open
    modifies job, proxy
    ensures job.open && proxy.open
    ensures proxy.received == if accepts then Min(|file|, old(proxy.received) + size) else old(proxy.received)
    ensures proxy.forwarded == old(proxy.forwarded) + file[old(proxy.received)..proxy.received]
    ensures if job.phase.Reading? then accepts && Underway(|file|, job.Model(), proxy.Model())
            else Settled(|file|, verdict, processed, job.Model(), proxy.Model())
    ensures !job.phase.Reading? && accepts ==> proxy.received == |file|
  {
    var offset := job.phase.offset;
    var chunk := ChunkAt(file, size, offset);
    job.phase := Awaiting(offset);
    var replies := proxy.Handle(Binary(chunk), accepts, verdict && accepts && offset + |chunk| == |file|);
    job.Receive(size, replies[0], processed);
    if |replies| > 1 {
      job.Receive(size, replies[1], processed);
    }
  }

  /** The loop against the proxy, with nothing else happening: it stops short exactly when the proxy does, and
      otherwise the whole file arrives. */
  method Transfer(file: seq<Byte>, size: nat, job: Job, proxy: ProxyConnection, accepts: nat -> bool, verdict: bool, processed: bool)
    requires size > 0 && |file| > 0 && job.total == proxy.size == |file|
    requires job.Model() == Client(Waiting, 0, NotStarted, true)
    requires proxy.Model() == Start(|file|).server
    modifies job, proxy
    ensures proxy.received <= |file| && proxy.forwarded == file[..proxy.received]
    ensures Settled(|file|, verdict, processed, job.Model(), proxy.Model())
    ensures (forall i :: accepts(i)) ==> proxy.received == |file|
  {
    var replies := proxy.OnPrepared(true);
    job.Receive(size, replies[0], processed);
    var chunks := 0;
    while job.phase.Reading?
      invariant proxy.received <= |file| && proxy.forwarded == file[..proxy.received]
      invariant job.open && proxy.open
      invariant if job.phase.Reading? then Underway(|file|, job.Model(), proxy.Model())
                else Settled(|file|, verdict, processed, job.Model(), proxy.Model())
      invariant !job.phase.Reading? && proxy.received < |file| ==> exists i :: !accepts(i)
      decreases |file| - proxy.received, job.phase.Reading?
    {
      ghost var r := proxy.received;
      SendChunk(file, size, job, proxy, accepts(chunks), verdict, processed);
      assert file[..r] + file[r..proxy.received] == file[..proxy.received];
      chunks := chunks + 1;
    }
  }
}
