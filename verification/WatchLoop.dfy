/** List-then-watch against an append-only server log: `run`, `list` and `watch` of src/cluster/watch.rs. */
module WatchLoop {
  import opened Text
  import opened WatchReplica

  // ---- The server: a log of changes, whose prefixes are its versions ----

  datatype Change = Other | Write(kobj: KObject) | Remove(kobj: KObject)

  type Id = (string, string)

  function IdOf(kobj: KObject): Id { (kobj.namespace, kobj.name) }

  /** The collection after the first `version` changes. */
  function Snapshot(log: seq<Change>, version: nat): map<Id, KObject>
    requires version <= |log|
  {
    if version == 0 then map[] else
    var before := Snapshot(log, version - 1);
    match log[version - 1]
    case Other => before
    case Write(kobj) => before[IdOf(kobj) := kobj]
    case Remove(kobj) => before - {IdOf(kobj)}
  }

  /** The frames a subscriber should see for one change. */
  function ChangeAt(log: seq<Change>, index: nat): seq<Frame>
    requires index < |log|
  {
    match log[index]
    case Other => []
    case Write(kobj) => [Delta(if IdOf(kobj) in Snapshot(log, index) then Modified else Added, Slim(kobj))]
    case Remove(kobj) => [Delta(Deleted, Slim(kobj))]
  }

  /** The frames for the changes from version `from` to version `till`. */
  function Changes(log: seq<Change>, from: nat, till: nat): seq<Frame>
    requires from <= till <= |log|
  {
    if from == till then [] else Changes(log, from, till - 1) + ChangeAt(log, till - 1)
  }

  lemma Associate<T>(a: seq<T>, b: seq<T>, c: seq<T>)
    ensures (a + b) + c == a + (b + c)
  {
  }

  lemma {:induction false} ChangesJoin(log: seq<Change>, from: nat, mid: nat, till: nat)
    requires from <= mid <= till <= |log|
    ensures Changes(log, from, till) == Changes(log, from, mid) + Changes(log, mid, till)
    decreases till
  {
    if mid < till {
      ChangesJoin(log, from, mid, till - 1);
      Associate(Changes(log, from, mid), Changes(log, mid, till - 1), ChangeAt(log, till - 1));
    }
  }

  /** A cluster: one collection's log, and the kind its objects have. */
  datatype Cluster = Cluster(log: seq<Change>, kind: string, apiVersion: string)

  predicate Typed(c: Cluster, kobj: KObject)
  {
    kobj.kind == Some(c.kind) && kobj.apiVersion == Some(c.apiVersion)
  }

  /** Names identify objects; a uid stays with its object and is never shared. */
  predicate Fits(c: Cluster, index: nat)
    requires index < |c.log|
  {
    var before := Snapshot(c.log, index);
    match c.log[index]
    case Other => true
    case Write(kobj) =>
      && Typed(c, kobj)
      && forall id | id in before :: id == IdOf(kobj) <==> KeyOf(before[id]) == KeyOf(kobj)
    case Remove(kobj) =>
      && IdOf(kobj) in before
      && KeyOf(before[IdOf(kobj)]) == KeyOf(kobj)
  }

  predicate WellFormed(c: Cluster)
  {
    forall index | 0 <= index < |c.log| :: Fits(c, index)
  }

  /** `slim` */
  function Slim(kobj: KObject): KObject
  {
    kobj.(managedFields := None)
  }

  // ---- The browser's map and the collection ----

  predicate EndsWith(s: string, suffix: string)
  {
    |suffix| <= |s| && s[|s| - |suffix|..] == suffix
  }

  /** `trim_end_matches`: the suffix, as often as it is there. */
  function TrimSuffix(s: string, suffix: string): string
    requires suffix != ""
    decreases |s|
  {
    if EndsWith(s, suffix) then TrimSuffix(s[..|s| - |suffix|], suffix) else s
  }

  /** The kind a listed object is given. */
  function ListedKind(c: Cluster): string
  {
    TrimSuffix(c.kind + "List", "List")
  }

  /** An object as a list hands it on. */
  function AsListed(kind: string, kobj: KObject): KObject
  {
    Slim(kobj).(kind := Some(kind))
  }

  /** What is held is the object without its managed fields, of its own kind or of the kind it was listed with. */
  predicate Holds(kind: string, held: KObject, kobj: KObject)
  {
    held == kobj.(managedFields := None, kind := held.kind) && (held.kind == kobj.kind || held.kind == Some(kind))
  }

  /** The map holds every object of the collection under its own key, and nothing else. */
  ghost predicate Mirrors(kind: string, replica: Replica, collection: map<Id, KObject>)
  {
    && (forall id | id in collection :: KeyOf(collection[id]) in replica
                                        && Holds(kind, replica[KeyOf(collection[id])], collection[id]))
    && (forall key | key in replica :: exists id | id in collection :: KeyOf(collection[id]) == key)
  }

  /** The same, each object exactly as it is but for its managed fields. */
  ghost predicate MirrorsExactly(replica: Replica, collection: map<Id, KObject>)
  {
    && (forall id | id in collection :: KeyOf(collection[id]) in replica
                                        && replica[KeyOf(collection[id])] == collection[id].(managedFields := None))
    && (forall key | key in replica :: exists id | id in collection :: KeyOf(collection[id]) == key)
  }

  predicate Distinct(collection: map<Id, KObject>)
  {
    forall a, b | a in collection && b in collection && KeyOf(collection[a]) == KeyOf(collection[b]) :: a == b
  }

  lemma {:induction false} KeysAreDistinct(c: Cluster, version: nat)
    requires WellFormed(c) && version <= |c.log|
    ensures Distinct(Snapshot(c.log, version))
    ensures forall id | id in Snapshot(c.log, version) :: Typed(c, Snapshot(c.log, version)[id])
  {
    if version > 0 {
      KeysAreDistinct(c, version - 1);
      assert Fits(c, version - 1);
    }
  }

  /** One change, seen from both sides. */
  lemma ChangeMirrors(c: Cluster, index: nat, replica: Replica)
    requires WellFormed(c) && index < |c.log|
    requires Mirrors(ListedKind(c), replica, Snapshot(c.log, index))
    ensures Mirrors(ListedKind(c), ApplyAll(replica, ChangeAt(c.log, index)), Snapshot(c.log, index + 1))
  {
    KeysAreDistinct(c, index);
    assert Fits(c, index);
    var before, after := Snapshot(c.log, index), Snapshot(c.log, index + 1);
    var frames := ChangeAt(c.log, index);
    match c.log[index]
    case Other =>
    case Write(kobj) =>
      assert frames[..0] == [] && ApplyAll(replica, frames) == Apply(replica, frames[0]);
      WriteMirrors(ListedKind(c), replica, before, kobj);
    case Remove(kobj) =>
      assert frames[..0] == [] && ApplyAll(replica, frames) == Apply(replica, frames[0]);
      RemoveMirrors(ListedKind(c), replica, before, kobj);
  }

  lemma WriteMirrors(kind: string, replica: Replica, before: map<Id, KObject>, kobj: KObject)
    requires Mirrors(kind, replica, before)
    requires forall id | id in before :: id == IdOf(kobj) <==> KeyOf(before[id]) == KeyOf(kobj)
    ensures Mirrors(kind, Put(replica, Slim(kobj)), before[IdOf(kobj) := kobj])
  {
    var mirror, after := Put(replica, Slim(kobj)), before[IdOf(kobj) := kobj];
    forall key | key in mirror ensures exists id | id in after :: KeyOf(after[id]) == key {
      if key == KeyOf(kobj) {
        assert KeyOf(after[IdOf(kobj)]) == key;
      } else {
        var id :| id in before && KeyOf(before[id]) == key;
        assert KeyOf(after[id]) == key;
      }
    }
  }

  lemma RemoveMirrors(kind: string, replica: Replica, before: map<Id, KObject>, kobj: KObject)
    requires Mirrors(kind, replica, before) && Distinct(before)
    requires IdOf(kobj) in before && KeyOf(before[IdOf(kobj)]) == KeyOf(kobj)
    ensures Mirrors(kind, replica - {KeyOf(kobj)}, before - {IdOf(kobj)})
  {
    var mirror, after := replica - {KeyOf(kobj)}, before - {IdOf(kobj)};
    forall key | key in mirror ensures exists id | id in after :: KeyOf(after[id]) == key {
      var id :| id in before && KeyOf(before[id]) == key;
      assert KeyOf(after[id]) == key;
    }
  }

  /** What every change keeps, every run of changes keeps. */
  lemma {:induction false} ChangesKeep(log: seq<Change>, from: nat, till: nat, replica: Replica, holds: (Replica, nat) -> bool)
    requires from <= till <= |log| && holds(replica, from)
    requires forall r, k {:trigger ApplyAll(r, ChangeAt(log, k))} ::
               from <= k < till && holds(r, k) ==> holds(ApplyAll(r, ChangeAt(log, k)), k + 1)
    ensures holds(ApplyAll(replica, Changes(log, from, till)), till)
    decreases till
  {
    if from < till {
      ChangesKeep(log, from, till - 1, replica, holds);
      ApplyAllStep(log, from, till, replica);
    }
  }

  lemma ChangesMirror(c: Cluster, from: nat, till: nat, replica: Replica)
    requires WellFormed(c) && from <= till <= |c.log|
    requires Mirrors(ListedKind(c), replica, Snapshot(c.log, from))
    ensures Mirrors(ListedKind(c), ApplyAll(replica, Changes(c.log, from, till)), Snapshot(c.log, till))
  {
    var holds := (r: Replica, k: nat) => k <= |c.log| && Mirrors(ListedKind(c), r, Snapshot(c.log, k));
    forall r, k | from <= k < till && holds(r, k) ensures holds(ApplyAll(r, ChangeAt(c.log, k)), k + 1) {
      ChangeMirrors(c, k, r);
    }
    ChangesKeep(c.log, from, till, replica, holds);
  }

  lemma ApplyAllStep(log: seq<Change>, from: nat, till: nat, replica: Replica)
    requires from < till <= |log|
    ensures ApplyAll(replica, Changes(log, from, till)) ==
            ApplyAll(ApplyAll(replica, Changes(log, from, till - 1)), ChangeAt(log, till - 1))
  {
    ApplyAllJoin(replica, Changes(log, from, till - 1), ChangeAt(log, till - 1));
  }

  lemma {:induction false} ApplyAllJoin(replica: Replica, a: seq<Frame>, b: seq<Frame>)
    ensures ApplyAll(replica, a + b) == ApplyAll(ApplyAll(replica, a), b)
  {
    if b == [] {
      assert a + b == a;
    } else {
      ApplyAllJoin(replica, a, b[..|b| - 1]);
      assert (a + b)[..|a + b| - 1] == a + b[..|b| - 1];
    }
  }

  /** A list holds exactly the collection's objects, in any order. */
  ghost predicate Lists(kind: string, items: seq<KObject>, collection: map<Id, KObject>)
  {
    && (forall item | item in items :: exists id | id in collection :: item == AsListed(kind, collection[id]))
    && (forall id | id in collection :: AsListed(kind, collection[id]) in items)
  }

  lemma {:induction false} PutAllHolds(items: seq<KObject>)
    ensures forall key | key in PutAll(items) :: PutAll(items)[key] in items && KeyOf(PutAll(items)[key]) == key
    ensures forall item | item in items :: KeyOf(item) in PutAll(items)
  {
    if items != [] {
      PutAllHolds(items[..|items| - 1]);
      assert items == items[..|items| - 1] + [items[|items| - 1]];
    }
  }

  lemma ListMirrors(kind: string, items: seq<KObject>, collection: map<Id, KObject>)
    requires Lists(kind, items, collection) && Distinct(collection)
    ensures Mirrors(kind, PutAll(items), collection)
  {
    PutAllHolds(items);
    var replica := PutAll(items);
    forall id | id in collection
      ensures KeyOf(collection[id]) in replica && replica[KeyOf(collection[id])] == AsListed(kind, collection[id])
    {
      var item := AsListed(kind, collection[id]);
      assert item in items && KeyOf(item) == KeyOf(collection[id]);
      var held := replica[KeyOf(item)];
      var other :| other in collection && held == AsListed(kind, collection[other]);
      assert KeyOf(collection[other]) == KeyOf(collection[id]);
    }
    forall key | key in replica ensures exists id | id in collection :: KeyOf(collection[id]) == key {
      var id :| id in collection && replica[key] == AsListed(kind, collection[id]);
      assert KeyOf(collection[id]) == key;
    }
  }

  // ---- What the browser was told ----

  ghost function ListsOf(c: Cluster): (seq<KObject>, nat) -> bool
  {
    (items: seq<KObject>, version: nat) => version <= |c.log| && Lists(ListedKind(c), items, Snapshot(c.log, version))
  }

  /** The last list was right, and every change since, up to `version`, was reported once and in order. */
  predicate Reaches(log: seq<Change>, lists: (seq<KObject>, nat) -> bool, standing: Standing, version: nat)
  {
    && standing.Synced?
    && standing.from <= version <= |log|
    && lists(standing.items, standing.from)
    && standing.deltas == Changes(log, standing.from, version)
  }

  /** No delta came before the first list, and nothing since the last one is lost, repeated or reordered. */
  predicate Exact(log: seq<Change>, lists: (seq<KObject>, nat) -> bool, standing: Standing)
  {
    match standing
    case Unsynced => true
    case Astray => false
    case Synced(_, _, _, at) => Reaches(log, lists, standing, at)
  }

  /** This held after every frame. */
  predicate Told(log: seq<Change>, lists: (seq<KObject>, nat) -> bool, frames: seq<Frame>)
  {
    Exact(log, lists, Stand(frames)) && (frames != [] ==> Told(log, lists, frames[..|frames| - 1]))
  }

  lemma {:induction false} ToldThroughout(log: seq<Change>, lists: (seq<KObject>, nat) -> bool, frames: seq<Frame>, k: nat)
    requires Told(log, lists, frames) && k <= |frames|
    ensures Exact(log, lists, Stand(frames[..k]))
  {
    if k == |frames| {
      assert frames[..k] == frames;
    } else {
      ToldThroughout(log, lists, frames[..|frames| - 1], k);
      assert frames[..|frames| - 1][..k] == frames[..k];
    }
  }

  lemma ToldMore(log: seq<Change>, lists: (seq<KObject>, nat) -> bool, frames: seq<Frame>, frame: Frame)
    requires Told(log, lists, frames) && Exact(log, lists, Advance(Stand(frames), frame))
    ensures Told(log, lists, frames + [frame])
    ensures Stand(frames + [frame]) == Advance(Stand(frames), frame)
  {
    assert (frames + [frame])[..|frames|] == frames;
  }

  lemma {:induction false} NothingBeforeTheList(frames: seq<Frame>)
    requires Stand(frames).Unsynced?
    ensures forall frame | frame in frames :: frame.Fault?
  {
    if frames != [] {
      NothingBeforeTheList(frames[..|frames| - 1]);
      assert frames == frames[..|frames| - 1] + [frames[|frames| - 1]];
    }
  }

  /** So the browser's map is the collection as of that version, up to the kind of what was listed, if the collection's
      own kind is that of a list. */
  lemma ReplicaMirrors(c: Cluster, frames: seq<Frame>, version: nat)
    requires WellFormed(c) && Reaches(c.log, ListsOf(c), Stand(frames), version)
    ensures Mirrors(ListedKind(c), After(frames), Snapshot(c.log, version))
    ensures !EndsWith(c.kind, "List") ==> MirrorsExactly(After(frames), Snapshot(c.log, version))
  {
    var Synced(items, from, deltas, _) := Stand(frames);
    AfterStanding(frames);
    KeysAreDistinct(c, from);
    ListMirrors(ListedKind(c), items, Snapshot(c.log, from));
    ChangesMirror(c, from, version, PutAll(items));
    KeysAreDistinct(c, version);
    KindPutBack(c.kind);
  }

  /** After every frame of a run: either only errors have been sent, or the map is the collection as of the
      last version a frame carried. */
  lemma InStepThroughout(c: Cluster, frames: seq<Frame>, k: nat)
    requires WellFormed(c) && Told(c.log, ListsOf(c), frames) && k <= |frames|
    ensures match Stand(frames[..k])
            case Unsynced => forall frame | frame in frames[..k] :: frame.Fault?
            case Astray => false
            case Synced(_, _, _, at) =>
              && at <= |c.log| && Mirrors(ListedKind(c), After(frames[..k]), Snapshot(c.log, at))
              && (!EndsWith(c.kind, "List") ==> MirrorsExactly(After(frames[..k]), Snapshot(c.log, at)))
  {
    ToldThroughout(c.log, ListsOf(c), frames, k);
    match Stand(frames[..k])
    case Unsynced => NothingBeforeTheList(frames[..k]);
    case Astray =>
    case Synced(_, _, _, at) => ReplicaMirrors(c, frames[..k], at);
  }

  // ---- The answers of an honest server ----

  /** A continue token stands for the rest of one consistent listing. */
  datatype Token = Token(version: nat, whole: seq<KObject>, given: nat)

  datatype PageReply =
    | Page(items: seq<KObject>, version: nat, kind: string, apiVersion: Option<string>, next: Option<Token>)
    | ListRefused(status: nat)

  datatype Event = Notice(kind: Kind, kobj: KObject) | Bookmark(version: Option<nat>) | ErrorEvent(code: nat) | Broken

  datatype WatchReply = Stream(events: seq<Event>) | WatchRefused(status: nat)

  /** What the server answers to the n-th request. */
  datatype Server = Server(list: (nat, Option<Token>) -> PageReply, watch: (nat, nat) -> WatchReply)

  /** An object the way a list has it: what all of them share is said of the list instead. */
  function Bare(kobj: KObject): KObject
  {
    kobj.(kind := None, apiVersion := None)
  }

  ghost predicate Listing(c: Cluster, version: nat, whole: seq<KObject>)
  {
    && version <= |c.log|
    && (forall item | item in whole :: exists id | id in Snapshot(c.log, version) :: item == Bare(Snapshot(c.log, version)[id]))
    && (forall id | id in Snapshot(c.log, version) :: Bare(Snapshot(c.log, version)[id]) in whole)
  }

  ghost function ListingOf(c: Cluster): (nat, seq<KObject>) -> bool
  {
    (version: nat, whole: seq<KObject>) => Listing(c, version, whole)
  }

  /** The page picks up where `given` items left off, and its token where the page does. */
  predicate Continues(whole: seq<KObject>, given: nat, page: PageReply)
    requires page.Page?
  {
    && given + |page.items| <= |whole|
    && page.items == whole[given..given + |page.items|]
    && match page.next
       case None => given + |page.items| == |whole|
       case Some(token) => token == Token(page.version, whole, given + |page.items|)
  }

  /** Every page belongs to one listing of the collection at one version, and carries the type of the list. */
  ghost predicate HonestPage(kind: string, apiVersion: string, listing: (nat, seq<KObject>) -> bool,
                             token: Option<Token>, page: PageReply)
  {
    page.Page? ==>
      && page.kind == kind + "List" && page.apiVersion == Some(apiVersion)
      && match token
         case None => exists whole :: listing(page.version, whole) && Continues(whole, 0, page)
         case Some(t) =>
           listing(t.version, t.whole) ==> page.version == t.version && Continues(t.whole, t.given, page)
  }

  ghost predicate HonestPages(kind: string, apiVersion: string, listing: (nat, seq<KObject>) -> bool, server: Server)
  {
    forall n: nat, token {:trigger server.list(n, token)} :: HonestPage(kind, apiVersion, listing, token, server.list(n, token))
  }

  /** The stream reports each change after `at` once, in order, and a bookmark only past nothing of interest;
      it may break, or report an error, anywhere. */
  predicate Delivers(log: seq<Change>, at: nat, events: seq<Event>)
    requires at <= |log|
    decreases |events|
  {
    events == [] ||
    match events[0]
    case Notice(kind, kobj) =>
      && kobj.version.Some? && at <= kobj.version.value <= |log|
      && Changes(log, at, kobj.version.value) == [Delta(kind, Slim(kobj))]
      && Delivers(log, kobj.version.value, events[1..])
    case Bookmark(Some(version)) =>
      at <= version <= |log| && Changes(log, at, version) == [] && Delivers(log, version, events[1..])
    case Bookmark(None) => Delivers(log, at, events[1..])
    case ErrorEvent(_) => true
    case Broken => true
  }

  ghost predicate HonestStreams(log: seq<Change>, server: Server)
  {
    forall n: nat, version: nat | version <= |log| ::
      server.watch(n, version).Stream? ==> Delivers(log, version, server.watch(n, version).events)
  }

  ghost predicate Honest(c: Cluster, server: Server)
  {
    && HonestPages(c.kind, c.apiVersion, ListingOf(c), server)
    && HonestStreams(c.log, server)
  }

  // ---- What a run is asked to say ----

  /** A request and its answer: the last page of a listing, or a watch. */
  datatype Stage = ListStage(n: nat, listed: Listed) | WatchStage(n: nat, version: nat, reply: WatchReply)

  ghost predicate Asked(server: Server, stage: Stage)
  {
    match stage
    case ListStage(n, Listed(_, version)) =>
      exists token :: server.list(n, token).Page? && server.list(n, token).next.None? && server.list(n, token).version == version
    case ListStage(n, Refused(status)) => exists token :: server.list(n, token) == ListRefused(status)
    case ListStage(_, Unfinished) => true
    case WatchStage(n, version, reply) => reply == server.watch(n, version)
  }

  predicate Ends(event: Event)
  {
    event.Broken? || event.ErrorEvent?
  }

  /** The notices of a stream before it breaks or reports an error. */
  function Notices(events: seq<Event>): seq<Frame>
  {
    if events == [] || Ends(events[0]) then []
    else (match events[0] case Notice(kind, kobj) => [Delta(kind, Slim(kobj))] case _ => []) + Notices(events[1..])
  }

  /** The last version heard of before that. */
  function VersionAfter(version: nat, events: seq<Event>): nat
    decreases |events|
  {
    if events == [] || Ends(events[0]) then version
    else
      VersionAfter(match events[0]
                   case Notice(_, kobj) => if kobj.version.Some? then kobj.version.value else version
                   case Bookmark(Some(next)) => next
                   case _ => version,
                   events[1..])
  }

  predicate Errs(events: seq<Event>)
  {
    events != [] && !events[0].Broken? && (events[0].ErrorEvent? || Errs(events[1..]))
  }

  /** A SYNC for each completed listing, an error for each refusal that is retried, and the notices of each stream. */
  function FramesOf(stage: Stage): seq<Frame>
  {
    match stage
    case ListStage(_, Listed(items, version)) => [Sync(items, version)]
    case ListStage(_, Refused(status)) => if status in {400, 403, 404} then [] else [Fault(status)]
    case ListStage(_, Unfinished) => []
    case WatchStage(_, _, Stream(events)) => Notices(events)
    case WatchStage(_, _, WatchRefused(_)) => []
  }

  function Shown(trace: seq<Stage>): seq<Frame>
  {
    FlatMap(FramesOf, trace)
  }

  datatype Next = ToList | ToWatch(version: nat) | Stops(status: nat) | Nowhere

  /** What an answer leads to: only an error or a refusal leads to a new list, only some refusals to giving up. */
  function NextOf(stage: Stage): Next
  {
    match stage
    case ListStage(_, Listed(_, version)) => ToWatch(version)
    case ListStage(_, Refused(status)) => if status in {400, 403, 404} then Stops(status) else ToList
    case ListStage(_, Unfinished) => Nowhere
    case WatchStage(_, version, Stream(events)) => if Errs(events) then ToList else ToWatch(VersionAfter(version, events))
    case WatchStage(_, _, WatchRefused(status)) => if status in {403, 404} then Stops(status) else ToList
  }

  predicate Leads(from: Stage, to_: Stage)
  {
    match NextOf(from)
    case ToList => to_.ListStage?
    case ToWatch(version) => to_.WatchStage? && to_.version == version
    case _ => false
  }

  /** The answers a run has had, each one to what the one before led to, from a first list on. */
  ghost predicate Traced(server: Server, trace: seq<Stage>)
  {
    trace == [] ||
    var earlier, last := trace[..|trace| - 1], trace[|trace| - 1];
    && Traced(server, earlier)
    && Asked(server, last)
    && (if earlier == [] then last.ListStage? else Leads(earlier[|earlier| - 1], last))
  }

  /** How many requests were made. */
  function Made(trace: seq<Stage>): nat
  {
    if trace == [] then 0 else trace[|trace| - 1].n + 1
  }

  function Cut(frames: seq<Frame>, room: nat): seq<Frame>
  {
    if |frames| <= room then frames else frames[..room]
  }

  predicate Wants(trace: seq<Stage>, next: Next)
  {
    trace != [] && NextOf(trace[|trace| - 1]) == next
  }

  lemma TraceMore(server: Server, trace: seq<Stage>, stage: Stage) returns (after: seq<Stage>)
    requires Traced(server, trace) && Asked(server, stage)
    requires if trace == [] then stage.ListStage? else Leads(trace[|trace| - 1], stage)
    ensures Traced(server, after) && Shown(after) == Shown(trace) + FramesOf(stage) && Made(after) == stage.n + 1
    ensures Wants(after, NextOf(stage))
  {
    FlatMapMore(FramesOf, trace, stage);
    after := trace + [stage];
    assert after[..|trace|] == trace;
  }

  // ---- `list` ----

  /** The kind put back is the collection's, unless that kind itself ends in "List". */
  lemma KindPutBack(kind: string)
    ensures TrimSuffix(kind + "List", "List") == kind <==> !EndsWith(kind, "List")
  {
    assert (kind + "List")[|kind|..] == "List" && (kind + "List")[..|kind|] == kind;
    if EndsWith(kind, "List") {
      TrimSuffixShrinks(kind[..|kind| - 4], "List");
    }
  }

  /** For such a kind, what the browser is told differs between a list and a watch. */
  lemma ListKindIsLost()
    ensures TrimSuffix("AllowList" + "List", "List") == "Allow"
  {
    assert "AllowListList"[..9] == "AllowList" && "AllowListList"[9..] == "List";
    assert "AllowList"[..5] == "Allow" && "AllowList"[5..] == "List";
    assert "Allow"[1..] == "llow" && "llow" != "List";
  }

  lemma {:induction false} TrimSuffixShrinks(s: string, suffix: string)
    requires suffix != ""
    ensures |TrimSuffix(s, suffix)| <= |s|
    decreases |s|
  {
    if EndsWith(s, suffix) {
      TrimSuffixShrinks(s[..|s| - |suffix|], suffix);
    }
  }

  /** A listed object as it is handed on: the kind and API version put back where missing, and slimmed. */
  function Completed(kind: string, apiVersion: Option<string>, item: KObject): KObject
  {
    Slim(item.(kind := if item.kind.Some? then item.kind else Some(kind),
               apiVersion := if item.apiVersion.Some? then item.apiVersion else apiVersion))
  }

  function CompletedAll(kind: string, apiVersion: Option<string>, items: seq<KObject>): (all: seq<KObject>)
    ensures |all| == |items|
  {
    seq(|items|, i requires 0 <= i < |items| => Completed(kind, apiVersion, items[i]))
  }

  datatype Listed = Listed(items: seq<KObject>, version: nat) | Refused(status: nat) | Unfinished

  lemma CompletedLists(c: Cluster, version: nat, whole: seq<KObject>)
    requires WellFormed(c) && Listing(c, version, whole)
    ensures Lists(ListedKind(c), CompletedAll(ListedKind(c), Some(c.apiVersion), whole), Snapshot(c.log, version))
  {
    KeysAreDistinct(c, version);
    var collection, items := Snapshot(c.log, version), CompletedAll(ListedKind(c), Some(c.apiVersion), whole);
    forall item | item in items ensures exists id | id in collection :: item == AsListed(ListedKind(c), collection[id]) {
      var i :| 0 <= i < |items| && items[i] == item;
      assert whole[i] in whole;
      var id :| id in collection && whole[i] == Bare(collection[id]);
      assert item == AsListed(ListedKind(c), collection[id]);
    }
    forall id | id in collection ensures AsListed(ListedKind(c), collection[id]) in items {
      var i :| 0 <= i < |whole| && whole[i] == Bare(collection[id]);
      assert items[i] == AsListed(ListedKind(c), collection[id]);
    }
  }

  ghost function FirstPage(kind: string, apiVersion: string, listing: (nat, seq<KObject>) -> bool, page: PageReply): (whole: seq<KObject>)
    requires page.Page? && HonestPage(kind, apiVersion, listing, None, page)
    ensures listing(page.version, whole) && Continues(whole, 0, page)
  {
    var whole :| listing(page.version, whole) && Continues(whole, 0, page); whole
  }

  lemma CompletedMore(kind: string, apiVersion: Option<string>, items: seq<KObject>, i: nat)
    requires i < |items|
    ensures CompletedAll(kind, apiVersion, items[..i + 1]) ==
            CompletedAll(kind, apiVersion, items[..i]) + [Completed(kind, apiVersion, items[i])]
  {
  }

  lemma CompletedJoin(kind: string, apiVersion: Option<string>, whole: seq<KObject>, given: nat, more: nat)
    requires given + more <= |whole|
    ensures CompletedAll(kind, apiVersion, whole[..given]) + CompletedAll(kind, apiVersion, whole[given..given + more]) ==
            CompletedAll(kind, apiVersion, whole[..given + more])
  {
  }

  method Gather(before: seq<KObject>, kind: string, apiVersion: Option<string>, more: seq<KObject>)
    returns (items: seq<KObject>)
    ensures items == before + CompletedAll(kind, apiVersion, more)
  {
    items := before;
    for i := 0 to |more|
      invariant items == before + CompletedAll(kind, apiVersion, more[..i])
    {
      CompletedMore(kind, apiVersion, more, i);
      items := items + [Completed(kind, apiVersion, more[i])];
    }
    assert more[..|more|] == more;
  }

  /** What the pages of one listing add up to is a list of the collection. */
  ghost predicate Matches(log: seq<Change>, kind: string, apiVersion: string,
                          listing: (nat, seq<KObject>) -> bool, lists: (seq<KObject>, nat) -> bool)
  {
    forall version: nat, whole | listing(version, whole) ::
      version <= |log| && lists(CompletedAll(TrimSuffix(kind + "List", "List"), Some(apiVersion), whole), version)
  }

  lemma ListingMatches(c: Cluster)
    requires WellFormed(c)
    ensures Matches(c.log, c.kind, c.apiVersion, ListingOf(c), ListsOf(c))
  {
    forall version: nat, whole | Listing(c, version, whole)
      ensures Lists(ListedKind(c), CompletedAll(ListedKind(c), Some(c.apiVersion), whole), Snapshot(c.log, version))
    {
      CompletedLists(c, version, whole);
    }
  }

  method List(server: Server, begun: nat, until: nat, ghost kind: string, ghost apiVersion: string,
              ghost log: seq<Change>, ghost listing: (nat, seq<KObject>) -> bool, ghost lists: (seq<KObject>, nat) -> bool)
    returns (listed: Listed, now: nat)
    requires HonestPages(kind, apiVersion, listing, server) && Matches(log, kind, apiVersion, listing, lists)
    ensures begun <= now && (begun < until ==> begun < now)
    ensures listed.Unfinished? ==> now >= until
    ensures begun < now ==> Asked(server, ListStage(now - 1, listed))
    ensures !listed.Unfinished? ==> begun < now
    ensures listed.Listed? ==> listed.version <= |log| && lists(listed.items, listed.version)
  {
    now := begun;
    ghost var shown, whole: seq<KObject> := TrimSuffix(kind + "List", "List"), [];
    var items: seq<KObject>, token: Option<Token> := [], None;
    ghost var version := 0;
    while now < until
      invariant begun <= now
      invariant token.None? ==> items == []
      invariant token.Some? ==> now > begun && listing(version, whole)
      invariant token.Some? ==> |items| <= |whole| && token.value == Token(version, whole, |items|)
      invariant token.Some? ==> items == CompletedAll(shown, Some(apiVersion), whole[..|items|])
    {
      var page := server.list(now, token);
      assert HonestPage(kind, apiVersion, listing, token, page);
      now := now + 1;
      match page
      case ListRefused(status) =>
        assert server.list(now - 1, token) == page;
        return Refused(status), now;
      case Page(more, pageVersion, listKind, pageApiVersion, next) =>
        if token.None? {
          whole, version := FirstPage(kind, apiVersion, listing, page), pageVersion;
        }
        CompletedJoin(shown, pageApiVersion, whole, |items|, |more|);
        items := Gather(items, TrimSuffix(listKind, "List"), pageApiVersion, more);
        ghost var used := token;
        token := next;
        if token.None? {
          assert server.list(now - 1, used) == page;
          assert whole[..|whole|] == whole;
          return Listed(items, pageVersion), now;
        }
    }
    listed := Unfinished;
  }

  // ---- `watch` and `run` ----

  class Subscriber {
    var frames: seq<Frame>
    const room: nat  // how many frames it takes before it goes away

    constructor (room: nat)
      ensures frames == [] && this.room == room
    {
      this.frames, this.room := [], room;
    }

    /** `emit`: whether there is still somebody to send to. */
    method Emit(frame: Frame) returns (ok: bool)
      requires |frames| <= room
      modifies this
      ensures ok == (|old(frames)| < room)
      ensures frames == Cut(old(frames) + [frame], room) == if ok then old(frames) + [frame] else old(frames)
    {
      ok := |frames| < room;
      if ok {
        frames := frames + [frame];
      }
    }
  }

  lemma NoticeAdvances(log: seq<Change>, lists: (seq<KObject>, nat) -> bool, standing: Standing, version: nat, kind: Kind, kobj: KObject)
    requires Reaches(log, lists, standing, version)
    requires kobj.version.Some? && version <= kobj.version.value <= |log|
    requires Changes(log, version, kobj.version.value) == [Delta(kind, Slim(kobj))]
    ensures Reaches(log, lists, Advance(standing, Delta(kind, Slim(kobj))), kobj.version.value)
    ensures Exact(log, lists, Advance(standing, Delta(kind, Slim(kobj))))
  {
    ChangesJoin(log, standing.from, version, kobj.version.value);
  }

  lemma BookmarkAdvances(log: seq<Change>, lists: (seq<KObject>, nat) -> bool, standing: Standing, version: nat, next: nat)
    requires Reaches(log, lists, standing, version)
    requires version <= next <= |log| && Changes(log, version, next) == []
    ensures Reaches(log, lists, standing, next)
  {
    ChangesJoin(log, standing.from, version, next);
  }

  datatype Outcome = Relist | Gone | Failed(status: nat) | Interrupted

  /** How one stream came to an end: it broke or ran out, reported an error, or there was nobody left to send to. */
  datatype Ended = RanOut | Erred | Left

  /** The events still to be read say what is missing of all of them. */
  predicate Remains(sent: seq<Frame>, version: nat, events: seq<Event>, before: seq<Frame>, from: nat, all: seq<Event>)
  {
    && sent + Notices(events) == before + Notices(all)
    && VersionAfter(version, events) == VersionAfter(from, all)
    && (Errs(events) <==> Errs(all))
  }

  lemma NoticeRemains(sent: seq<Frame>, version: nat, events: seq<Event>, before: seq<Frame>, from: nat, all: seq<Event>)
    requires Remains(sent, version, events, before, from, all)
    requires events != [] && events[0].Notice? && events[0].kobj.version.Some?
    ensures Remains(sent + [Delta(events[0].kind, Slim(events[0].kobj))], events[0].kobj.version.value, events[1..],
                    before, from, all)
  {
    Associate(sent, [Delta(events[0].kind, Slim(events[0].kobj))], Notices(events[1..]));
  }

  lemma BookmarkRemains(sent: seq<Frame>, version: nat, events: seq<Event>, before: seq<Frame>, from: nat, all: seq<Event>)
    requires Remains(sent, version, events, before, from, all)
    requires events != [] && events[0].Bookmark?
    ensures Remains(sent, if events[0].version.Some? then events[0].version.value else version, events[1..], before, from, all)
  {
    assert Notices(events) == Notices(events[1..]);
  }

  /** The loop over one stream's events. */
  method Follow(browser: Subscriber, from: nat, all: seq<Event>, ghost log: seq<Change>, ghost lists: (seq<KObject>, nat) -> bool)
    returns (ended: Ended, version: nat)
    requires Told(log, lists, browser.frames) && Reaches(log, lists, Stand(browser.frames), from)
    requires Delivers(log, from, all) && |browser.frames| <= browser.room
    modifies browser
    ensures Told(log, lists, browser.frames)
    ensures !ended.Left? ==> Reaches(log, lists, Stand(browser.frames), version) && version == VersionAfter(from, all)
    ensures browser.frames == Cut(old(browser.frames) + Notices(all), browser.room)
    ensures ended.Left? <==> |old(browser.frames) + Notices(all)| > browser.room
    ensures !ended.Left? ==> (ended.Erred? <==> Errs(all))
  {
    version := from;
    var events := all;
    ghost var before, sent := browser.frames, browser.frames;
    while events != []
      invariant browser.frames == sent && |sent| <= browser.room
      invariant Told(log, lists, sent) && Reaches(log, lists, Stand(sent), version)
      invariant Delivers(log, version, events)
      invariant Remains(sent, version, events, before, from, all)
      decreases |events|
    {
      var event := events[0];
      match event
      case Broken =>
        break;
      case ErrorEvent(code) =>
        return Erred, version;
      case Bookmark(next) =>
        BookmarkRemains(sent, version, events, before, from, all);
        events := events[1..];
        if next.Some? {
          BookmarkAdvances(log, lists, Stand(sent), version, next.value);
          version := next.value;
        }
      case Notice(kind, kobj) =>
        NoticeAdvances(log, lists, Stand(sent), version, kind, kobj);
        ToldMore(log, lists, sent, Delta(kind, Slim(kobj)));
        NoticeRemains(sent, version, events, before, from, all);
        events := events[1..];
        if kobj.version.Some? {
          version := kobj.version.value;
        }
        var ok := browser.Emit(Delta(kind, Slim(kobj)));
        if !ok {
          return Left, version;
        }
        sent := sent + [Delta(kind, Slim(kobj))];
    }
    ended := RanOut;
  }

  method Watch(server: Server, browser: Subscriber, from: nat, begun: nat, until: nat,
               ghost log: seq<Change>, ghost lists: (seq<KObject>, nat) -> bool, ghost before: seq<Stage>)
    returns (outcome: Outcome, version: nat, now: nat, ghost trace: seq<Stage>)
    requires HonestStreams(log, server)
    requires Told(log, lists, browser.frames) && Reaches(log, lists, Stand(browser.frames), from)
    requires Traced(server, before) && Wants(before, ToWatch(from)) && Made(before) == begun
    requires browser.frames == Shown(before) && |browser.frames| <= browser.room
    modifies browser
    ensures Told(log, lists, browser.frames)
    ensures !outcome.Gone? ==> Reaches(log, lists, Stand(browser.frames), version)
    ensures begun <= now && (outcome.Interrupted? ==> now >= until)
    ensures Traced(server, trace) && browser.frames == Cut(Shown(trace), browser.room) && Made(trace) == now
    ensures outcome.Gone? <==> |Shown(trace)| > browser.room
    ensures outcome.Relist? ==> Wants(trace, ToList)
    ensures outcome.Failed? ==> Wants(trace, Stops(outcome.status))
    ensures outcome.Interrupted? ==> Wants(trace, ToWatch(version))
  {
    version, now, trace := from, begun, before;
    while now < until
      invariant begun <= now
      invariant Told(log, lists, browser.frames) && Reaches(log, lists, Stand(browser.frames), version)
      invariant Traced(server, trace) && Wants(trace, ToWatch(version)) && Made(trace) == now
      invariant browser.frames == Shown(trace) && |browser.frames| <= browser.room
    {
      var reply := server.watch(now, version);
      trace := TraceMore(server, trace, WatchStage(now, version, reply));
      now := now + 1;
      match reply
      case WatchRefused(status) =>
        if status == 410 {
          return Relist, version, now, trace;
        }
        if status == 403 || status == 404 {
          return Failed(status), version, now, trace;
        }
        return Relist, version, now, trace;
      case Stream(events) =>
        var ended, reached := Follow(browser, version, events, log, lists);
        version := reached;
        if ended.Left? {
          return Gone, version, now, trace;
        }
        if ended.Erred? {
          return Relist, version, now, trace;
        }
    }
    outcome := Interrupted;
  }

  /** The answers so far lead to a list, and what they had to say has been sent. */
  ghost predicate Stands(server: Server, log: seq<Change>, lists: (seq<KObject>, nat) -> bool, frames: seq<Frame>,
                         trace: seq<Stage>, now: nat)
  {
    && Told(log, lists, frames) && frames == Shown(trace)
    && Traced(server, trace) && (trace == [] || Wants(trace, ToList)) && Made(trace) == now
  }

  lemma AfterNothing(server: Server, log: seq<Change>, lists: (seq<KObject>, nat) -> bool, frames: seq<Frame>,
                     trace: seq<Stage>, now: nat, n: nat) returns (after: seq<Stage>)
    requires Stands(server, log, lists, frames, trace, now)
    ensures Traced(server, after) && Shown(after) == frames && Made(after) == n + 1 && Wants(after, Nowhere)
  {
    after := TraceMore(server, trace, ListStage(n, Unfinished));
  }

  lemma AfterGivingUp(server: Server, log: seq<Change>, lists: (seq<KObject>, nat) -> bool, frames: seq<Frame>,
                      trace: seq<Stage>, now: nat, n: nat, status: nat) returns (after: seq<Stage>)
    requires Stands(server, log, lists, frames, trace, now) && Asked(server, ListStage(n, Refused(status)))
    requires status == 400 || status == 403 || status == 404
    ensures Traced(server, after) && Shown(after) == frames && Made(after) == n + 1 && Wants(after, Stops(status))
  {
    after := TraceMore(server, trace, ListStage(n, Refused(status)));
  }

  lemma AfterRefusal(server: Server, log: seq<Change>, lists: (seq<KObject>, nat) -> bool, frames: seq<Frame>,
                     trace: seq<Stage>, now: nat, n: nat, status: nat) returns (after: seq<Stage>)
    requires Stands(server, log, lists, frames, trace, now) && Asked(server, ListStage(n, Refused(status)))
    requires status != 400 && status != 403 && status != 404
    ensures Stands(server, log, lists, frames + [Fault(status)], after, n + 1)
    ensures Stand(frames + [Fault(status)]) == Stand(frames)
  {
    after := TraceMore(server, trace, ListStage(n, Refused(status)));
    ToldMore(log, lists, frames, Fault(status));
  }

  lemma AfterListing(server: Server, log: seq<Change>, lists: (seq<KObject>, nat) -> bool, frames: seq<Frame>,
                     trace: seq<Stage>, now: nat, n: nat, items: seq<KObject>, version: nat) returns (after: seq<Stage>)
    requires Stands(server, log, lists, frames, trace, now) && Asked(server, ListStage(n, Listed(items, version)))
    requires version <= |log| && lists(items, version)
    ensures Traced(server, after) && Shown(after) == frames + [Sync(items, version)] && Made(after) == n + 1
    ensures Wants(after, ToWatch(version))
    ensures Told(log, lists, frames + [Sync(items, version)])
    ensures Reaches(log, lists, Stand(frames + [Sync(items, version)]), version)
  {
    after := TraceMore(server, trace, ListStage(n, Listed(items, version)));
    ToldMore(log, lists, frames, Sync(items, version));
  }

  /** What follows a completed listing: it is sent, and watched from. */
  method Serve(server: Server, browser: Subscriber, items: seq<KObject>, at: nat, begun: nat, until: nat,
               ghost log: seq<Change>, ghost lists: (seq<KObject>, nat) -> bool, ghost before: seq<Stage>, ghost was: nat)
    returns (outcome: Outcome, version: nat, now: nat, ghost trace: seq<Stage>)
    requires HonestStreams(log, server) && begun > 0 && |browser.frames| <= browser.room
    requires Stands(server, log, lists, browser.frames, before, was)
    requires Asked(server, ListStage(begun - 1, Listed(items, at))) && at <= |log| && lists(items, at)
    modifies browser
    ensures Told(log, lists, browser.frames)
    ensures !outcome.Gone? ==> Reaches(log, lists, Stand(browser.frames), version)
    ensures begun <= now && (outcome.Interrupted? ==> now >= until)
    ensures Traced(server, trace) && browser.frames == Cut(Shown(trace), browser.room) && Made(trace) == now
    ensures outcome.Gone? <==> |Shown(trace)| > browser.room
    ensures outcome.Relist? ==> Wants(trace, ToList)
    ensures outcome.Failed? ==> Wants(trace, Stops(outcome.status))
    ensures outcome.Interrupted? ==> Wants(trace, ToWatch(version))
  {
    trace := AfterListing(server, log, lists, browser.frames, before, was, begun - 1, items, at);
    var ok := browser.Emit(Sync(items, at));
    if !ok {
      return Gone, at, begun, trace;
    }
    outcome, version, now, trace := Watch(server, browser, at, begun, until, log, lists, trace);
  }

  method Loop(server: Server, browser: Subscriber, until: nat, ghost kind: string, ghost apiVersion: string,
              ghost log: seq<Change>, ghost listing: (nat, seq<KObject>) -> bool, ghost lists: (seq<KObject>, nat) -> bool)
    returns (outcome: Outcome, version: Option<nat>, ghost trace: seq<Stage>)
    requires HonestPages(kind, apiVersion, listing, server) && HonestStreams(log, server)
    requires Matches(log, kind, apiVersion, listing, lists)
    requires browser.frames == []
    modifies browser
    ensures Told(log, lists, browser.frames)
    ensures version.Some? ==> Reaches(log, lists, Stand(browser.frames), version.value)
    ensures Traced(server, trace) && browser.frames == Cut(Shown(trace), browser.room)
    ensures !outcome.Relist?
    ensures outcome.Gone? <==> |Shown(trace)| > browser.room
    ensures outcome.Failed? ==> Wants(trace, Stops(outcome.status))
    ensures outcome.Interrupted? ==> Made(trace) >= until && forall status :: !Wants(trace, Stops(status))
  {
    var now := 0;
    version, trace := None, [];
    while now < until
      invariant Stands(server, log, lists, browser.frames, trace, now) && |browser.frames| <= browser.room
      invariant version.Some? ==> Reaches(log, lists, Stand(browser.frames), version.value)
    {
      var listed, later := List(server, now, until, kind, apiVersion, log, listing, lists);
      ghost var before := now;
      now := later;
      match listed
      case Unfinished =>
        trace := AfterNothing(server, log, lists, browser.frames, trace, before, now - 1);
        return Interrupted, version, trace;
      case Refused(status) =>
        if status == 403 || status == 404 || status == 400 {
          trace := AfterGivingUp(server, log, lists, browser.frames, trace, before, now - 1, status);
          return Failed(status), version, trace;
        }
        trace := AfterRefusal(server, log, lists, browser.frames, trace, before, now - 1, status);
        var ok := browser.Emit(Fault(status));
        if !ok {
          return Gone, version, trace;
        }
      case Listed(items, at) =>
        var ended, reached, after;
        ended, reached, after, trace := Serve(server, browser, items, at, now, until, log, lists, trace, before);
        version, now := if ended.Gone? then None else Some(reached), after;
        if !ended.Relist? {
          return ended, version, trace;
        }
    }
    outcome := Interrupted;
  }

  /** Run until the subscriber goes away, the failure is one retrying cannot fix, or `until` requests were made. What
      was sent is what the answers had to say, all of it or as much as the subscriber took. */
  method Run(server: Server, browser: Subscriber, until: nat, ghost c: Cluster)
    returns (outcome: Outcome, version: Option<nat>, ghost trace: seq<Stage>)
    requires WellFormed(c) && Honest(c, server)
    requires browser.frames == []
    modifies browser
    ensures Told(c.log, ListsOf(c), browser.frames)
    ensures version.Some? ==> Reaches(c.log, ListsOf(c), Stand(browser.frames), version.value)
    ensures Traced(server, trace) && browser.frames == Cut(Shown(trace), browser.room)
    ensures !outcome.Relist?
    ensures outcome.Gone? <==> |Shown(trace)| > browser.room
    ensures outcome.Failed? ==> Wants(trace, Stops(outcome.status))
    ensures outcome.Interrupted? ==> Made(trace) >= until && forall status :: !Wants(trace, Stops(status))
  {
    ListingMatches(c);
    outcome, version, trace :=
      Loop(server, browser, until, c.kind, c.apiVersion, c.log, ListingOf(c), ListsOf(c));
  }
}
