/** What a watch sends to the browser, and the map the browser keeps of it (`open` in stores/watch.ts). */
module WatchReplica {
  import opened Text

  /** A Kubernetes object: the fields the replication reads, and the rest of it as text. */
  datatype KObject = KObject(
    kind: Option<string>, apiVersion: Option<string>, uid: string, namespace: string, name: string,
    version: Option<nat>, managedFields: Option<string>, body: string)

  /** `uidOf` */
  function KeyOf(kobj: KObject): string
  {
    if kobj.uid != "" then kobj.uid else kobj.namespace + "/" + kobj.name
  }

  datatype Kind = Added | Modified | Deleted

  datatype Frame =
    | Sync(items: seq<KObject>, version: nat)
    | Delta(kind: Kind, kobj: KObject)
    | Fault(status: nat)

  type Replica = map<string, KObject>

  function Put(replica: Replica, kobj: KObject): Replica
  {
    replica[KeyOf(kobj) := kobj]
  }

  function PutAll(items: seq<KObject>): Replica
  {
    if items == [] then map[] else Put(PutAll(items[..|items| - 1]), items[|items| - 1])
  }

  function Apply(replica: Replica, frame: Frame): Replica
  {
    match frame
    case Sync(items, _) => PutAll(items)
    case Delta(Deleted, kobj) => replica - {KeyOf(kobj)}
    case Delta(_, kobj) => Put(replica, kobj)
    case Fault(_) => replica
  }

  /** The map after these frames have been received, in order. */
  function After(frames: seq<Frame>): Replica
  {
    if frames == [] then map[] else Apply(After(frames[..|frames| - 1]), frames[|frames| - 1])
  }

  predicate Synchronised(frames: seq<Frame>)
  {
    frames != [] && (frames[|frames| - 1].Sync? || Synchronised(frames[..|frames| - 1]))
  }

  /** One entry of the browser's cache: `objects`, `synced` and `error`. */
  class WatchEntry {
    var objects: Replica
    var synced: bool
    var error: Option<nat>
    ghost var received: seq<Frame>

    ghost predicate Valid()
      reads this
    {
      && objects == After(received)
      && synced == Synchronised(received)
    }

    constructor ()
      ensures Valid() && received == []
    {
      objects, synced, error, received := map[], false, None, [];
    }

    method OnEvent(frame: Frame)
      requires Valid()
      modifies this
      ensures Valid() && received == old(received) + [frame]
      ensures frame.Fault? ==> objects == old(objects) && error == Some(frame.status)
      ensures frame.Sync? ==> error == None
      ensures frame.Delta? ==> error == old(error)
    {
      received := received + [frame];
      match frame
      case Sync(items, _) =>
        objects := map[];
        for i := 0 to |items|
          invariant objects == PutAll(items[..i])
          invariant received == old(received) + [frame] && error == old(error)
        {
          assert items[..i + 1][..i] == items[..i];
          objects := objects[KeyOf(items[i]) := items[i]];
        }
        assert items[..|items|] == items;
        synced, error := true, None;
      case Delta(Deleted, kobj) =>
        objects := objects - {KeyOf(kobj)};
      case Delta(_, kobj) =>
        objects := objects[KeyOf(kobj) := kobj];
      case Fault(status) =>
        error := Some(status);
    }
  }

  /** What a run of frames amounts to: the last full list, and the deltas since. */
  datatype Standing =
    | Unsynced
    | Synced(items: seq<KObject>, from: nat, deltas: seq<Frame>, at: nat)
    | Astray  // a delta before the first list

  function Stand(frames: seq<Frame>): Standing
  {
    if frames == [] then Unsynced else Advance(Stand(frames[..|frames| - 1]), frames[|frames| - 1])
  }

  function Advance(standing: Standing, frame: Frame): Standing
  {
    match frame
    case Sync(items, version) => Synced(items, version, [], version)
    case Fault(_) => standing
    case Delta(_, kobj) =>
      match standing
      case Synced(items, from, deltas, at) =>
        Synced(items, from, deltas + [frame], if kobj.version.Some? then kobj.version.value else at)
      case _ => Astray
  }

  function ApplyAll(replica: Replica, deltas: seq<Frame>): Replica
  {
    if deltas == [] then replica else Apply(ApplyAll(replica, deltas[..|deltas| - 1]), deltas[|deltas| - 1])
  }

  /** The map is the last list with the deltas since applied to it; whatever came before has left no trace. */
  lemma {:induction false} AfterStanding(frames: seq<Frame>)
    requires Stand(frames).Synced?
    ensures After(frames) == ApplyAll(PutAll(Stand(frames).items), Stand(frames).deltas)
  {
    var init, last := frames[..|frames| - 1], frames[|frames| - 1];
    match last
    case Sync(_, _) =>
    case Fault(_) => AfterStanding(init);
    case Delta(_, _) =>
      AfterStanding(init);
      assert (Stand(init).deltas + [last])[..|Stand(init).deltas|] == Stand(init).deltas;
  }
}
