/** Optimistic edits of one VM by any number of callers: `updateVm` (vm/update.ts) over `patchVm` (vm/spec.ts) and a
    server that compares resource versions. */
module VmUpdate {
  import opened Text
  import opened JsonPatch

  const TRIES := 3

  function VersionOf(vm: Json): Option<Json>
  {
    At(vm, VERSION)
  }

  /** What `patchVm` sends: the patch with the VM's version, which JSON leaves out if there is none. */
  function Sent(vm: Json, patch: Json): Json
  {
    match VersionOf(vm)
    case Some(version) => WithVersion(patch, version)
    case None =>
      var metadata := if "metadata" in Fields(patch) then Fields(patch.fields["metadata"]) else map[];
      Obj(Fields(patch)["metadata" := Obj(metadata - {"resourceVersion"})])
  }

  /** A stored object gets the next version. */
  function Stamp(vm: Json, version: nat): Json
  {
    Merge(vm, WithVersion(Obj(map[]), Num(version)))
  }

  /** What everybody does: how each caller builds its patch, the object each one's screen shows, and how the gateway
      shows an object. */
  datatype Setup = Setup(builds: seq<Json -> Json>, objects: seq<Option<Json>>, shown: Json -> Json)

  datatype Phase = Start | Fetching | Sending(vm: Json) | Done | Threw(status: nat)

  datatype Caller = Caller(phase: Phase, attempt: nat, sent: nat)

  /** How the answer to a patch comes back: as it was given, or lost on the way. The browser gives up with status 0, the
      console with 502, and a server that answers with an error of its own, 5xx, may have stored the patch as well. */
  datatype Answer = Told | Lost(status: nat)

  predicate Inconclusive(status: nat)
  {
    status == 0 || status >= 500
  }

  predicate Possible(answer: Answer)
  {
    answer.Lost? ==> Inconclusive(answer.status)
  }

  datatype Entry = Edit(caller: nat) | Foreign(vm: Json)

  /** `history[v]` is the VM at version v, and `log[v]` what made version v + 1 of it. */
  datatype System = System(history: seq<Json>, log: seq<Entry>, callers: seq<Caller>)

  datatype Step =
    | Begins(caller: nat)
    | Fetched(caller: nat)
    | FetchFails(caller: nat, status: nat)
    | Handled(caller: nat, answer: Answer)       // the server handles the patch
    | Refused(caller: nat, status: nat)          // for any other reason
    | Writes(vm: Json)                           // by somebody else

  function Current(y: System): Json
    requires y.history != []
  {
    y.history[|y.history| - 1]
  }

  function Move(y: System, i: nat, caller: Caller): System
    requires i < |y.callers|
  {
    y.(callers := y.callers[i := caller])
  }

  /** The `catch`: a conflict is retried twice. */
  function Caught(caller: Caller, status: nat): Caller
  {
    if caller.attempt < 2 && status == 409 then Caller(Fetching, caller.attempt + 1, caller.sent)
    else caller.(phase := Threw(status))
  }

  /** The server merges the patch and stores the result if it carries the current version. */
  predicate Accepts(current: Json, patch: Json)
  {
    VersionOf(Merge(current, patch)) == VersionOf(current)
  }

  function Commit(y: System, entry: Entry, vm: Json): System
  {
    y.(history := y.history + [Stamp(vm, |y.history|)], log := y.log + [entry])
  }

  function Attempt(caller: Caller, vm: Json): Caller
  {
    caller.(phase := Sending(vm), sent := caller.sent + 1)
  }

  /** What the caller makes of the answer, `given` being the one that was given. */
  function Hears(caller: Caller, given: nat, answer: Answer): Caller
  {
    match answer
    case Told => if given == 200 then caller.(phase := Done) else Caught(caller, given)
    case Lost(status) => Caught(caller, status)
  }

  function Handle(p: Setup, y: System, i: nat, answer: Answer): System
    requires y.history != [] && i < |y.callers| && |p.builds| == |y.callers| && y.callers[i].phase.Sending?
  {
    var caller := y.callers[i];
    var patch := Sent(caller.phase.vm, p.builds[i](caller.phase.vm));
    if Accepts(Current(y), patch) then
      Move(Commit(y, Edit(i), Merge(Current(y), patch)), i, Hears(caller, 200, answer))
    else Move(y, i, Hears(caller, 409, answer))
  }

  function Do(p: Setup, y: System, step: Step): System
    requires y.history != [] && |p.builds| == |p.objects| == |y.callers|
  {
    match step
    case Begins(i) =>
      if i >= |y.callers| || y.callers[i].phase != Start then y
      else if p.objects[i].Some? then Move(y, i, Attempt(y.callers[i], p.objects[i].value))
      else Move(y, i, y.callers[i].(phase := Fetching))
    case Fetched(i) =>
      if i >= |y.callers| || y.callers[i].phase != Fetching then y
      else Move(y, i, Attempt(y.callers[i], p.shown(Current(y))))
    case FetchFails(i, status) =>
      if i >= |y.callers| || y.callers[i].phase != Fetching then y
      else Move(y, i, y.callers[i].(phase := Threw(status)))
    case Handled(i, answer) =>
      if i >= |y.callers| || !y.callers[i].phase.Sending? || !Possible(answer) then y else Handle(p, y, i, answer)
    case Refused(i, status) =>
      if i >= |y.callers| || !y.callers[i].phase.Sending? then y else Move(y, i, Caught(y.callers[i], status))
    case Writes(vm) => Commit(y, Foreign(vm), vm)
  }

  // ---- What every step keeps ----

  /** The edit alone, applied to the VM at version `version`. */
  function Edited(p: Setup, i: nat, vm: Json, version: nat): Json
    requires i < |p.builds|
  {
    Stamp(Merge(vm, WithVersion(p.builds[i](p.shown(vm)), Num(version))), version + 1)
  }

  function Result(p: Setup, entry: Entry, vm: Json, version: nat): Json
    requires entry.Edit? ==> entry.caller < |p.builds|
  {
    match entry
    case Edit(i) => Edited(p, i, vm, version)
    case Foreign(other) => Stamp(other, version + 1)
  }

  /** Versions number the history, and each one follows from the one before it alone. */
  predicate HistoryOk(p: Setup, history: seq<Json>, log: seq<Entry>)
  {
    && |history| == |log| + 1
    && (forall v | 0 <= v < |history| :: VersionOf(history[v]) == Some(Num(v)))
    && (forall v | 0 <= v < |log| ::
          && (log[v].Edit? ==> log[v].caller < |p.builds|)
          && history[v + 1] == Result(p, log[v], history[v], v))
  }

  /** What a caller has in hand is some version of the VM, as shown. */
  predicate Genuine(p: Setup, history: seq<Json>, vm: Json)
  {
    exists v | 0 <= v < |history| :: vm == p.shown(history[v])
  }

  function Edits(log: seq<Entry>, i: nat): nat
  {
    if log == [] then 0 else Edits(log[..|log| - 1], i) + if log[|log| - 1] == Edit(i) then 1 else 0
  }

  predicate CallerOk(p: Setup, y: System, i: nat)
    requires i < |y.callers| && i < |p.objects|
  {
    var c := y.callers[i];
    && (c.phase.Sending? ==> Genuine(p, y.history, c.phase.vm))
    && (p.objects[i].Some? ==> Genuine(p, y.history, p.objects[i].value))
    && c.attempt < TRIES
    && c.sent <= c.attempt + (if c.phase.Start? || c.phase.Fetching? then 0 else 1)
    && match c.phase
       case Done => Edits(y.log, i) == 1
       case Threw(status) => Edits(y.log, i) <= (if Inconclusive(status) then 1 else 0)
       case _ => Edits(y.log, i) == 0
  }

  /** Showing an object does not touch its version. */
  ghost predicate Faithful(p: Setup)
  {
    |p.builds| == |p.objects| && forall vm :: VersionOf(p.shown(vm)) == VersionOf(vm)
  }

  ghost predicate Good(p: Setup, y: System)
  {
    && Faithful(p) && |y.callers| == |p.builds|
    && HistoryOk(p, y.history, y.log)
    && forall i | 0 <= i < |y.callers| :: CallerOk(p, y, i)
  }

  lemma StampVersion(vm: Json, version: nat)
    ensures VersionOf(Stamp(vm, version)) == Some(Num(version))
  {
    CarriesVersion(vm, Obj(map[]), version);
  }

  /** A patch is accepted exactly if it was built from the current version; and then what it was built from is the
      current VM. */
  lemma AcceptsOnlyCurrent(p: Setup, y: System, vm: Json, patch: Json)
    requires Faithful(p) && HistoryOk(p, y.history, y.log) && Genuine(p, y.history, vm)
    ensures Accepts(Current(y), Sent(vm, patch)) <==> VersionOf(vm) == Some(Num(|y.log|))
    ensures Accepts(Current(y), Sent(vm, patch)) ==>
              vm == p.shown(Current(y)) && Sent(vm, patch) == WithVersion(patch, Num(|y.log|))
  {
    var v :| 0 <= v < |y.history| && vm == p.shown(y.history[v]);
    assert VersionOf(y.history[v]) == Some(Num(v));
    CarriesVersion(Current(y), patch, v);
  }

  lemma EditsMore(log: seq<Entry>, entry: Entry, i: nat)
    ensures Edits(log + [entry], i) == Edits(log, i) + if entry == Edit(i) then 1 else 0
  {
    assert (log + [entry])[..|log|] == log;
  }

  lemma GenuineGrows(p: Setup, history: seq<Json>, vm: Json, more: Json)
    requires Genuine(p, history, vm)
    ensures Genuine(p, history + [more], vm)
  {
    var v :| 0 <= v < |history| && vm == p.shown(history[v]);
    assert vm == p.shown((history + [more])[v]);
  }

  lemma CommitHistory(p: Setup, y: System, entry: Entry, vm: Json)
    requires HistoryOk(p, y.history, y.log) && (entry.Edit? ==> entry.caller < |p.builds|)
    requires Stamp(vm, |y.history|) == Result(p, entry, Current(y), |y.log|)
    ensures var n := Commit(y, entry, vm); HistoryOk(p, n.history, n.log)
  {
    StampVersion(vm, |y.history|);
  }

  lemma CommitCallers(p: Setup, y: System, entry: Entry, vm: Json, i: nat)
    requires |y.callers| == |p.objects| && i < |y.callers| && CallerOk(p, y, i) && entry != Edit(i)
    ensures CallerOk(p, Commit(y, entry, vm), i)
  {
    EditsMore(y.log, entry, i);
    if y.callers[i].phase.Sending? {
      GenuineGrows(p, y.history, y.callers[i].phase.vm, Stamp(vm, |y.history|));
    }
    if p.objects[i].Some? {
      GenuineGrows(p, y.history, p.objects[i].value, Stamp(vm, |y.history|));
    }
  }

  lemma MoveGood(p: Setup, y: System, i: nat, caller: Caller)
    requires Good(p, y) && i < |y.callers| && CallerOk(p, Move(y, i, caller), i)
    ensures Good(p, Move(y, i, caller))
  {
    var n := Move(y, i, caller);
    forall j | 0 <= j < |n.callers| ensures CallerOk(p, n, j) {
      if j != i {
        assert CallerOk(p, y, j) && n.callers[j] == y.callers[j];
      }
    }
  }

  /** Of a stored patch the caller hears that it is, or nothing that tells. */
  predicate Settled(before: Caller, after: Caller)
  {
    && after.attempt == before.attempt && after.sent == before.sent
    && (after.phase.Done? || (after.phase.Threw? && Inconclusive(after.phase.status)))
  }

  lemma HearsStored(caller: Caller, answer: Answer)
    requires Possible(answer)
    ensures Settled(caller, Hears(caller, 200, answer))
  {
  }

  lemma StoreGood(p: Setup, y: System, i: nat, merged: Json, caller: Caller)
    requires Good(p, y) && i < |y.callers| && y.callers[i].phase.Sending? && Settled(y.callers[i], caller)
    requires Stamp(merged, |y.history|) == Result(p, Edit(i), Current(y), |y.log|)
    ensures Good(p, Move(Commit(y, Edit(i), merged), i, caller))
  {
    var n := Move(Commit(y, Edit(i), merged), i, caller);
    CommitHistory(p, y, Edit(i), merged);
    EditsMore(y.log, Edit(i), i);
    assert CallerOk(p, y, i);
    forall j | 0 <= j < |n.callers| ensures CallerOk(p, n, j) {
      if j != i {
        assert CallerOk(p, y, j);
        CommitCallers(p, y, Edit(i), merged, j);
        assert n.callers[j] == y.callers[j];
      } else if p.objects[i].Some? {
        GenuineGrows(p, y.history, p.objects[i].value, Stamp(merged, |y.history|));
      }
    }
  }

  lemma HandleGood(p: Setup, y: System, i: nat, answer: Answer)
    requires Good(p, y) && i < |y.callers| && y.callers[i].phase.Sending? && Possible(answer)
    ensures Good(p, Handle(p, y, i, answer))
  {
    assert CallerOk(p, y, i);
    var caller, vm := y.callers[i], y.callers[i].phase.vm;
    var patch := Sent(vm, p.builds[i](vm));
    AcceptsOnlyCurrent(p, y, vm, p.builds[i](vm));
    if Accepts(Current(y), patch) {
      HearsStored(caller, answer);
      StoreGood(p, y, i, Merge(Current(y), patch), Hears(caller, 200, answer));
    } else {
      MoveGood(p, y, i, Hears(caller, 409, answer));
    }
  }

  lemma DoGood(p: Setup, y: System, step: Step)
    requires Good(p, y)
    ensures Good(p, Do(p, y, step))
  {
    match step
    case Handled(i, answer) =>
      if i < |y.callers| && y.callers[i].phase.Sending? && Possible(answer) { HandleGood(p, y, i, answer); }
    case Writes(vm) => WriteGood(p, y, vm);
    case Begins(i) => BeginGood(p, y, i);
    case Fetched(i) =>
      if i < |y.callers| && y.callers[i].phase == Fetching {
        assert CallerOk(p, y, i) && Genuine(p, y.history, p.shown(Current(y)));
        MoveGood(p, y, i, Attempt(y.callers[i], p.shown(Current(y))));
      }
    case FetchFails(i, status) =>
      if i < |y.callers| && y.callers[i].phase == Fetching {
        assert CallerOk(p, y, i);
        MoveGood(p, y, i, y.callers[i].(phase := Threw(status)));
      }
    case Refused(i, status) =>
      if i < |y.callers| && y.callers[i].phase.Sending? {
        assert CallerOk(p, y, i);
        MoveGood(p, y, i, Caught(y.callers[i], status));
      }
  }

  lemma WriteGood(p: Setup, y: System, vm: Json)
    requires Good(p, y)
    ensures Good(p, Do(p, y, Writes(vm)))
  {
    CommitHistory(p, y, Foreign(vm), vm);
    forall i | 0 <= i < |y.callers| ensures CallerOk(p, Do(p, y, Writes(vm)), i) {
      assert CallerOk(p, y, i);
      CommitCallers(p, y, Foreign(vm), vm, i);
    }
  }

  lemma BeginGood(p: Setup, y: System, i: nat)
    requires Good(p, y)
    ensures Good(p, Do(p, y, Begins(i)))
  {
    if i < |y.callers| && y.callers[i].phase == Start {
      assert CallerOk(p, y, i);
      if p.objects[i].Some? {
        MoveGood(p, y, i, Attempt(y.callers[i], p.objects[i].value));
      } else {
        MoveGood(p, y, i, y.callers[i].(phase := Fetching));
      }
    }
  }

  // ---- Every run ----

  /** The run starts from some past of the VM, which the screens show versions of. */
  ghost predicate Initial(p: Setup, y: System)
  {
    && Faithful(p) && |y.callers| == |p.builds|
    && HistoryOk(p, y.history, y.log)
    && (forall entry | entry in y.log :: entry.Foreign?)
    && (forall i | 0 <= i < |y.callers| ::
          y.callers[i] == Caller(Start, 0, 0) && (p.objects[i].Some? ==> Genuine(p, y.history, p.objects[i].value)))
  }

  lemma {:induction false} NoEdits(log: seq<Entry>, i: nat)
    requires forall entry | entry in log :: entry.Foreign?
    ensures Edits(log, i) == 0
  {
    if log != [] {
      assert log[|log| - 1] in log;
      NoEdits(log[..|log| - 1], i);
    }
  }

  /** There is a VM, and as many callers as the setup is for. */
  predicate Shaped(p: Setup, y: System)
  {
    y.history != [] && |p.builds| == |p.objects| == |y.callers|
  }

  function Play(p: Setup, start: System, steps: seq<Step>): (y: System)
    requires Shaped(p, start)
    ensures Shaped(p, y)
  {
    if steps == [] then start else Do(p, Play(p, start, steps[..|steps| - 1]), steps[|steps| - 1])
  }

  lemma {:induction false} PlayOk(p: Setup, start: System, steps: seq<Step>)
    requires Initial(p, start)
    ensures Good(p, Play(p, start, steps))
  {
    if steps == [] {
      InitialGood(p, start);
    } else {
      PlayOk(p, start, steps[..|steps| - 1]);
      DoGood(p, Play(p, start, steps[..|steps| - 1]), steps[|steps| - 1]);
    }
  }

  lemma InitialGood(p: Setup, y: System)
    requires Initial(p, y)
    ensures Good(p, y)
  {
    forall i | 0 <= i < |y.callers| ensures CallerOk(p, y, i) { NoEdits(y.log, i); }
  }

  /** The committed edits, and whatever else was written, applied one after the other with nothing in between. */
  function Replay(p: Setup, first: Json, log: seq<Entry>): Json
    requires forall entry | entry in log && entry.Edit? :: entry.caller < |p.builds|
  {
    if log == [] then first
    else Result(p, log[|log| - 1], Replay(p, first, log[..|log| - 1]), |log| - 1)
  }

  lemma {:induction false} HistoryReplays(p: Setup, history: seq<Json>, log: seq<Entry>, v: nat)
    requires HistoryOk(p, history, log) && v < |history|
    ensures forall entry | entry in log[..v] && entry.Edit? :: entry.caller < |p.builds|
    ensures history[v] == Replay(p, history[0], log[..v])
  {
    forall entry | entry in log[..v] && entry.Edit? ensures entry.caller < |p.builds| { }
    if v > 0 {
      HistoryReplays(p, history, log, v - 1);
      assert log[..v][..v - 1] == log[..v - 1] && log[..v][v - 1] == log[v - 1];
    }
  }

  /** However the callers interleave, conflict, and lose answers: the VM is what the committed edits make of it one
      after the other, in the order they were committed. */
  lemma FinalIsSequential(p: Setup, start: System, steps: seq<Step>)
    requires Initial(p, start)
    ensures var y := Play(p, start, steps);
            && (forall entry | entry in y.log && entry.Edit? :: entry.caller < |p.builds|)
            && Current(y) == Replay(p, y.history[0], y.log)
  {
    var y := Play(p, start, steps);
    PlayOk(p, start, steps);
    HistoryReplays(p, y.history, y.log, |y.log|);
    assert y.log[..|y.log|] == y.log;
  }

  /** Each caller commits at most once, and exactly once if it is told so; it sends at most three patches; and if
      it is told of a conflict or another refusal, it committed nothing. Only of a failure with status 0 or 5xx is
      there no telling. */
  lemma OnceAndThrice(p: Setup, start: System, steps: seq<Step>, i: nat)
    requires Initial(p, start) && i < |start.callers|
    ensures var y := Play(p, start, steps);
            && i < |y.callers| && Edits(y.log, i) <= 1 && y.callers[i].sent <= TRIES
            && (y.callers[i].phase.Done? ==> Edits(y.log, i) == 1)
            && (y.callers[i].phase.Threw? && !Inconclusive(y.callers[i].phase.status) ==> Edits(y.log, i) == 0)
  {
    var y := Play(p, start, steps);
    PlayOk(p, start, steps);
    assert CallerOk(p, y, i);
  }

  /** How many patches a caller has sent goes with where it is; a conflict is thrown only after the last of them, or if
      it was the fetch that met with one. */
  predicate RetryOk(c: Caller, uncaught: bool)
  {
    && c.attempt < TRIES
    && match c.phase
       case Start => c.sent == 0 && c.attempt == 0
       case Fetching => c.sent == c.attempt
       case Sending(_) => c.sent == c.attempt + 1
       case Done => c.sent == c.attempt + 1
       case Threw(status) => status == 409 && !uncaught ==> c.sent == TRIES
  }

  lemma RetryStep(p: Setup, y: System, step: Step, n: System, i: nat, uncaught: bool)
    requires Shaped(p, y) && i < |y.callers| && RetryOk(y.callers[i], uncaught) && n == Do(p, y, step)
    ensures i < |n.callers| && RetryOk(n.callers[i], uncaught || step == FetchFails(i, 409))
  {
    match step
    case Handled(j, answer) => RetryHandled(p, y, j, answer, n, i, uncaught);
    case _ =>
  }

  lemma RetryHandled(p: Setup, y: System, j: nat, answer: Answer, n: System, i: nat, uncaught: bool)
    requires Shaped(p, y) && i < |y.callers| && RetryOk(y.callers[i], uncaught) && n == Do(p, y, Handled(j, answer))
    ensures i < |n.callers| && RetryOk(n.callers[i], uncaught)
  {
  }

  lemma {:induction false} ConflictsAreRetried(p: Setup, start: System, steps: seq<Step>, i: nat)
    requires Initial(p, start) && i < |start.callers|
    ensures var y := Play(p, start, steps); i < |y.callers| && RetryOk(y.callers[i], FetchFails(i, 409) in steps)
  {
    if steps != [] {
      var init, last := steps[..|steps| - 1], steps[|steps| - 1];
      ConflictsAreRetried(p, start, init, i);
      assert steps == init + [last];
      RetryStep(p, Play(p, start, init), last, Play(p, start, steps), i, FetchFails(i, 409) in init);
    }
  }

  /** What a caller does that has no object on its screen, and whose patch is stored with the answer lost. */
  function Unlucky(i: nat, status: nat): seq<Step>
  {
    [Begins(i), Fetched(i), Handled(i, Lost(status))]
  }

  /** For each of those statuses, whatever the setup: a run in which the caller is told that its edit failed, and it is
      stored. */
  lemma FailedYetStored(p: Setup, start: System, i: nat, status: nat)
    requires Initial(p, start) && i < |start.callers| && p.objects[i].None? && Inconclusive(status)
    ensures var y := Play(p, start, Unlucky(i, status));
            && i < |y.callers| && y.callers[i].phase == Threw(status)
            && Edits(y.log, i) == 1 && y.log == start.log + [Edit(i)]
  {
    var steps := Unlucky(i, status);
    var begun, fetched := Play(p, start, steps[..1]), Play(p, start, steps[..2]);
    PlayNext(p, start, steps, 0);
    PlayNext(p, start, steps, 1);
    PlayNext(p, start, steps, 2);
    assert steps[..0] == [] && steps[..3] == steps;
    PlayOk(p, start, steps[..2]);
    Asks(p, start, i, begun);
    Fetches(p, begun, i, fetched);
    StoredUnheard(p, fetched, i, status, Play(p, start, steps));
    NoEdits(start.log, i);
    EditsMore(start.log, Edit(i), i);
  }

  lemma Asks(p: Setup, y: System, i: nat, n: System)
    requires Shaped(p, y) && i < |y.callers| && y.callers[i].phase == Start && p.objects[i].None? && n == Do(p, y, Begins(i))
    ensures n.log == y.log && n.history == y.history && |n.callers| == |y.callers| && n.callers[i].phase == Fetching
  {
  }

  lemma PlayNext(p: Setup, start: System, steps: seq<Step>, k: nat)
    requires Shaped(p, start) && k < |steps|
    ensures Play(p, start, steps[..k + 1]) == Do(p, Play(p, start, steps[..k]), steps[k])
  {
    assert steps[..k + 1][..k] == steps[..k];
  }

  lemma Fetches(p: Setup, y: System, i: nat, n: System)
    requires Shaped(p, y) && i < |y.callers| && y.callers[i].phase == Fetching && n == Do(p, y, Fetched(i))
    ensures n.log == y.log && n.history == y.history && |n.callers| == |y.callers|
    ensures n.callers[i].phase == Sending(p.shown(Current(y)))
  {
  }

  lemma StoredUnheard(p: Setup, y: System, i: nat, status: nat, n: System)
    requires Good(p, y) && i < |y.callers| && y.callers[i].phase == Sending(p.shown(Current(y))) && Inconclusive(status)
    requires n == Do(p, y, Handled(i, Lost(status)))
    ensures n.log == y.log + [Edit(i)] && |n.callers| == |y.callers| && n.callers[i].phase == Threw(status)
  {
    assert CallerOk(p, y, i);
    var vm := p.shown(Current(y));
    assert VersionOf(Current(y)) == Some(Num(|y.log|));
    AcceptsOnlyCurrent(p, y, vm, p.builds[i](vm));
  }

  /** One caller, an edit that sets nothing, and a VM with its first version. */
  const ALONE := Setup([vm => Obj(map[])], [None], vm => vm)
  const NEW := System([Stamp(Obj(map[]), 0)], [], [Caller(Start, 0, 0)])

  lemma AloneBegins()
    ensures Initial(ALONE, NEW)
  {
    StampVersion(Obj(map[]), 0);
    assert Faithful(ALONE);
    assert HistoryOk(ALONE, NEW.history, NEW.log);
  }

  /** So a caller told 502 can have committed: the console lost the API server's answer. */
  lemma BadGatewayYetStored()
    ensures Initial(ALONE, NEW)
    ensures var y := Play(ALONE, NEW, Unlucky(0, 502));
            0 < |y.callers| && y.callers[0].phase == Threw(502) && Edits(y.log, 0) == 1
  {
    AloneBegins();
    FailedYetStored(ALONE, NEW, 0, 502);
  }

  /** A patch the server accepts was built from exactly the version it is applied to, and what is stored is that
      edit of it; any other patch changes nothing. */
  lemma BuiltFromCurrent(p: Setup, y: System, i: nat, answer: Answer)
    requires Good(p, y) && i < |y.callers| && y.callers[i].phase.Sending?
    ensures var n := Handle(p, y, i, answer);
            if VersionOf(y.callers[i].phase.vm) == Some(Num(|y.log|)) then
              && y.callers[i].phase.vm == p.shown(Current(y))
              && n.log == y.log + [Edit(i)] && n.history == y.history + [Edited(p, i, Current(y), |y.log|)]
            else n.log == y.log && n.history == y.history
  {
    assert CallerOk(p, y, i);
    AcceptsOnlyCurrent(p, y, y.callers[i].phase.vm, p.builds[i](y.callers[i].phase.vm));
  }

  // ---- The code ----

  class ApiServer {
    var history: seq<Json>
    ghost var log: seq<Entry>

    ghost predicate Valid(p: Setup)
      reads this
    {
      HistoryOk(p, history, log)
    }

    method Get(shown: Json -> Json) returns (vm: Json)
      requires history != []
      ensures vm == shown(history[|history| - 1])
    {
      vm := shown(history[|history| - 1]);
    }

    method Write(vm: Json, ghost p: Setup)
      requires Valid(p)
      modifies this
      ensures Valid(p) && log == old(log) + [Foreign(vm)] && history == old(history) + [Stamp(vm, |old(history)|)]
    {
      CommitHistory(p, System(history, log, []), Foreign(vm), vm);
      log := log + [Foreign(vm)];
      history := history + [Stamp(vm, |history|)];
    }

    /** A merge patch: stored, or refused with a conflict. */
    method Patch(patch: Json, vm: Json, ghost p: Setup, ghost i: nat) returns (status: nat)
      requires Valid(p) && Faithful(p) && Genuine(p, history, vm) && i < |p.builds| && patch == Sent(vm, p.builds[i](vm))
      modifies this
      ensures Valid(p)
      ensures status in {200, 409} && (status == 200 <==> VersionOf(vm) == Some(Num(|old(log)|)))
      ensures if status == 200
              then log == old(log) + [Edit(i)] && history == old(history) + [Edited(p, i, old(history[|log|]), |old(log)|)]
              else log == old(log) && history == old(history)
    {
      ghost var y := System(history, log, []);
      AcceptsOnlyCurrent(p, y, vm, p.builds[i](vm));
      var current := history[|history| - 1];
      if !Accepts(current, patch) {
        return 409;
      }
      CommitHistory(p, y, Edit(i), Merge(current, patch));
      log := log + [Edit(i)];
      history := history + [Stamp(Merge(current, patch), |history|)];
      status := 200;
    }
  }

  /** What happens during one turn of the loop: a fetch may fail, others write before the patch arrives, and the patch
      is handled, its answer heard or lost, or refused for a reason of its own. */
  datatype Link = Handles(answer: Answer) | Refuses(status: nat)

  datatype Turn = Turn(fetchFails: Option<nat>, others: seq<Json>, link: Link)

  predicate Happens(turn: Turn)
  {
    turn.link.Handles? ==> Possible(turn.link.answer)
  }

  /** How a turn ends: with the edit stored, an error from the patch, or one from the fetch, which is not caught. */
  datatype Ending = Stored | Rejected(status: nat) | Uncaught(status: nat)

  /** Whether a turn stores the edit: nothing goes wrong before the server handles the patch, and what it was built from is
      still current then. */
  predicate Stores(turn: Turn, fromScreen: Option<Json>, version: nat)
  {
    && turn.link.Handles? && turn.others == []
    && (if fromScreen.Some? then VersionOf(fromScreen.value) == Some(Num(version)) else turn.fetchFails.None?)
  }

  /** How it ends then. */
  function Ends(turn: Turn, fromScreen: Option<Json>, stored: bool): Ending
  {
    if fromScreen.None? && turn.fetchFails.Some? then Uncaught(turn.fetchFails.value)
    else
      match turn.link
      case Refuses(status) => Rejected(status)
      case Handles(Lost(status)) => Rejected(status)
      case Handles(Told) => if stored then Stored else Rejected(409)
  }

  function Thrown(ending: Ending): Option<nat>
  {
    match ending
    case Stored => None
    case Rejected(status) => Some(status)
    case Uncaught(status) => Some(status)
  }

  /** Every turn but the last ended in a conflict, and the last one not, unless it was the third. */
  predicate Retried(endings: seq<Ending>)
  {
    && 0 < |endings| <= TRIES
    && (forall k | 0 <= k < |endings| - 1 :: endings[k] == Rejected(409))
    && (endings[|endings| - 1] == Rejected(409) ==> |endings| == TRIES)
  }

  /** `updateVm`: stored, or the status it threw. */
  method UpdateVm(server: ApiServer, shown: Json -> Json, fromScreen: Option<Json>, build: Json -> Json,
                  turns: nat -> Turn, ghost p: Setup, ghost i: nat)
    returns (thrown: Option<nat>, ghost committed: bool, ghost endings: seq<Ending>, ghost meanwhile: seq<Entry>)
    requires server.Valid(p) && Faithful(p) && i < |p.builds| && p.builds[i] == build && p.shown == shown
    requires fromScreen.Some? ==> Genuine(p, server.history, fromScreen.value)
    requires forall k :: Happens(turns(k))
    modifies server
    ensures server.Valid(p)
    ensures forall entry | entry in meanwhile :: entry.Foreign?
    ensures server.log == old(server.log) + meanwhile + if committed then [Edit(i)] else []
    ensures Retried(endings) && thrown == Thrown(endings[|endings| - 1])
    ensures forall k | 0 < k < |endings| :: endings[k] == Ends(turns(k), None, Stores(turns(k), None, 0))
    ensures endings[0] == Ends(turns(0), fromScreen, Stores(turns(0), fromScreen, |old(server.log)|))
    ensures committed <==>
              if |endings| == 1 then Stores(turns(0), fromScreen, |old(server.log)|)
              else Stores(turns(|endings| - 1), None, 0)
    ensures thrown.None? ==> committed
    ensures thrown.Some? && !Inconclusive(thrown.value) ==> !committed
  {
    endings, meanwhile, committed := [], [], false;
    var attempt := 0;
    while true
      invariant attempt < TRIES && server.Valid(p) && |endings| == attempt && !committed
      invariant forall entry | entry in meanwhile :: entry.Foreign?
      invariant server.log == old(server.log) + meanwhile && (attempt == 0 ==> meanwhile == [])
      invariant fromScreen.Some? && attempt == 0 ==> Genuine(p, server.history, fromScreen.value)
      invariant forall k | 0 <= k < attempt :: endings[k] == Rejected(409)
      invariant forall k | 0 < k < attempt :: endings[k] == Ends(turns(k), None, Stores(turns(k), None, 0))
      invariant attempt > 0 ==> endings[0] == Ends(turns(0), fromScreen, Stores(turns(0), fromScreen, |old(server.log)|))
      decreases TRIES - attempt
    {
      var ending;
      ghost var written;
      assert Happens(turns(attempt));
      ending, committed, written :=
        Try(server, shown, if attempt == 0 then fromScreen else None, build, turns(attempt), p, i);
      Regroup(old(server.log), meanwhile, written, if committed then [Edit(i)] else []);
      meanwhile := meanwhile + written;
      endings := endings + [ending];
      match ending
      case Stored =>
        return None, committed, endings, meanwhile;
      case Uncaught(status) =>
        return Some(status), committed, endings, meanwhile;
      case Rejected(status) =>
        if attempt < 2 && status == 409 {
          attempt := attempt + 1;
        } else {
          return Some(status), committed, endings, meanwhile;
        }
    }
  }

  lemma Regroup<T>(a: seq<T>, b: seq<T>, c: seq<T>, d: seq<T>)
    ensures a + b + c + d == a + (b + c) + d
  {
  }

  /** One turn of the loop: the object of the screen or the newest one, the patch built from it, and the answer. */
  method Try(server: ApiServer, shown: Json -> Json, fromScreen: Option<Json>, build: Json -> Json,
             turn: Turn, ghost p: Setup, ghost i: nat)
    returns (ending: Ending, ghost committed: bool, ghost written: seq<Entry>)
    requires server.Valid(p) && Faithful(p) && i < |p.builds| && p.builds[i] == build && p.shown == shown
    requires fromScreen.Some? ==> Genuine(p, server.history, fromScreen.value)
    requires Happens(turn)
    modifies server
    ensures server.Valid(p)
    ensures forall entry | entry in written :: entry.Foreign?
    ensures server.log == old(server.log) + written + if committed then [Edit(i)] else []
    ensures committed <==> Stores(turn, fromScreen, |old(server.log)|)
    ensures ending == Ends(turn, fromScreen, committed)
  {
    var vm;
    committed, written := false, [];
    if fromScreen.Some? {
      vm := fromScreen.value;
      OldVersion(p, server.history, server.log, vm);
    } else if turn.fetchFails.Some? {
      return Uncaught(turn.fetchFails.value), false, [];
    } else {
      vm := server.Get(shown);
      assert Genuine(p, server.history, vm);
    }
    written := Meddle(server, turn.others, vm, p);
    match turn.link
    case Refuses(status) =>
      ending := Rejected(status);
    case Handles(answer) =>
      var given := server.Patch(Sent(vm, build(vm)), vm, p, i);
      committed := given == 200;
      match answer
      case Told => ending := if given == 200 then Stored else Rejected(given);
      case Lost(status) => ending := Rejected(status);
  }

  lemma OldVersion(p: Setup, history: seq<Json>, log: seq<Entry>, vm: Json)
    requires HistoryOk(p, history, log) && Faithful(p) && Genuine(p, history, vm)
    ensures exists v: nat | v <= |log| :: VersionOf(vm) == Some(Num(v))
  {
    var v :| 0 <= v < |history| && vm == p.shown(history[v]);
    assert VersionOf(history[v]) == Some(Num(v)) && VersionOf(p.shown(history[v])) == VersionOf(history[v]);
    assert v <= |log| && VersionOf(vm) == Some(Num(v));
  }

  function Writings(others: seq<Json>): (entries: seq<Entry>)
    ensures |entries| == |others| && forall k | 0 <= k < |others| :: entries[k] == Foreign(others[k])
  {
    seq(|others|, k requires 0 <= k < |others| => Foreign(others[k]))
  }

  lemma WritingsMore(others: seq<Json>, k: nat)
    requires k < |others|
    ensures Writings(others[..k + 1]) == Writings(others[..k]) + [Foreign(others[k])]
  {
  }

  method Meddle(server: ApiServer, others: seq<Json>, ghost vm: Json, ghost p: Setup) returns (ghost written: seq<Entry>)
    requires server.Valid(p) && Genuine(p, server.history, vm)
    modifies server
    ensures server.Valid(p) && Genuine(p, server.history, vm)
    ensures written == Writings(others) && server.log == old(server.log) + written
  {
    written := [];
    ghost var before := server.log;
    for k := 0 to |others|
      invariant server.Valid(p) && Genuine(p, server.history, vm)
      invariant written == Writings(others[..k]) && server.log == before + written
    {
      GenuineGrows(p, server.history, vm, Stamp(others[k], |server.history|));
      server.Write(others[k], p);
      WritingsMore(others, k);
      written := Writings(others[..k + 1]);
    }
    assert others[..|others|] == others;
  }
}
