/** Importing a VM: the copy of each disk and the guard that removes a half-imported VM (src/extensions/proxmox.rs). */
module Import {
  import opened Text
  import Framer
  import Ipv4

  // ---- `dd_bytes` ----

  const U64_MAX := 0xFFFF_FFFF_FFFF_FFFF

  /** How many bytes dd says it has copied; other lines say nothing of it. */
  function DdBytes(line: string): Option<nat>
  {
    match SplitOnce(Trim(line), ' ')
    case None => None
    case Some((number, rest)) => if StartsWith(rest, "bytes") then Ipv4.ParseUnsigned(number, U64_MAX) else None
  }

  /** What `dd` prints is read back, whatever follows. */
  lemma DdRoundTrip(n: nat, rest: string)
    requires n <= U64_MAX && (rest != "" ==> !IsSpace(rest[|rest| - 1]))
    ensures DdBytes(Ipv4.Decimal(n) + ([' '] + ("bytes" + rest))) == Some(n)
  {
    Ipv4.DecimalRoundTrip(n);
    var number, tail := Ipv4.Decimal(n), "bytes" + rest;
    assert number[0] in number && Ipv4.IsDigit(number[0]);
    assert tail[|tail| - 1] == if rest != "" then rest[|rest| - 1] else 's';
    Parts(number, tail);
    assert StartsWith(tail, "bytes");
  }

  /** A line of a number, a blank and something visible splits there. */
  lemma Parts(number: string, tail: string)
    requires number != "" && !IsSpace(number[0]) && ' ' !in number && tail != "" && !IsSpace(tail[|tail| - 1])
    ensures SplitOnce(Trim(number + ([' '] + tail)), ' ') == Some((number, tail))
  {
    var line := number + ([' '] + tail);
    assert line[0] == number[0] && line[|line| - 1] == tail[|tail| - 1];
    TrimSolid(line);
    assert line == number + [' '] + tail;
    FindChar(number, ' ', tail);
    assert line[..|number|] == number && line[|number| + 1..] == tail;
  }

  /** The last count among some lines: what `raw` holds after them. */
  function LastCount(lines: seq<string>): nat
  {
    LastSome(DdBytes, lines, 0)
  }

  // ---- `pump` ----

  /** What the SSH channel delivers, and what the clock makes the loop look at. */
  datatype Message =
    | Piece(taken: bool)                // compressed bytes, which the proxy takes or not
    | Stderr(text: string)
    | ExitStatus(code: nat)
    | ExitSignal
    | Tick(state: Option<string>)       // the source VM's state, if it could be asked
    | Lost                              // the import is stopped while it waits

  datatype Fate = Unused | Aborted | Finished(ok: bool) | Dropped

  datatype Copy = Copied(raw: nat) | CopyFailed | CopyStopped

  const STOPPED := "stopped"

  predicate Runs(message: Message)
  {
    message.Tick? && message.state.Some? && message.state.value != STOPPED
  }

  /** The message at which the loop leaves before the channel is closed. */
  predicate Breaks(message: Message)
  {
    Runs(message) || message == Piece(false) || message == Lost
  }

  /** The first such message. */
  function FirstBreak(messages: seq<Message>): Option<Message>
  {
    if messages == [] then None
    else if FirstBreak(messages[..|messages| - 1]).Some? then FirstBreak(messages[..|messages| - 1])
    else if Breaks(messages[|messages| - 1]) then Some(messages[|messages| - 1])
    else None
  }

  predicate Unbroken(messages: seq<Message>)
  {
    FirstBreak(messages).None?
  }

  function StderrOf(messages: seq<Message>): string
  {
    if messages == [] then "" else
    StderrOf(messages[..|messages| - 1]) + (match messages[|messages| - 1] case Stderr(text) => text case _ => "")
  }

  function StatusOf(messages: seq<Message>): Option<nat>
  {
    if messages == [] then None
    else match messages[|messages| - 1]
         case ExitStatus(code) => Some(code)
         case _ => StatusOf(messages[..|messages| - 1])
  }

  /** How a copy that read all these messages ended well: exit status 0, every byte of a known size counted, no
      look at the source that saw it running, and every piece taken by the proxy, which then accepted the whole. */
  predicate CopiedWell(messages: seq<Message>, size: Option<nat>, raw: nat)
  {
    && StatusOf(messages) == Some(0)
    && raw == LastCount(Framer.Ended(Framer.EndsStatus, StderrOf(messages)))
    && (size.Some? ==> raw == size.value)
    && Unbroken(messages)
  }

  datatype Outcome = Succeeds | Fails | Stopped

  /** How a series of steps ends, each taken only if the one before succeeded. */
  function First(outcomes: seq<Outcome>): (o: Outcome)
    ensures o == Succeeds <==> forall i | 0 <= i < |outcomes| :: outcomes[i] == Succeeds
    decreases |outcomes|
  {
    if outcomes == [] then Succeeds
    else if First(outcomes[..|outcomes| - 1]) != Succeeds then First(outcomes[..|outcomes| - 1])
    else outcomes[|outcomes| - 1]
  }

  /** The first step that does not succeed decides. */
  lemma {:induction false} FirstIs(outcomes: seq<Outcome>, k: nat)
    requires k < |outcomes| && outcomes[k] != Succeeds && forall i | 0 <= i < k :: outcomes[i] == Succeeds
    ensures First(outcomes) == outcomes[k]
    decreases |outcomes|
  {
    if k < |outcomes| - 1 {
      FirstIs(outcomes[..|outcomes| - 1], k);
    }
  }

  lemma {:induction false} BrokenStays(messages: seq<Message>, k: nat)
    requires k <= |messages| && FirstBreak(messages[..k]).Some?
    ensures FirstBreak(messages) == FirstBreak(messages[..k])
    decreases |messages| - k
  {
    if k < |messages| {
      assert messages[..k + 1][..k] == messages[..k];
      BrokenStays(messages, k + 1);
    } else {
      assert messages[..k] == messages;
    }
  }

  lemma StderrMore(messages: seq<Message>, k: nat)
    requires k < |messages|
    ensures StderrOf(messages[..k + 1]) ==
            StderrOf(messages[..k]) + (match messages[k] case Stderr(text) => text case _ => "")
    ensures StatusOf(messages[..k + 1]) ==
            match messages[k] case ExitStatus(code) => Some(code) case _ => StatusOf(messages[..k])
    ensures Unbroken(messages[..k]) ==>
            FirstBreak(messages[..k + 1]) == if Breaks(messages[k]) then Some(messages[k]) else None
  {
    assert messages[..k + 1][..k] == messages[..k];
  }

  /** A piece of stderr: the count becomes the last one on a line it completes, if any does. */
  method OnStderr(count: string -> Option<nat>, partial: Framer.StatusLines, text: string, before: nat) returns (raw: nat)
    requires partial.Valid() && before == LastSome(count, partial.lines, 0)
    modifies partial
    ensures partial.Valid() && partial.fed == old(partial.fed) + text && raw == LastSome(count, partial.lines, 0)
  {
    ghost var was := partial.lines;
    var lines := partial.Feed(text);
    LastSomeJoin(count, was, lines, 0);
    raw := CountLines(count, lines, before);
  }

  method CountLines(count: string -> Option<nat>, lines: seq<string>, before: nat) returns (raw: nat)
    ensures raw == LastSome(count, lines, before)
  {
    raw := before;
    for i := 0 to |lines|
      invariant raw == LastSome(count, lines[..i], before)
    {
      assert lines[..i + 1][..i] == lines[..i];
      var bytes := count(lines[i]);
      if bytes.Some? {
        raw := bytes.value;
      }
    }
    assert lines[..|lines|] == lines;
  }

  /** How the loop over the channel ends. */
  datatype Exit = Closed | SourceStarted | ProxyGone | TaskStopped

  method Listen(count: string -> Option<nat>, messages: seq<Message>) returns (exit: Exit, raw: nat, status: Option<nat>)
    ensures match FirstBreak(messages)
            case None => exit.Closed?
            case Some(Lost) => exit.TaskStopped?
            case Some(Tick(_)) => exit.SourceStarted?
            case Some(last) => exit.ProxyGone? && last == Piece(false)
    ensures exit.Closed? ==> raw == LastSome(count, Framer.Ended(Framer.EndsStatus, StderrOf(messages)), 0)
    ensures exit.Closed? ==> status == StatusOf(messages)
  {
    raw, status := 0, None;
    var partial := new Framer.StatusLines();
    var k := 0;
    while k < |messages|
      invariant 0 <= k <= |messages| && fresh(partial) && partial.Valid() && partial.fed == StderrOf(messages[..k])
      invariant raw == LastSome(count, partial.lines, 0)
      invariant status == StatusOf(messages[..k])
      invariant Unbroken(messages[..k])
    {
      StderrMore(messages, k);
      if Breaks(messages[k]) {
        BrokenStays(messages, k + 1);
      }
      match messages[k] {
        case Lost =>
          return TaskStopped, raw, status;
        case Tick(state) =>
          if state.Some? && state.value != STOPPED {
            return SourceStarted, raw, status;
          }
        case Piece(taken) =>
          if !taken {
            return ProxyGone, raw, status;
          }
        case Stderr(text) =>
          raw := OnStderr(count, partial, text, raw);
        case ExitStatus(code) =>
          status := Some(code);
        case ExitSignal =>
      }
      k := k + 1;
    }
    assert messages[..|messages|] == messages;
    Framer.Leftover(Framer.EndsStatus, partial.fed, partial.lines, partial.partial);
    exit := Closed;
  }

  ghost predicate ReadToTheEnd(messages: seq<Message>, size: Option<nat>)
  {
    exists raw :: CopiedWell(messages, size, raw)
  }

  /** The proxy is asked for its verdict on a copy that ended well, or to say why it took no more. */
  ghost predicate Settled(messages: seq<Message>, size: Option<nat>)
  {
    ReadToTheEnd(messages, size) || FirstBreak(messages) == Some(Piece(false))
  }

  method Pump(messages: seq<Message>, size: Option<nat>, execOk: bool, finish: Outcome) returns (copy: Copy, fate: Fate)
    ensures copy.Copied? <==> execOk && finish == Succeeds && ReadToTheEnd(messages, size)
    ensures copy.Copied? ==> CopiedWell(messages, size, copy.raw)
    ensures copy.CopyStopped? <==> fate == Dropped
    ensures fate == Dropped <==>
              execOk && (FirstBreak(messages) == Some(Lost) || (Settled(messages, size) && finish == Stopped))
    ensures fate.Finished? <==> execOk && Settled(messages, size) && finish != Stopped
    ensures fate.Finished? ==> (fate.ok <==> finish == Succeeds)
    ensures fate != Unused
  {
    if !execOk {
      return CopyFailed, Aborted;
    }
    var exit, raw, status := Listen(DdBytes, messages);
    match exit
    case TaskStopped => return CopyStopped, Dropped;
    case SourceStarted => return CopyFailed, Aborted;
    case ProxyGone =>
      if finish.Stopped? {
        return CopyStopped, Dropped;
      }
      return CopyFailed, Finished(finish.Succeeds?);
    case Closed =>
      if status != Some(0) {
        return CopyFailed, Aborted;
      }
      if size.Some? && raw != size.value {
        return CopyFailed, Aborted;
      }
      assert CopiedWell(messages, size, raw);
      match finish
      case Succeeds => return Copied(raw), Finished(true);
      case Fails => return CopyFailed, Finished(false);
      case Stopped => return CopyStopped, Dropped;
  }

  // ---- `copy_disk` ----

  datatype Job = Job(key: string, volid: string, dataVolume: string, size: Option<nat>)

  /** How things go for one disk: what happens before the copy (the DataVolume appears, its upload server is ready,
      a token is issued, the upload is opened), the copy itself, and CDI finishing the disk. */
  datatype DiskRun = DiskRun(
    before: seq<Outcome>, execOk: bool, messages: seq<Message>, finish: Outcome, settles: Outcome)

  ghost predicate FilledWell(run: DiskRun, job: Job)
  {
    && (forall i | 0 <= i < |run.before| :: run.before[i] == Succeeds)
    && run.execOk && run.finish == Succeeds && run.settles == Succeeds
    && ReadToTheEnd(run.messages, job.size)
  }

  ghost function DiskEnds(run: DiskRun, job: Job): Outcome
  {
    if First(run.before) != Succeeds then First(run.before)
    else if !run.execOk then Fails
    else if FirstBreak(run.messages) == Some(Lost) then Stopped
    else if !Settled(run.messages, job.size) then Fails
    else if run.finish != Succeeds then run.finish
    else if !ReadToTheEnd(run.messages, job.size) then Fails
    else run.settles
  }

  function Ending(copy: Copy): Outcome
  {
    match copy case Copied(_) => Succeeds case CopyFailed => Fails case CopyStopped => Stopped
  }

  method CopyDisk(run: DiskRun, job: Job) returns (copy: Copy)
    ensures Ending(copy) == DiskEnds(run, job)
    ensures copy.Copied? <==> FilledWell(run, job)
    ensures copy.Copied? ==> CopiedWell(run.messages, job.size, copy.raw)
  {
    for i := 0 to |run.before|
      invariant forall j | 0 <= j < i :: run.before[j] == Succeeds
    {
      if run.before[i] != Succeeds {
        FirstIs(run.before, i);
      }
      if run.before[i].Fails? {
        return CopyFailed;
      }
      if run.before[i].Stopped? {
        return CopyStopped;
      }
    }
    var fate;
    copy, fate := Pump(run.messages, job.size, run.execOk, run.finish);
    if !copy.Copied? {
      return;
    }
    match run.settles
    case Succeeds =>
    case Fails => copy := CopyFailed;
    case Stopped => copy := CopyStopped;
  }

  // ---- `import` ----

  /** What is asked of the cluster about the VM, in order. */
  datatype Event = Created | Filled(dataVolume: string) | DeletionRequested | SetAlways

  class World {
    var log: seq<Event>

    constructor ()
      ensures log == []
    {
      log := [];
    }

    method Note(event: Event)
      modifies this
      ensures log == old(log) + [event]
    {
      log := log + [event];
    }
  }

  /** The guard: dropped while armed, it has the VM deleted. */
  class Cleanup {
    var armed: bool

    constructor ()
      ensures !armed
    {
      armed := false;
    }

    method Drop(world: World)
      modifies world
      ensures world.log == if armed then old(world.log) + [DeletionRequested] else old(world.log)
    {
      if armed {
        world.Note(DeletionRequested);
      }
    }
  }

  /** A change asked of the API server: carried out or not, and what the import makes of the answer. One that was carried
      out may look failed, as the answer was lost, or leave the import stopped before it came. */
  datatype Request = Done(seen: Outcome) | NotDone(stopped: bool)

  function Seen(request: Request): Outcome
  {
    match request case Done(seen) => seen case NotDone(stopped) => if stopped then Stopped else Fails
  }

  /** How an import goes: the steps before the VM is created, its creation, the watching connection, the disks, the
      two connections closing, and the start. The import may be stopped at any of them. */
  datatype ImportRun = ImportRun(
    before: seq<Outcome>, creates: Request, watches: Outcome, disks: seq<DiskRun>, closes: seq<Outcome>, starts: Request)

  /** The VM is created, and the import does not learn of it. */
  predicate Orphans(run: ImportRun)
  {
    && (forall i | 0 <= i < |run.before| :: run.before[i].Succeeds?)
    && run.creates.Done? && !run.creates.seen.Succeeds?
  }

  /** The VM is created and the import knows it; from there to when it leaves the VM be. */
  predicate Began(run: ImportRun)
  {
    (forall i | 0 <= i < |run.before| :: run.before[i].Succeeds?) && run.creates == Done(Succeeds)
  }

  ghost predicate Completed(run: ImportRun, jobs: seq<Job>)
    requires |run.disks| == |jobs|
  {
    && run.watches.Succeeds?
    && (forall i | 0 <= i < |jobs| :: FilledWell(run.disks[i], jobs[i]))
    && (forall i | 0 <= i < |run.closes| :: run.closes[i].Succeeds?)
  }

  datatype Result = Imported | Failed | Interrupted

  function Fills(jobs: seq<Job>): (events: seq<Event>)
    ensures |events| == |jobs|
  {
    seq(|jobs|, i requires 0 <= i < |jobs| => Filled(jobs[i].dataVolume))
  }

  function ResultOf(outcome: Outcome): Result
  {
    match outcome case Succeeds => Imported case Fails => Failed case Stopped => Interrupted
  }

  ghost function DiskEndings(disks: seq<DiskRun>, jobs: seq<Job>): seq<Outcome>
    requires |disks| == |jobs|
  {
    seq(|jobs|, i requires 0 <= i < |jobs| => DiskEnds(disks[i], jobs[i]))
  }

  /** All the steps of an import, in order. */
  ghost function Steps(run: ImportRun, jobs: seq<Job>, start: bool): seq<Outcome>
    requires |run.disks| == |jobs|
  {
    run.before + [Seen(run.creates), run.watches] + DiskEndings(run.disks, jobs) + run.closes
    + (if start then [Seen(run.starts)] else [])
  }

  lemma {:induction false} FirstJoin(a: seq<Outcome>, b: seq<Outcome>)
    ensures First(a + b) == if First(a) != Succeeds then First(a) else First(b)
    decreases |b|
  {
    if b == [] {
      assert a + b == a;
    } else {
      FirstJoin(a, b[..|b| - 1]);
      assert (a + b)[..|a + b| - 1] == a + b[..|b| - 1];
    }
  }

  lemma FirstOfTwo(a: Outcome, b: Outcome)
    ensures First([a, b]) == if a != Succeeds then a else b
  {
    assert [a, b][..1] == [a] && [a][..0] == [];
  }

  lemma StepsInTurn(run: ImportRun, jobs: seq<Job>, start: bool)
    requires |run.disks| == |jobs|
    ensures First(Steps(run, jobs, start)) ==
      if First(run.before) != Succeeds then First(run.before)
      else if Seen(run.creates) != Succeeds then Seen(run.creates)
      else if run.watches != Succeeds then run.watches
      else if First(DiskEndings(run.disks, jobs)) != Succeeds then First(DiskEndings(run.disks, jobs))
      else if First(run.closes) != Succeeds then First(run.closes)
      else if start then Seen(run.starts) else Succeeds
  {
    var two, disks, closes := [Seen(run.creates), run.watches], DiskEndings(run.disks, jobs), run.closes;
    FirstOfTwo(Seen(run.creates), run.watches);
    FirstJoin(run.before, two);
    FirstJoin(run.before + two, disks);
    FirstJoin(run.before + two + disks, closes);
    FirstJoin(run.before + two + disks + closes, if start then [Seen(run.starts)] else []);
  }

  /** The VM is kept with every disk filled, and started only then; or it is deleted, once, after some; or there
      never was one. */
  predicate AllOrNothing(log: seq<Event>, jobs: seq<Job>)
  {
    || log == []
    || log == [Created] + Fills(jobs)
    || log == [Created] + Fills(jobs) + [SetAlways]
    || exists k | 0 <= k <= |jobs| :: log == [Created] + Fills(jobs[..k]) + [DeletionRequested]
  }

  /** One step after the other, up to the first that does not succeed. */
  method InTurn(steps: seq<Outcome>) returns (ended: Outcome)
    ensures ended == First(steps)
  {
    for i := 0 to |steps|
      invariant forall j | 0 <= j < i :: steps[j] == Succeeds
    {
      if !steps[i].Succeeds? {
        FirstIs(steps, i);
        return steps[i];
      }
    }
    ended := Succeeds;
  }

  /** One disk after the other, up to the first that is not filled. */
  method FillDisks(world: World, jobs: seq<Job>, disks: seq<DiskRun>) returns (ended: Outcome, ghost filled: nat)
    requires world.log == [Created] && |disks| == |jobs|
    modifies world
    ensures filled <= |jobs| && world.log == [Created] + Fills(jobs[..filled])
    ensures forall i | 0 <= i < filled :: FilledWell(disks[i], jobs[i])
    ensures ended == First(DiskEndings(disks, jobs))
    ensures ended.Succeeds? ==> filled == |jobs| && world.log == [Created] + Fills(jobs)
    ensures !ended.Succeeds? ==> filled < |jobs| && !FilledWell(disks[filled], jobs[filled])
  {
    filled := 0;
    ghost var endings := DiskEndings(disks, jobs);
    assert world.log == [Created] + Fills(jobs[..0]);
    for i := 0 to |jobs|
      invariant filled == i && world.log == [Created] + Fills(jobs[..i])
      invariant forall j | 0 <= j < i :: FilledWell(disks[j], jobs[j]) && endings[j] == Succeeds
    {
      var copy := CopyDisk(disks[i], jobs[i]);
      if !copy.Copied? {
        FirstIs(endings, i);
        return Ending(copy), i;
      }
      world.Note(Filled(jobs[i].dataVolume));
      assert Fills(jobs[..i + 1]) == Fills(jobs[..i]) + [Filled(jobs[i].dataVolume)];
      filled := i + 1;
    }
    assert jobs[..|jobs|] == jobs;
    ended := Succeeds;
  }

  /** What the scope that holds the guard does. */
  method InScope(world: World, cleanup: Cleanup, jobs: seq<Job>, run: ImportRun, start: bool)
    returns (result: Result, ghost filled: nat)
    requires world.log == [] && !cleanup.armed && |run.disks| == |jobs|
    modifies world, cleanup
    ensures filled <= |jobs| && forall i | 0 <= i < filled :: FilledWell(run.disks[i], jobs[i])
    ensures result == ResultOf(First(Steps(run, jobs, start)))
    ensures result == Imported <==> Began(run) && Completed(run, jobs) && (start ==> run.starts == Done(Succeeds))
    ensures cleanup.armed <==> Began(run) && !Completed(run, jobs)
    ensures cleanup.armed ==> world.log == [Created] + Fills(jobs[..filled])
    ensures cleanup.armed && filled < |jobs| ==> !run.watches.Succeeds? || !FilledWell(run.disks[filled], jobs[filled])
    ensures Began(run) && Completed(run, jobs) ==>
              world.log == [Created] + Fills(jobs) + (if start && run.starts.Done? then [SetAlways] else [])
    ensures !Began(run) ==> world.log == if Orphans(run) then [Created] else []
  {
    filled := 0;
    StepsInTurn(run, jobs, start);
    assert [Created] + Fills(jobs[..0]) == [Created];
    var ended := InTurn(run.before);
    if !ended.Succeeds? {
      return ResultOf(ended), 0;
    }
    if run.creates.Done? {
      world.Note(Created);
    }
    if !Seen(run.creates).Succeeds? {
      return ResultOf(Seen(run.creates)), 0;
    }
    cleanup.armed := true;
    if !run.watches.Succeeds? {
      return ResultOf(run.watches), 0;
    }
    ended, filled := FillDisks(world, jobs, run.disks);
    if !ended.Succeeds? {
      return ResultOf(ended), filled;
    }
    ended := InTurn(run.closes);
    if !ended.Succeeds? {
      return ResultOf(ended), filled;
    }
    cleanup.armed := false;
    if start {
      if run.starts.Done? {
        world.Note(SetAlways);
      }
      if !Seen(run.starts).Succeeds? {
        return ResultOf(Seen(run.starts)), filled;
      }
    }
    result := Imported;
  }

  lemma InLog(jobs: seq<Job>, k: nat, last: seq<Event>)
    requires k <= |jobs| && forall event | event in last :: event == DeletionRequested || event == SetAlways
    ensures var log := [Created] + Fills(jobs[..k]) + last;
      && Created in log && (DeletionRequested in log <==> DeletionRequested in last)
      && (SetAlways in log <==> SetAlways in last)
      && (forall name | Filled(name) in log :: exists j | 0 <= j < k :: jobs[j].dataVolume == name)
  {
    var fills, log := Fills(jobs[..k]), [Created] + Fills(jobs[..k]) + last;
    assert log[0] == Created;
    assert forall event :: event in log <==> event == Created || event in fills || event in last;
    forall name | Filled(name) in log ensures exists j | 0 <= j < k :: jobs[j].dataVolume == name {
      var j :| 0 <= j < |fills| && fills[j] == Filled(name);
      assert jobs[j].dataVolume == name;
    }
  }

  /** Leaving the scope, however that happens, drops the guard. All goes well for the cluster if and only if it was not the
      VM's creation of which the answer was lost; the VM is deleted if and only if it was created, the import knew it,
      and something before the end of the last copy went wrong. */
  method ImportVm(world: World, jobs: seq<Job>, run: ImportRun, start: bool) returns (result: Result)
    requires world.log == [] && |run.disks| == |jobs|
    modifies world
    ensures AllOrNothing(world.log, jobs) <==> !Orphans(run) || jobs == []
    ensures Orphans(run) ==> world.log == [Created] && result != Imported
    ensures result == ResultOf(First(Steps(run, jobs, start)))
    ensures result == ResultOf(First(Steps(run, jobs, start)))
    ensures result == Imported <==> Began(run) && Completed(run, jobs) && (start ==> run.starts == Done(Succeeds))
    ensures result == Imported ==> world.log == [Created] + Fills(jobs) + (if start then [SetAlways] else [])
    ensures DeletionRequested in world.log <==> Began(run) && !Completed(run, jobs)
    ensures SetAlways in world.log <==> Began(run) && Completed(run, jobs) && start && run.starts.Done?
    ensures Created in world.log <==> Began(run) || Orphans(run)
    ensures forall name | Filled(name) in world.log ::
              exists j | 0 <= j < |jobs| :: jobs[j].dataVolume == name && FilledWell(run.disks[j], jobs[j])
  {
    var cleanup := new Cleanup();
    ghost var filled;
    result, filled := InScope(world, cleanup, jobs, run, start);
    if Orphans(run) {
      OrphanIsNeither(jobs);
    }
    cleanup.Drop(world);
    if Began(run) {
      assert jobs[..|jobs|] == jobs;
      InLog(jobs, if Completed(run, jobs) then |jobs| else filled,
            if !Completed(run, jobs) then [DeletionRequested] else if start && run.starts.Done? then [SetAlways] else []);
    }
  }

  /** A VM that nobody deletes, with disks that nobody filled. */
  lemma OrphanIsNeither(jobs: seq<Job>)
    ensures AllOrNothing([Created], jobs) <==> jobs == []
  {
    assert jobs != [] ==> |Fills(jobs)| > 0;
    assert jobs == [] ==> [Created] + Fills(jobs) == [Created];
  }

  /** An import of one disk whose VM is created with the answer lost. */
  method ImportOrphaned() returns (world: World, result: Result)
    ensures fresh(world) && world.log == [Created] && result != Imported
  {
    world := new World();
    var jobs := [Job("scsi0", "local:disk", "vm-scsi0", None)];
    var run := ImportRun([], Done(Fails), Succeeds, [DiskRun([], true, [], Succeeds, Succeeds)], [], NotDone(false));
    result := ImportVm(world, jobs, run, false);
  }
}
