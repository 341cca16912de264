/**
 * What the lifecycle of the csdr controller (start, stop, restart and the
 * watcher of the primary process in csdr.py) guarantees, stated over the
 * step functions of the Csdr module that the methods of CsdrDsp.Dsp are
 * proved to follow.
 */
module CsdrLifecycle {
  import opened Basics
  import opened Modes
  import opened Stages
  import opened CsdrChain
  import opened Csdr

  /**
   * The pipe lists every controller is constructed with: the primary list
   * names every pipe but the secondary shift pipe, which is the whole
   * secondary list.
   */
  predicate StandardPipes(s: DspState) {
    (forall n :: n in s.pipeNames <==> n != SecondaryShiftPipe) && s.secondaryPipeNames == [SecondaryShiftPipe]
  }

  /** pipe_names and secondary_pipe_names as the constructor sets them are standard. */
  lemma ConstructedPipeLists(s: DspState)
    requires s.pipeNames == PrimaryPipeNames && s.secondaryPipeNames == SecondaryPipeNames
    ensures StandardPipes(s)
  {
  }

  /** The attribute start gives a primary pipe: its path when the chain names it, None otherwise. */
  function StartedPath(c: Config, base: string, n: PipeName): Option<string> {
    if n in ExpectedPipes(c, c.demodulator) then Some(base + PipeNameText(n)) else None
  }

  /**
   * The state start has built from a command by the time it calls
   * start_secondary_demodulator (with a nonzero FFT frame rate; with a zero
   * one start raises before opening the writers).
   */
  function Prepared(s: DspState, instanceId: nat, command: seq<Stage>): DspState {
    OpenControlWriters(PrepareStart(s, instanceId, s.pipeNames, command).0)
  }

  /**
   * Before the secondary chain: the flag is set, the process is the next
   * one and is live, and nothing else but the pipes and writers changes.
   * With a zero FFT frame rate no process was started.
   */
  lemma PreparedFlags(s: DspState, instanceId: nat, command: seq<Stage>)
    ensures var p := Prepared(s, instanceId, command);
      && p.running && p.config == s.config && p.pipeBasePath == PipeBasePath(s.config.temporaryDirectory, instanceId)
      && p.pipeNames == s.pipeNames && p.secondaryPipeNames == s.secondaryPipeNames
      && p.secondaryRunning == s.secondaryRunning && p.controlLog == s.controlLog
      && (s.config.fftFps != 0 ==> p.process == Some(s.nextPid) && p.live == s.live + {s.nextPid} && p.nextPid == s.nextPid + 1)
      && (s.config.fftFps == 0 ==> p.process == s.process && p.live == s.live && p.nextPid == s.nextPid)
  {
    var t := s.(running := true, pipeBasePath := PipeBasePath(s.config.temporaryDirectory, instanceId));
    assert CreatePipes(t, s.pipeNames, command) == t.(pipePath := CreatePipes(t, s.pipeNames, command).pipePath, fifos := CreatePipes(t, s.pipeNames, command).fifos);
  }

  /**
   * Before the secondary chain, every primary pipe has the path the command
   * asks for, the secondary shift pipe is untouched, and a band-pass, shift
   * or squelch pipe that is truthy has a writer.
   */
  lemma PreparedPipes(s: DspState, instanceId: nat, command: seq<Stage>)
    requires StandardPipes(s)
    ensures var p := Prepared(s, instanceId, command);
      var base := PipeBasePath(s.config.temporaryDirectory, instanceId);
      && (forall n :: n != SecondaryShiftPipe ==> n in p.pipePath && p.pipePath[n] == CreatedPath(base, command, n))
      && (SecondaryShiftPipe in p.pipePath <==> SecondaryShiftPipe in s.pipePath)
      && (SecondaryShiftPipe in s.pipePath ==> p.pipePath[SecondaryShiftPipe] == s.pipePath[SecondaryShiftPipe])
      && (forall n :: n in {BpfPipe, ShiftPipe, SquelchPipe} && Truthy(p, n) ==> n in p.writers)
  {
    var t := s.(running := true, pipeBasePath := PipeBasePath(s.config.temporaryDirectory, instanceId));
    CreatePipesSelects(t, s.pipeNames, command);
  }

  /** A created path is truthy: the base path is never empty. */
  lemma CreatedPathTruthy(base: string, command: seq<Stage>, n: PipeName)
    requires |base| > 0
    ensures var p := CreatedPath(base, command, n);
      p.Some? ==> p.value != []
  {
    var p := CreatedPath(base, command, n);
    if p.Some? {
      assert |p.value| >= |base|;
    }
  }

  /**
   * start_secondary_demodulator raises exactly for a secondary mode without
   * a chain, and leaves the primary flag, process and settings alone.
   */
  lemma SecondaryStartRaises(s: DspState)
    requires Sane(s.config)
    ensures var (r, raised) := AfterStartSecondary(s);
      var sd := s.config.secondaryDemodulator;
      && (raised <==> HasSecondary(sd) && SecondaryChain(s.config, sd.value).None?)
      && r.running == s.running && r.config == s.config && r.process == s.process
      && r.pipeBasePath == s.pipeBasePath && r.pipeNames == s.pipeNames && r.secondaryPipeNames == s.secondaryPipeNames
      && s.live <= r.live && s.nextPid <= r.nextPid
  {
    var c := s.config;
    var sd := c.secondaryDemodulator;
    if HasSecondary(sd) && SecondaryChain(c, sd.value).Some? {
      LaunchKeepsFlags(CreatePipes(s, s.secondaryPipeNames, SecondaryCommand(c, sd.value)), sd.value);
    }
  }

  /** start_secondary_demodulator touches no primary pipe and opens no primary writer. */
  lemma SecondaryStartKeepsPrimary(s: DspState)
    requires Sane(s.config) && StandardPipes(s)
    ensures var r := AfterStartSecondary(s).0;
      && (forall n :: n != SecondaryShiftPipe ==> (n in r.pipePath <==> n in s.pipePath))
      && (forall n :: n != SecondaryShiftPipe && n in s.pipePath ==> r.pipePath[n] == s.pipePath[n])
  {
    var c := s.config;
    var sd := c.secondaryDemodulator;
    var r := AfterStartSecondary(s).0;
    if HasSecondary(sd) && SecondaryChain(c, sd.value).Some? {
      var command := SecondaryCommand(c, sd.value);
      var t := CreatePipes(s, s.secondaryPipeNames, command);
      assert r == LaunchSecondary(t, sd.value);
      CreateOnePipe(s, SecondaryShiftPipe, command);
      LaunchKeepsPipes(t, sd.value);
      assert r.pipePath == s.pipePath[SecondaryShiftPipe := CreatedPath(s.pipeBasePath, command, SecondaryShiftPipe)];
    } else {
      assert r.pipePath == s.pipePath;
    }
  }

  /** start_secondary_demodulator opens no writer but the secondary shift pipe's. */
  lemma SecondaryStartKeepsWriters(s: DspState)
    requires Sane(s.config)
    ensures forall n :: n != SecondaryShiftPipe ==> (n in AfterStartSecondary(s).0.writers <==> n in s.writers)
  {
    var c := s.config;
    var sd := c.secondaryDemodulator;
    if HasSecondary(sd) && SecondaryChain(c, sd.value).Some? {
      var t := CreatePipes(s, s.secondaryPipeNames, SecondaryCommand(c, sd.value));
      assert AfterStartSecondary(s).0 == LaunchSecondary(t, sd.value);
      assert t.writers == s.writers;
      LaunchKeepsWriters(t, sd.value);
    } else {
      assert AfterStartSecondary(s).0 == s;
    }
  }

  /** Launching the secondary processes only adds processes; the primary flag, process and settings stay. */
  lemma LaunchKeepsFlags(t: DspState, which: Demodulator)
    requires Sane(t.config)
    ensures var r := LaunchSecondary(t, which);
      && r.running == t.running && r.config == t.config && r.process == t.process
      && r.pipeBasePath == t.pipeBasePath && r.pipeNames == t.pipeNames && r.secondaryPipeNames == t.secondaryPipeNames
      && r.live == t.live + {t.nextPid, t.nextPid + 1} && r.nextPid == t.nextPid + 2
      && r.secondaryRunning && r.secondaryFft == Some(t.nextPid) && r.secondaryDemod == Some(t.nextPid + 1)
  {
  }

  /** The processes launching the secondary chain adds are its FFT and demodulator processes. */
  lemma LaunchedPids(t: DspState, which: Demodulator)
    requires Sane(t.config)
    ensures var r := LaunchSecondary(t, which);
      forall pid :: pid in r.live && pid !in t.live ==>
        r.secondaryRunning && (r.secondaryFft == Some(pid) || r.secondaryDemod == Some(pid))
  {
    LaunchKeepsFlags(t, which);
  }

  /** Launching the secondary processes changes no pipe attribute and no FIFO. */
  lemma LaunchKeepsPipes(t: DspState, which: Demodulator)
    requires Sane(t.config)
    ensures var r := LaunchSecondary(t, which);
      r.pipePath == t.pipePath && r.fifos == t.fifos
  {
  }

  /** Launching the secondary processes opens no writer but the secondary shift pipe's. */
  lemma LaunchKeepsWriters(t: DspState, which: Demodulator)
    requires Sane(t.config)
    ensures var r := LaunchSecondary(t, which);
      forall n :: n != SecondaryShiftPipe ==> (n in r.writers <==> n in t.writers)
  {
  }

  /** Once the secondary pipes are created, the shift pipe has a path exactly for BPSK31. */
  lemma SecondaryShiftCreated(s: DspState, which: Demodulator)
    requires Sane(s.config) && StandardPipes(s) && SecondaryChain(s.config, which).Some?
    ensures IsSet(SpawnSecondary(CreatePipes(s, s.secondaryPipeNames, SecondaryCommand(s.config, which)), which), SecondaryShiftPipe)
        <==> which == Bpsk31
  {
    CreatePipesSelects(s, s.secondaryPipeNames, SecondaryCommand(s.config, which));
    SecondaryPipes(s.config, which, SecondaryShiftPipe);
  }

  /** The one write start_secondary_demodulator sends: the secondary offset, for BPSK31 only. */
  lemma SecondaryStartLog(s: DspState)
    requires Sane(s.config) && StandardPipes(s)
    ensures AfterStartSecondary(s).0.controlLog == s.controlLog + SecondaryStartWrites(s.config)
  {
    var sd := s.config.secondaryDemodulator;
    if HasSecondary(sd) && SecondaryChain(s.config, sd.value).Some? {
      SecondaryShiftCreated(s, sd.value);
      LaunchSecondaryLog(CreatePipes(s, s.secondaryPipeNames, SecondaryCommand(s.config, sd.value)), sd.value);
    }
  }

  /** Launching the secondary chain writes the secondary offset once, when the secondary shift pipe is set. */
  lemma LaunchSecondaryLog(t: DspState, which: Demodulator)
    requires Sane(t.config)
    ensures LaunchSecondary(t, which).controlLog
         == t.controlLog + (if IsSet(SpawnSecondary(t, which), SecondaryShiftPipe)
                            then [ControlWrite(SecondaryShiftPipe, Ratio(ShiftRatio(t.config.secondaryOffsetFreq, IfSampRate(t.config))))]
                            else [])
  {
    var u := SpawnSecondary(t, which);
    assert u.controlLog == t.controlLog && u.secondaryRunning;
  }

  /** try_create_pipes on a single name sets that one attribute. */
  lemma CreateOnePipe(s: DspState, n: PipeName, command: seq<Stage>)
    ensures CreatePipes(s, [n], command).pipePath == s.pipePath[n := CreatedPath(s.pipeBasePath, command, n)]
  {
    assert [n][1..] == [];
  }

  /** A control pipe is truthy exactly when the command names it, and then open for writing. */
  predicate ReadyToSend(q: DspState, command: seq<Stage>, n: PipeName) {
    (Truthy(q, n) <==> Mentions(command, n)) && (Truthy(q, n) ==> n in q.writers)
  }

  /**
   * The writes of the unlocked part of start: with the flag set, and each of
   * the squelch, shift and band-pass pipes truthy exactly when the command
   * names it and then open for writing, the log grows by the initial writes
   * of the command.
   */
  lemma UnlockedWrites(q: DspState, command: seq<Stage>)
    requires Sane(q.config) && q.running
    requires ReadyToSend(q, command, SquelchPipe) && ReadyToSend(q, command, ShiftPipe) && ReadyToSend(q, command, BpfPipe)
    ensures SendBpf(SendOffset(SendSquelch(q))).controlLog == q.controlLog + InitialWrites(q.config, command)
  {
    var c := q.config;
    var w1 := if Mentions(command, SquelchPipe)
              then [ControlWrite(SquelchPipe, Level(SquelchValue(c.demodulator, c.squelchLevel)))] else [];
    var w2 := if Mentions(command, ShiftPipe)
              then [ControlWrite(ShiftPipe, Ratio(ShiftRatio(c.offsetFreq, c.sampRate as real)))] else [];
    var w3 := if Mentions(command, BpfPipe)
              then [ControlWrite(BpfPipe, BandpassBounds(c.lowCut, c.highCut, IfSampRate(c)))] else [];
    var q1 := SendSquelch(q);
    assert q1.controlLog == q.controlLog + w1;
    var q2 := SendOffset(q1);
    assert q2.controlLog == q.controlLog + w1 + w2;
    var q3 := SendBpf(q2);
    assert q3.controlLog == q.controlLog + w1 + w2 + w3;
  }

  /**
   * start from a stopped controller: it raises exactly for a zero FFT frame
   * rate or a secondary mode without a chain; either way the controller is
   * running with the settings it had. The primary process is the next one
   * and is live unless the frame rate is zero, in which case no process
   * was started.
   */
  lemma StartFromStopped(s: DspState, instanceId: nat)
    requires Sane(s.config) && !s.running
    ensures var (r, raised) := AfterStart(s, instanceId);
      var sd := s.config.secondaryDemodulator;
      && (raised <==> s.config.fftFps == 0 || (HasSecondary(sd) && SecondaryChain(s.config, sd.value).None?))
      && r.running && r.config == s.config
      && r.pipeBasePath == PipeBasePath(s.config.temporaryDirectory, instanceId)
      && (s.config.fftFps != 0 ==> r.process == Some(s.nextPid) && s.nextPid in r.live)
      && (s.config.fftFps == 0 ==> r.process == s.process && r.live == s.live)
      && r.pipeNames == s.pipeNames && r.secondaryPipeNames == s.secondaryPipeNames
  {
    var p := Prepared(s, instanceId, Chain(s.config, s.config.demodulator));
    PreparedFlags(s, instanceId, Chain(s.config, s.config.demodulator));
    if s.config.fftFps != 0 {
      SecondaryStartRaises(p);
    }
  }

  /**
   * start from a stopped controller gives every primary pipe the path under
   * the new base when the chain names it and None otherwise.
   */
  lemma StartCreatesPipes(s: DspState, instanceId: nat)
    requires Sane(s.config) && !s.running && StandardPipes(s)
    ensures var r := AfterStart(s, instanceId).0;
      var base := PipeBasePath(s.config.temporaryDirectory, instanceId);
      forall n :: n != SecondaryShiftPipe ==> n in r.pipePath && r.pipePath[n] == StartedPath(s.config, base, n)
  {
    var c := s.config;
    StartCreatesCommandPipes(s, instanceId);
    ChainPaths(c, PipeBasePath(c.temporaryDirectory, instanceId));
  }

  /**
   * The unlocked part of start only writes to control pipes and registers
   * readers and writers: everything else is as the locked part left it.
   */
  lemma StartUnlockedKeeps(s: DspState, instanceId: nat)
    requires Sane(s.config) && !s.running && s.config.fftFps != 0
    ensures var a := AfterStart(s, instanceId).0;
      a == AfterStartSecondary(Prepared(s, instanceId, Chain(s.config, s.config.demodulator))).0
             .(controlLog := a.controlLog, outputs := a.outputs, writers := a.writers)
  {
    var u := StartLocked(s, instanceId).0;
    var a := SendSquelch(u);
    var b := SendOffset(a);
    var c := SendBpf(b);
    var d := AddReadersAndDmrWriter(c);
    assert d == u.(controlLog := d.controlLog, outputs := d.outputs, writers := d.writers);
  }

  /** The same, with the path each pipe gets stated through the command's placeholders. */
  lemma StartCreatesCommandPipes(s: DspState, instanceId: nat)
    requires Sane(s.config) && !s.running && StandardPipes(s)
    ensures var r := AfterStart(s, instanceId).0;
      var base := PipeBasePath(s.config.temporaryDirectory, instanceId);
      var chain := Chain(s.config, s.config.demodulator);
      forall n :: n != SecondaryShiftPipe ==> n in r.pipePath && r.pipePath[n] == CreatedPath(base, chain, n)
  {
    var chain := Chain(s.config, s.config.demodulator);
    var p := Prepared(s, instanceId, chain);
    PreparedFlags(s, instanceId, chain);
    PreparedPipes(s, instanceId, chain);
    if s.config.fftFps != 0 {
      assert StandardPipes(p);
      SecondaryStartKeepsPrimary(p);
      StartUnlockedKeeps(s, instanceId);
    } else {
      assert AfterStart(s, instanceId).0.pipePath == p.pipePath;
    }
  }

  /** A primary pipe's placeholder occurs in the chain exactly when the mode expects the pipe. */
  lemma ChainPaths(c: Config, base: string)
    ensures forall n :: CreatedPath(base, Chain(c, c.demodulator), n) == StartedPath(c, base, n)
  {
    forall n
      ensures CreatedPath(base, Chain(c, c.demodulator), n) == StartedPath(c, base, n)
    {
      ChainPipes(c, c.demodulator, n);
    }
  }

  /**
   * The writes a start from a stopped controller sends when it does not
   * raise: the secondary offset for BPSK31, then the squelch, offset and
   * band-pass the primary chain has pipes for.
   */
  lemma StartWrites(s: DspState, instanceId: nat)
    requires Sane(s.config) && !s.running && StandardPipes(s)
    ensures var (r, raised) := AfterStart(s, instanceId);
      !raised ==>
        r.controlLog == s.controlLog + SecondaryStartWrites(s.config) + InitialWrites(s.config, Chain(s.config, s.config.demodulator))
  {
    var chain := Chain(s.config, s.config.demodulator);
    var p := Prepared(s, instanceId, chain);
    LockedPartReady(s, instanceId, chain);
    PreparedFlags(s, instanceId, chain);
    SecondaryStartRaises(p);
    UnlockedWrites(AfterStartSecondary(p).0, chain);
  }

  /**
   * When start releases the lock, the secondary write is in the log and the
   * squelch, shift and band-pass pipes are ready for the initial writes.
   */
  lemma LockedPartReady(s: DspState, instanceId: nat, command: seq<Stage>)
    requires Sane(s.config) && StandardPipes(s)
    ensures var q := AfterStartSecondary(Prepared(s, instanceId, command)).0;
      && q.controlLog == s.controlLog + SecondaryStartWrites(s.config)
      && ReadyToSend(q, command, SquelchPipe) && ReadyToSend(q, command, ShiftPipe) && ReadyToSend(q, command, BpfPipe)
  {
    var base := PipeBasePath(s.config.temporaryDirectory, instanceId);
    var p := Prepared(s, instanceId, command);
    PreparedFlags(s, instanceId, command);
    PreparedPipes(s, instanceId, command);
    assert StandardPipes(p);
    SecondaryStartKeepsPrimary(p);
    SecondaryStartKeepsWriters(p);
    SecondaryStartLog(p);
    var q := AfterStartSecondary(p).0;
    forall n | n in {SquelchPipe, ShiftPipe, BpfPipe}
      ensures ReadyToSend(q, command, n)
    {
      CreatedPathTruthy(base, command, n);
    }
  }

  /** The FIFO paths try_delete_pipes removes for these names: those of the truthy attributes. */
  function DeletedPaths(s: DspState, names: seq<PipeName>): set<string> {
    set n | n in names && Truthy(s, n) :: s.pipePath[n].value
  }

  /**
   * stop: both flags are cleared, the primary process is killed, and so are
   * the secondary ones when the secondary chain ran; only processes and
   * FIFOs change otherwise.
   */
  lemma StopState(s: DspState)
    ensures var r := AfterStop(s);
      && !r.running && !r.secondaryRunning && r.config == s.config
      && r.pipePath == s.pipePath && r.writers == s.writers && r.controlLog == s.controlLog
      && r.outputs == s.outputs && r.nextPid == s.nextPid && r.process == s.process
      && r.pipeNames == s.pipeNames && r.secondaryPipeNames == s.secondaryPipeNames
      && r.live <= s.live
      && (s.process.Some? ==> s.process.value !in r.live)
      && (s.secondaryRunning && s.secondaryFft.Some? ==> s.secondaryFft.value !in r.live)
      && (s.secondaryRunning && s.secondaryDemod.Some? ==> s.secondaryDemod.value !in r.live)
  {
  }

  /** stop removes exactly the FIFOs of the truthy primary pipes, and those of the secondary ones when the secondary chain ran. */
  lemma StopRemovesFifos(s: DspState)
    ensures AfterStop(s).fifos
         == s.fifos - DeletedPaths(s, s.pipeNames) - (if s.secondaryRunning then DeletedPaths(s, s.secondaryPipeNames) else {})
  {
    var t := Killed(s.(running := false), s.process);
    var u := AfterStopSecondary(t);
    if s.secondaryRunning {
      DeletePipesRemoves(t, s.secondaryPipeNames);
      assert DeletedPaths(t, s.secondaryPipeNames) == DeletedPaths(s, s.secondaryPipeNames);
    }
    DeletePipesRemoves(u, s.pipeNames);
    assert DeletedPaths(u, s.pipeNames) == DeletedPaths(s, s.pipeNames);
  }

  /** Stopping a stopped controller changes nothing more. */
  lemma StopIdempotent(s: DspState)
    ensures AfterStop(AfterStop(s)) == AfterStop(s)
  {
    var r := AfterStop(s);
    StopState(s);
    StopState(r);
    StopRemovesFifos(s);
    StopRemovesFifos(r);
    assert DeletedPaths(r, r.pipeNames) == DeletedPaths(s, s.pipeNames);
    if s.process.Some? {
      assert r.live - {s.process.value} == r.live;
    }
  }

  /**
   * restart does nothing to a stopped controller, and leaves a running one
   * running with the same settings and a fresh primary process, unless the
   * FFT frame rate is zero, when the start raises.
   */
  lemma RestartKeepsRunning(s: DspState, instanceId: nat)
    requires Sane(s.config)
    ensures !s.running ==> AfterRestart(s, instanceId) == (s, false)
    ensures var (r, raised) := AfterRestart(s, instanceId);
      && r.running == s.running && r.config == s.config
      && (s.running && s.config.fftFps != 0 ==> r.process == Some(s.nextPid) && s.nextPid in r.live)
      && (s.running && s.config.fftFps == 0 ==> raised)
  {
    if s.running {
      StopState(s);
      StartFromStopped(AfterStop(s), instanceId);
    }
  }

  /**
   * The watcher restarts the controller only after a clean exit while it
   * runs and nobody reconfigures it; it then runs again, with a fresh
   * process when the FFT frame rate is nonzero. Any other exit leaves
   * everything as it is.
   */
  lemma WatcherRestartsOnlyOnCleanExit(s: DspState, instanceId: nat, rc: int, locked: bool)
    requires Sane(s.config)
    ensures var (r, raised) := AfterWatcherExit(s, instanceId, rc, locked);
      && (rc != 0 || !s.running || locked ==> r == s && !raised)
      && (rc == 0 && s.running && !locked ==> r.running && r.config == s.config)
      && (rc == 0 && s.running && !locked && s.config.fftFps != 0 ==> r.process == Some(s.nextPid))
  {
    RestartKeepsRunning(s, instanceId);
  }

  /**
   * The FIFOs start_secondary_demodulator adds are the secondary ones, all
   * of them recorded where stop finds them once the secondary chain runs.
   */
  lemma SecondaryStartFifos(p: DspState)
    requires Sane(p.config) && StandardPipes(p)
    ensures var q := AfterStartSecondary(p).0;
      q.fifos <= p.fifos + (if q.secondaryRunning then DeletedPaths(q, q.secondaryPipeNames) else {})
  {
    var c := p.config;
    var sd := c.secondaryDemodulator;
    if HasSecondary(sd) && SecondaryChain(c, sd.value).Some? {
      var command := SecondaryCommand(c, sd.value);
      var t := CreatePipes(p, p.secondaryPipeNames, command);
      var q := LaunchSecondary(t, sd.value);
      CreatePipesFifos(p, p.secondaryPipeNames, command);
      LaunchKeepsPipes(t, sd.value);
      LaunchKeepsFlags(t, sd.value);
      LaunchedSecondaryMade(p, sd.value);
      assert AfterStartSecondary(p).0 == q;
    }
  }

  /** The FIFO the secondary pipes get, if any, is one stop deletes once the secondary processes run. */
  lemma LaunchedSecondaryMade(p: DspState, which: Demodulator)
    requires Sane(p.config) && StandardPipes(p) && SecondaryChain(p.config, which).Some?
    ensures var command := SecondaryCommand(p.config, which);
      var q := LaunchSecondary(CreatePipes(p, p.secondaryPipeNames, command), which);
      MadeFifos(p.pipeBasePath, p.secondaryPipeNames, command) <= DeletedPaths(q, q.secondaryPipeNames)
  {
    var command := SecondaryCommand(p.config, which);
    var t := CreatePipes(p, p.secondaryPipeNames, command);
    var q := LaunchSecondary(t, which);
    CreateOnePipe(p, SecondaryShiftPipe, command);
    LaunchKeepsPipes(t, which);
    LaunchKeepsFlags(t, which);
    MadeFifosDeleted(q, p.pipeBasePath, q.secondaryPipeNames, command);
  }

  /** The processes start_secondary_demodulator adds are the secondary ones, and the primary one stays. */
  lemma SecondaryStartProcesses(p: DspState)
    requires Sane(p.config)
    ensures var q := AfterStartSecondary(p).0;
      && (forall pid :: pid in q.live && pid !in p.live ==>
            q.secondaryRunning && (q.secondaryFft == Some(pid) || q.secondaryDemod == Some(pid)))
      && q.process == p.process
  {
    var c := p.config;
    var sd := c.secondaryDemodulator;
    if HasSecondary(sd) && SecondaryChain(c, sd.value).Some? {
      var t := CreatePipes(p, p.secondaryPipeNames, SecondaryCommand(c, sd.value));
      LaunchedPids(t, sd.value);
      LaunchKeepsFlags(t, sd.value);
      assert t.live == p.live && t.process == p.process;
    } else {
      assert AfterStartSecondary(p).0 == p;
    }
  }

  /** The FIFOs of the first steps of start: those of the primary pipes the command mentions. */
  lemma PreparedFifos(s: DspState, instanceId: nat, command: seq<Stage>)
    ensures var base := PipeBasePath(s.config.temporaryDirectory, instanceId);
      && PrepareStart(s, instanceId, s.pipeNames, command).0.fifos == s.fifos + MadeFifos(base, s.pipeNames, command)
      && Prepared(s, instanceId, command).fifos == s.fifos + MadeFifos(base, s.pipeNames, command)
  {
    var base := PipeBasePath(s.config.temporaryDirectory, instanceId);
    CreatePipesFifos(s.(running := true, pipeBasePath := base), s.pipeNames, command);
  }

  /** When the pipes carry the paths try_create_pipes gives them, the FIFOs it made are those stop deletes. */
  lemma MadeFifosDeleted(a: DspState, base: string, names: seq<PipeName>, command: seq<Stage>)
    requires forall n :: n in names ==> n in a.pipePath && a.pipePath[n] == CreatedPath(base, command, n)
    ensures MadeFifos(base, names, command) <= DeletedPaths(a, names)
  {
    forall path | path in MadeFifos(base, names, command)
      ensures path in DeletedPaths(a, names)
    {
      var n :| n in names && Mentions(command, n) && path == base + PipeNameText(n);
      assert Truthy(a, n);
    }
  }

  /** After a start from a stopped controller, the primary FIFOs it made are those of truthy primary pipes. */
  lemma StartPrimaryFifos(s: DspState, instanceId: nat)
    requires Sane(s.config) && !s.running && StandardPipes(s)
    ensures var a := AfterStart(s, instanceId).0;
      var base := PipeBasePath(s.config.temporaryDirectory, instanceId);
      MadeFifos(base, s.pipeNames, Chain(s.config, s.config.demodulator)) <= DeletedPaths(a, a.pipeNames)
  {
    var a := AfterStart(s, instanceId).0;
    StartCreatesCommandPipes(s, instanceId);
    StartFromStopped(s, instanceId);
    MadeFifosDeleted(a, PipeBasePath(s.config.temporaryDirectory, instanceId), s.pipeNames, Chain(s.config, s.config.demodulator));
  }

  /**
   * Every FIFO a start from a stopped controller adds is one that stop
   * removes: that of a truthy primary pipe, or of a secondary pipe once the
   * secondary chain runs.
   */
  lemma StartFifos(s: DspState, instanceId: nat)
    requires Sane(s.config) && !s.running && StandardPipes(s)
    ensures var a := AfterStart(s, instanceId).0;
      a.fifos <= s.fifos + DeletedPaths(a, a.pipeNames)
                 + (if a.secondaryRunning then DeletedPaths(a, a.secondaryPipeNames) else {})
  {
    var c := s.config;
    var chain := Chain(c, c.demodulator);
    var p := Prepared(s, instanceId, chain);
    PreparedFifos(s, instanceId, chain);
    StartPrimaryFifos(s, instanceId);
    if c.fftFps != 0 {
      PreparedFlags(s, instanceId, chain);
      assert StandardPipes(p);
      SecondaryStartFifos(p);
      StartUnlockedKeeps(s, instanceId);
    }
  }

  /**
   * Every process a start from a stopped controller adds is one that stop
   * kills: the primary one, or a secondary one once the secondary chain runs.
   */
  lemma StartProcesses(s: DspState, instanceId: nat)
    requires Sane(s.config) && !s.running
    ensures var a := AfterStart(s, instanceId).0;
      forall pid :: pid in a.live && pid !in s.live ==>
        a.process == Some(pid) || (a.secondaryRunning && (a.secondaryFft == Some(pid) || a.secondaryDemod == Some(pid)))
  {
    var c := s.config;
    var chain := Chain(c, c.demodulator);
    var a := AfterStart(s, instanceId).0;
    if c.fftFps != 0 {
      LockedStartProcesses(s, instanceId);
      StartUnlockedKeeps(s, instanceId);
    } else {
      assert a == PrepareStart(s, instanceId, s.pipeNames, chain).0;
    }
  }

  /** The same for the locked part of a start that gets past the FFT frame rate. */
  lemma LockedStartProcesses(s: DspState, instanceId: nat)
    requires Sane(s.config) && !s.running && s.config.fftFps != 0
    ensures var q := AfterStartSecondary(Prepared(s, instanceId, Chain(s.config, s.config.demodulator))).0;
      forall pid :: pid in q.live && pid !in s.live ==>
        q.process == Some(pid) || (q.secondaryRunning && (q.secondaryFft == Some(pid) || q.secondaryDemod == Some(pid)))
  {
    var chain := Chain(s.config, s.config.demodulator);
    var p := Prepared(s, instanceId, chain);
    PreparedFlags(s, instanceId, chain);
    SecondaryStartProcesses(p);
  }

  /**
   * start followed by stop leaves no FIFO and no process behind that was
   * not there before the start.
   */
  lemma StartThenStop(s: DspState, instanceId: nat)
    requires Sane(s.config) && !s.running && StandardPipes(s)
    ensures var r := AfterStop(AfterStart(s, instanceId).0);
      && !r.running && !r.secondaryRunning
      && r.fifos <= s.fifos && r.live <= s.live
  {
    var a := AfterStart(s, instanceId).0;
    var r := AfterStop(a);
    StopState(a);
    assert r.fifos <= s.fifos by {
      StartFifos(s, instanceId);
      StopRemovesFifos(a);
    }
    assert r.live <= s.live by {
      StartProcesses(s, instanceId);
    }
  }
}
