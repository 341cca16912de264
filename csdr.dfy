/**
 * The csdr controller (class dsp in csdr.py): its settings, the running
 * flags, the control pipes it creates and deletes, the processes it spawns
 * and kills, the writes it sends into the control pipes and the outputs it
 * registers. Operating-system effects are abstract: a FIFO is a path in the
 * set `fifos`, a process is a number in the set `live`, and an open pipe
 * writer is a pipe name in `writers`.
 *
 * Each operation is a method of the class Dsp and, beside it, a function
 * from the state before to the state after (and whether the source raises
 * an exception on the way). The methods are proved to follow the functions,
 * and the properties of the controller are lemmas about the functions.
 */
module Csdr {
  import opened Basics
  import opened Modes
  import opened Rates
  import opened Stages
  import opened CsdrChain
  import opened Text

  /**
   * The output types the controller registers readers under: "audio",
   * "smeter", "meta", "secondary_fft", "secondary_demod" and "wsjt_demod".
   */
  datatype OutputType = Audio | Smeter | Meta | SecondaryFft | SecondaryDemod | WsjtDemod

  /** A reader registered with the output collaborator (output.add_output). */
  datatype Output =
    | StreamReader(kind: OutputType, size: int)        // reads `size` bytes of a process's stdout
    | LineReader(kind: OutputType)                     // reads one line from a named pipe
    | ChopperReader(kind: OutputType, mode: Demodulator) // the read method of a WSJT chopper

  /** Everything the controller's operations read or change. */
  datatype DspState = DspState(
    config: Config,
    running: bool,
    secondaryRunning: bool,
    pipeBasePath: string,
    pipePath: map<PipeName, Option<string>>, // the *_pipe attributes; a name absent here has none
    fifos: set<string>,                      // FIFOs present in the file system
    writers: set<PipeName>,                  // pipes with an open *_pipe_file writer
    controlLog: seq<ControlWrite>,           // everything written into the control pipes
    process: Option<nat>,
    secondaryFft: Option<nat>,
    secondaryDemod: Option<nat>,
    live: set<nat>,                          // processes that have not been killed
    nextPid: nat,
    outputs: seq<Output>,
    pipeNames: seq<PipeName>,                // the pipes start and stop create and delete
    secondaryPipeNames: seq<PipeName>)       // the same for the secondary chain

  /** The rates every division of the controller relies on are positive, and the decimation is a factor. */
  predicate Sane(c: Config) {
    c.sampRate > 0 && c.outputRate > 0 && c.decimation >= 1
  }

  /** Python truthiness of a pipe attribute: set, and not the empty path. */
  predicate Truthy(s: DspState, n: PipeName) {
    n in s.pipePath && s.pipePath[n].Some? && s.pipePath[n].value != []
  }

  /** A pipe attribute that is not None. */
  predicate IsSet(s: DspState, n: PipeName) {
    n in s.pipePath && s.pipePath[n].Some?
  }

  /** The prefix of every FIFO path of one controller instance. */
  function PipeBasePath(temporaryDirectory: string, instanceId: nat): (base: string)
    ensures |base| > |temporaryDirectory|
  {
    temporaryDirectory + "/openwebrx_pipe_" + NatText(instanceId) + "_"
  }

  /**
   * try_create_pipes: visit the names in order; a name whose placeholder
   * occurs in the command gets the path base + name and a fresh FIFO there,
   * every other name is set to None. Only the pipe attributes and the FIFOs
   * change.
   */
  function CreatePipes(s: DspState, names: seq<PipeName>, command: seq<Stage>): (r: DspState)
    ensures r == s.(pipePath := r.pipePath, fifos := r.fifos)
    decreases |names|
  {
    if names == [] then s
    else
      var n := names[0];
      var path := s.pipeBasePath + PipeNameText(n);
      var next :=
        if Mentions(command, n) then s.(pipePath := s.pipePath[n := Some(path)], fifos := s.fifos + {path})
        else s.(pipePath := s.pipePath[n := None]);
      CreatePipes(next, names[1..], command)
  }

  /** The paths try_create_pipes leaves behind, name by name. */
  function CreatedPath(base: string, command: seq<Stage>, n: PipeName): Option<string> {
    if Mentions(command, n) then Some(base + PipeNameText(n)) else None
  }

  /**
   * A pipe gets a path exactly when its placeholder occurs in the command,
   * and the names not visited keep their attributes.
   */
  lemma {:induction false} CreatePipesSelects(s: DspState, names: seq<PipeName>, command: seq<Stage>)
    ensures var r := CreatePipes(s, names, command);
      && (forall n :: n in names ==> n in r.pipePath && r.pipePath[n] == CreatedPath(s.pipeBasePath, command, n))
      && (forall n :: n !in names ==> (n in r.pipePath <==> n in s.pipePath))
      && (forall n :: n !in names && n in s.pipePath ==> r.pipePath[n] == s.pipePath[n])
    decreases |names|
  {
    if names != [] {
      var n := names[0];
      var path := s.pipeBasePath + PipeNameText(n);
      var next :=
        if Mentions(command, n) then s.(pipePath := s.pipePath[n := Some(path)], fifos := s.fifos + {path})
        else s.(pipePath := s.pipePath[n := None]);
      CreatePipesSelects(next, names[1..], command);
      assert forall m :: m in names <==> m == n || m in names[1..];
    }
  }

  /** The FIFOs try_create_pipes makes: one at base + name for each visited name the command mentions. */
  function MadeFifos(base: string, names: seq<PipeName>, command: seq<Stage>): set<string> {
    set n | n in names && Mentions(command, n) :: base + PipeNameText(n)
  }

  /** try_create_pipes adds exactly those FIFOs. */
  lemma {:induction false} CreatePipesFifos(s: DspState, names: seq<PipeName>, command: seq<Stage>)
    ensures CreatePipes(s, names, command).fifos == s.fifos + MadeFifos(s.pipeBasePath, names, command)
    decreases |names|
  {
    if names == [] {
      assert MadeFifos(s.pipeBasePath, names, command) == {};
    } else {
      var n := names[0];
      var path := s.pipeBasePath + PipeNameText(n);
      var next :=
        if Mentions(command, n) then s.(pipePath := s.pipePath[n := Some(path)], fifos := s.fifos + {path})
        else s.(pipePath := s.pipePath[n := None]);
      CreatePipesFifos(next, names[1..], command);
      assert MadeFifos(s.pipeBasePath, names, command)
          == (if Mentions(command, n) then {path} else {}) + MadeFifos(s.pipeBasePath, names[1..], command);
    }
  }

  /**
   * try_delete_pipes: remove the FIFO behind every visited name whose
   * attribute is truthy; the attributes themselves stay as they are.
   */
  function DeletePipes(s: DspState, names: seq<PipeName>): (r: DspState)
    ensures r == s.(fifos := r.fifos)
    ensures r.fifos <= s.fifos
    decreases |names|
  {
    if names == [] then s
    else
      var n := names[0];
      var next := if Truthy(s, n) then s.(fifos := s.fifos - {s.pipePath[n].value}) else s;
      DeletePipes(next, names[1..])
  }

  /** Exactly the FIFOs of the visited truthy names disappear. */
  lemma {:induction false} DeletePipesRemoves(s: DspState, names: seq<PipeName>)
    ensures DeletePipes(s, names).fifos
         == s.fifos - (set n | n in names && Truthy(s, n) :: s.pipePath[n].value)
    decreases |names|
  {
    if names != [] {
      var n := names[0];
      var next := if Truthy(s, n) then s.(fifos := s.fifos - {s.pipePath[n].value}) else s;
      DeletePipesRemoves(next, names[1..]);
      assert forall m :: m in names <==> m == n || m in names[1..];
      var rest := set m | m in names[1..] && Truthy(s, m) :: s.pipePath[m].value;
      var all := set m | m in names && Truthy(s, m) :: s.pipePath[m].value;
      assert all == rest + (if Truthy(s, n) then {s.pipePath[n].value} else {});
    }
  }

  /** A new process: the next number becomes live. */
  function Spawned(s: DspState): DspState {
    s.(live := s.live + {s.nextPid}, nextPid := s.nextPid + 1)
  }

  /** os.killpg on a process, when there is one; an already dead process is ignored. */
  function Killed(s: DspState, p: Option<nat>): (r: DspState)
    ensures r == s.(live := r.live)
    ensures p.Some? ==> p.value !in r.live
  {
    if p.Some? then s.(live := s.live - {p.value}) else s
  }

  /**
   * A write into a pipe through its open writer. Without a writer the
   * attribute lookup raises AttributeError, reported as `true`.
   */
  function Write(s: DspState, pipe: PipeName, value: ControlValue): (DspState, bool) {
    if pipe in s.writers then (s.(controlLog := s.controlLog + [ControlWrite(pipe, value)]), false)
    else (s, true)
  }

  /** calculate_decimation: the factor and the residual ratio from the sample rate to the audio rate. */
  function Recalculated(c: Config): (r: Config)
    requires c.outputRate > 0
    ensures r == c.(decimation := r.decimation, lastDecimation := r.lastDecimation, ratesComputed := true)
    ensures IsLargestDecimation(c.sampRate, AudioRateOf(c), r.decimation)
  {
    var audio := AudioRateOf(c);
    var d := DecimationFactor(c.sampRate, audio);
    DecimationFactorIsLargest(c.sampRate, audio);
    c.(decimation := d, lastDecimation := (c.sampRate as real / d as real) / audio as real, ratesComputed := true)
  }

  /** The fractional decimator takes the decimated rate the rest of the way down to the audio rate. */
  lemma RecalculatedResidual(c: Config)
    requires c.outputRate > 0
    ensures var r := Recalculated(c);
      r.lastDecimation * AudioRateOf(c) as real * r.decimation as real == c.sampRate as real
  {
  }

  /** set_offset_freq: store the offset; while running, send the shift relative to the sample rate. */
  function AfterSetOffsetFreq(s: DspState, offset: int): (r: (DspState, bool))
    requires Sane(s.config)
    ensures r.0 == s.(config := s.config.(offsetFreq := offset), controlLog := r.0.controlLog)
    ensures r.1 <==> s.running && ShiftPipe !in s.writers
    ensures s.running && !r.1 ==>
      r.0.controlLog == s.controlLog + [ControlWrite(ShiftPipe, Ratio(ShiftRatio(offset, s.config.sampRate as real)))]
    ensures !s.running ==> r.0.controlLog == s.controlLog
  {
    var t := s.(config := s.config.(offsetFreq := offset));
    if t.running then Write(t, ShiftPipe, Ratio(ShiftRatio(offset, t.config.sampRate as real))) else (t, false)
  }

  /** set_bpf: store the edges; while running, send them relative to the IF rate. */
  function AfterSetBpf(s: DspState, low: int, high: int): (r: (DspState, bool))
    requires Sane(s.config)
    ensures r.0 == s.(config := s.config.(lowCut := low, highCut := high), controlLog := r.0.controlLog)
    ensures r.1 <==> s.running && BpfPipe !in s.writers
    ensures s.running && !r.1 ==>
      r.0.controlLog == s.controlLog + [ControlWrite(BpfPipe, BandpassBounds(low, high, IfSampRate(s.config)))]
    ensures !s.running ==> r.0.controlLog == s.controlLog
  {
    var t := s.(config := s.config.(lowCut := low, highCut := high));
    if t.running then Write(t, BpfPipe, BandpassBounds(low, high, IfSampRate(t.config))) else (t, false)
  }

  /**
   * set_squelch_level: store the level; while running, send it, or zero on a
   * digital-voice mode whatever the stored level.
   */
  function AfterSetSquelchLevel(s: DspState, level: real): (r: (DspState, bool))
    ensures r.0 == s.(config := s.config.(squelchLevel := level), controlLog := r.0.controlLog)
    ensures r.1 <==> s.running && SquelchPipe !in s.writers
    ensures s.running && !r.1 ==>
      r.0.controlLog == s.controlLog + [ControlWrite(SquelchPipe, Level(if IsDigitalVoice(s.config.demodulator) then 0.0 else level))]
    ensures !s.running ==> r.0.controlLog == s.controlLog
  {
    var t := s.(config := s.config.(squelchLevel := level));
    if t.running then Write(t, SquelchPipe, Level(SquelchValue(t.config.demodulator, level))) else (t, false)
  }

  /**
   * set_secondary_offset_freq: store the offset; while the secondary chain
   * runs and its shift pipe has a writer, send the shift relative to the IF
   * rate. Nothing raises here: hasattr guards the write.
   */
  function AfterSetSecondaryOffsetFreq(s: DspState, offset: int): (r: DspState)
    requires Sane(s.config)
    ensures r == s.(config := s.config.(secondaryOffsetFreq := offset), controlLog := r.controlLog)
    ensures r.controlLog
         == s.controlLog + (if s.secondaryRunning && SecondaryShiftPipe in s.writers
                            then [ControlWrite(SecondaryShiftPipe, Ratio(ShiftRatio(offset, IfSampRate(s.config))))]
                            else [])
  {
    var t := s.(config := s.config.(secondaryOffsetFreq := offset));
    if t.secondaryRunning && SecondaryShiftPipe in t.writers then
      t.(controlLog := t.controlLog + [ControlWrite(SecondaryShiftPipe, Ratio(ShiftRatio(offset, IfSampRate(t.config))))])
    else t
  }

  /** The output a secondary demodulator's stdout is registered under. */
  function SecondaryDemodOutput(which: Demodulator): Output {
    if IsWsjt(which) then ChopperReader(WsjtDemod, which) else StreamReader(SecondaryDemod, 1)
  }

  /** The read size of the "secondary_fft" output: one secondary FFT frame. */
  function SecondaryFftReadSize(c: Config): int {
    Truncate(FftBytesToRead(c.fftCompression, c.secondaryFftSize))
  }

  /** The two secondary processes and their outputs, as start_secondary_demodulator registers them. */
  function SpawnSecondary(t: DspState, which: Demodulator): (r: DspState)
    ensures r.config == t.config
  {
    Spawned(Spawned(t)).(
      secondaryFft := Some(t.nextPid),
      secondaryDemod := Some(t.nextPid + 1),
      secondaryRunning := true,
      outputs := t.outputs + [StreamReader(SecondaryFft, SecondaryFftReadSize(t.config)), SecondaryDemodOutput(which)])
  }

  /**
   * What start_secondary_demodulator does once the secondary pipes exist:
   * the FFT and demodulator processes start, their outputs are registered,
   * and the shift pipe, when there is one, gets a writer and the stored
   * offset.
   */
  function LaunchSecondary(t: DspState, which: Demodulator): (r: DspState)
    requires Sane(t.config)
    ensures r.config == t.config
  {
    var u := SpawnSecondary(t, which);
    if IsSet(u, SecondaryShiftPipe) then
      AfterSetSecondaryOffsetFreq(u.(writers := u.writers + {SecondaryShiftPipe}), t.config.secondaryOffsetFreq)
    else u
  }

  /**
   * start_secondary_demodulator. Without a secondary demodulator nothing
   * happens; with one that has no chain the concatenation of None raises
   * TypeError before anything changes. Otherwise the secondary pipes are
   * created from both commands and the chain is launched.
   */
  function AfterStartSecondary(s: DspState): (r: (DspState, bool))
    requires Sane(s.config)
    ensures r.0.config == s.config
  {
    var c := s.config;
    var sd := c.secondaryDemodulator;
    if !HasSecondary(sd) then (s, false)
    else if SecondaryChain(c, sd.value).None? then (s, true)
    else (LaunchSecondary(CreatePipes(s, s.secondaryPipeNames, SecondaryCommand(c, sd.value)), sd.value), false)
  }

  /** The writer opened on a pipe when its attribute is truthy. */
  function OpenWriter(s: DspState, n: PipeName): (r: DspState)
    ensures r == s.(writers := r.writers)
  {
    if Truthy(s, n) then s.(writers := s.writers + {n}) else s
  }

  /** The line reader registered on a pipe when its attribute is truthy, or merely set. */
  function AddLineReader(s: DspState, n: PipeName, kind: OutputType, truthy: bool): (r: DspState)
    ensures r == s.(outputs := r.outputs)
  {
    if (if truthy then Truthy(s, n) else IsSet(s, n)) then s.(outputs := s.outputs + [LineReader(kind)]) else s
  }

  /**
   * The first steps of start: the flag, the pipes of the command, then the
   * command's fft_block_size, which raises ZeroDivisionError for a zero
   * frame rate before the process exists; otherwise the process and the
   * audio output.
   */
  function PrepareStart(s: DspState, instanceId: nat, names: seq<PipeName>, command: seq<Stage>): (r: (DspState, bool))
    ensures r.0.config == s.config && r.0.running
    ensures r.1 <==> s.config.fftFps == 0
    ensures r.1 ==> r.0.process == s.process && r.0.live == s.live && r.0.outputs == s.outputs
  {
    var c := s.config;
    var t := s.(running := true, pipeBasePath := PipeBasePath(c.temporaryDirectory, instanceId));
    var u := CreatePipes(t, names, command);
    if FftBlockSize(c.sampRate, c.fftFps, c.fftAverages).None? then (u, true) else (LaunchPrimary(u), false)
  }

  /** The primary process and its "audio" output. */
  function LaunchPrimary(s: DspState): (r: DspState)
    ensures r.config == s.config && r.running == s.running
  {
    Spawned(s).(process := Some(s.nextPid), outputs := s.outputs + [StreamReader(Audio, AudioReadSize(s.config))])
  }

  /** The writers of the band-pass, shift and squelch pipes, for those the command has. */
  function OpenControlWriters(s: DspState): (r: DspState)
    ensures r == s.(writers := r.writers)
  {
    OpenWriter(OpenWriter(OpenWriter(s, BpfPipe), ShiftPipe), SquelchPipe)
  }

  /**
   * The part of start that runs with the lock held, ending with the
   * secondary chain; a zero FFT frame rate raises before the writers.
   */
  function StartLocked(s: DspState, instanceId: nat): (r: (DspState, bool))
    requires Sane(s.config)
    ensures r.0.config == s.config && r.0.running
    ensures s.config.fftFps == 0 ==> r.1
  {
    var (p, raised) := PrepareStart(s, instanceId, s.pipeNames, Chain(s.config, s.config.demodulator));
    if raised then (p, true) else AfterStartSecondary(OpenControlWriters(p))
  }

  /** The stored squelch level sent through set_squelch_level, when the command has the pipe. */
  function SendSquelch(s: DspState): (r: DspState)
    ensures r == s.(controlLog := r.controlLog)
  {
    if Truthy(s, SquelchPipe) then AfterSetSquelchLevel(s, s.config.squelchLevel).0 else s
  }

  /** The stored offset sent through set_offset_freq, when the command has the pipe. */
  function SendOffset(s: DspState): (r: DspState)
    requires Sane(s.config)
    ensures r == s.(controlLog := r.controlLog)
  {
    if Truthy(s, ShiftPipe) then AfterSetOffsetFreq(s, s.config.offsetFreq).0 else s
  }

  /** The stored band-pass edges sent through set_bpf, when the command has the pipe. */
  function SendBpf(s: DspState): (r: DspState)
    requires Sane(s.config)
    ensures r == s.(controlLog := r.controlLog)
  {
    if Truthy(s, BpfPipe) then AfterSetBpf(s, s.config.lowCut, s.config.highCut).0 else s
  }

  /**
   * The part of start after the lock is released: the initial squelch,
   * offset and band-pass writes, the s-meter and metadata readers, and the
   * DMR control writer.
   */
  function StartUnlocked(s: DspState): (r: DspState)
    requires Sane(s.config)
    ensures r.config == s.config
  {
    AddReadersAndDmrWriter(SendBpf(SendOffset(SendSquelch(s))))
  }

  /** The s-meter reader (truthy pipe), the metadata reader (set pipe) and the DMR control writer. */
  function AddReadersAndDmrWriter(s: DspState): (r: DspState)
    ensures r == s.(outputs := r.outputs, writers := r.writers)
  {
    OpenWriter(AddLineReader(AddLineReader(s, SmeterPipe, Smeter, true), MetaPipe, Meta, false), DmrControlPipe)
  }

  /**
   * start: nothing when already running; otherwise the locked part, and the
   * unlocked part unless the locked part raised (a zero FFT frame rate, or a
   * secondary mode without a chain).
   */
  function AfterStart(s: DspState, instanceId: nat): (r: (DspState, bool))
    requires Sane(s.config)
    ensures r.0.config == s.config
    ensures s.running ==> r == (s, false)
    ensures !s.running ==> r.0.running
    ensures !s.running && s.config.fftFps == 0 ==> r.1
  {
    if s.running then (s, false)
    else
      var (t, raised) := StartLocked(s, instanceId);
      if raised then (t, true) else (StartUnlocked(t), false)
  }

  /** stop_secondary_demodulator: nothing unless the secondary chain runs; then delete its pipes and kill both processes. */
  function AfterStopSecondary(s: DspState): (r: DspState)
    ensures !r.secondaryRunning
  {
    if !s.secondaryRunning then s
    else
      var t := DeletePipes(s, s.secondaryPipeNames);
      Killed(Killed(t, t.secondaryFft), t.secondaryDemod).(secondaryRunning := false)
  }

  /** stop: clear the flag, kill the process if one was ever started, stop the secondary chain, delete the pipes. */
  function AfterStop(s: DspState): (r: DspState)
    ensures r.config == s.config && !r.running && !r.secondaryRunning
  {
    var t := Killed(s.(running := false), s.process);
    DeletePipes(AfterStopSecondary(t), s.pipeNames)
  }

  /** restart: nothing when not running; otherwise stop, then start. */
  function AfterRestart(s: DspState, instanceId: nat): (r: (DspState, bool))
    requires Sane(s.config)
    ensures r.0.config == s.config
  {
    if !s.running then (s, false) else AfterStart(AfterStop(s), instanceId)
  }

  /** The watcher of the primary process: it restarts the controller only on a clean exit while running and unlocked. */
  function AfterWatcherExit(s: DspState, instanceId: nat, rc: int, locked: bool): (DspState, bool)
    requires Sane(s.config)
  {
    if WatcherRestarts(rc, s.running, locked) then AfterRestart(s, instanceId) else (s, false)
  }

  /** The secondary shift write start sends: only the BPSK31 chain has the pipe. */
  function SecondaryStartWrites(c: Config): seq<ControlWrite>
    requires Sane(c)
  {
    if c.secondaryDemodulator == Some(Bpsk31)
    then [ControlWrite(SecondaryShiftPipe, Ratio(ShiftRatio(c.secondaryOffsetFreq, IfSampRate(c))))]
    else []
  }

  /** The writers start opens on the primary pipes: those of the pipes the chain names. */
  function PrimaryWriters(c: Config): set<PipeName> {
    set n | n in {BpfPipe, ShiftPipe, SquelchPipe, DmrControlPipe} && n in ExpectedPipes(c, c.demodulator)
  }
}
