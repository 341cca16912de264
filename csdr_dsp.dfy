/**
 * The controller object itself (class dsp in csdr.py): its attributes are
 * fields, and each method updates them in place as the source does. Every
 * method is proved to produce the state the corresponding function of the
 * Csdr module describes.
 */
module CsdrDsp {
  import opened Basics
  import opened Modes
  import opened Rates
  import opened Stages
  import opened CsdrChain
  import opened Csdr

  /** The state of a freshly constructed controller: default settings, nothing created or started. */
  const InitialState: DspState :=
    DspState(DefaultConfig, false, false, "", map[], {}, {}, [], None, None, None, {}, 0, [],
             PrimaryPipeNames, SecondaryPipeNames)

  class Dsp {
    var config: Config
    var running: bool
    var secondaryRunning: bool
    var pipeBasePath: string
    var pipePath: map<PipeName, Option<string>>
    var fifos: set<string>
    var writers: set<PipeName>
    var controlLog: seq<ControlWrite>
    var process: Option<nat>
    var secondaryFft: Option<nat>
    var secondaryDemod: Option<nat>
    var live: set<nat>
    var nextPid: nat
    var outputs: seq<Output>
    /** id(self), which makes the FIFO paths of two controllers distinct. */
    const instanceId: nat
    /** pipe_names and secondary_pipe_names, fixed by the constructor. */
    const pipeNames: seq<PipeName>
    const secondaryPipeNames: seq<PipeName>

    /** The fields, gathered into one value. */
    function State(): DspState
      reads this
    {
      DspState(config, running, secondaryRunning, pipeBasePath, pipePath, fifos, writers,
               controlLog, process, secondaryFft, secondaryDemod, live, nextPid, outputs,
               pipeNames, secondaryPipeNames)
    }

    /** Positive rates, and the decimation computed before the controller ever runs. */
    predicate Valid()
      reads this
    {
      Sane(config) && (running ==> config.ratesComputed)
    }

    /** dsp.__init__. */
    constructor(id: nat)
      ensures Valid()
      ensures State() == InitialState && instanceId == id
    {
      config := DefaultConfig;
      running := false;
      secondaryRunning := false;
      pipeBasePath := "";
      pipePath := map[];
      fifos := {};
      writers := {};
      controlLog := [];
      process := None;
      secondaryFft := None;
      secondaryDemod := None;
      live := {};
      nextPid := 0;
      outputs := [];
      instanceId := id;
      pipeNames := PrimaryPipeNames;
      secondaryPipeNames := SecondaryPipeNames;
    }

    /** calculate_decimation, through the loop of get_decimation. */
    method CalculateDecimation()
      requires Valid()
      modifies this
      ensures Valid()
      ensures State() == old(State()).(config := Recalculated(old(config)))
    {
      var decimation, fraction, intermediate := GetDecimation(config.sampRate, AudioRateOf(config));
      DecimationFactorIsLargest(config.sampRate, AudioRateOf(config));
      DecimationUnique(config.sampRate, AudioRateOf(config), decimation, DecimationFactor(config.sampRate, AudioRateOf(config)));
      config := config.(decimation := decimation, lastDecimation := fraction, ratesComputed := true);
    }

    /** try_create_pipes. */
    method TryCreatePipes(names: seq<PipeName>, command: seq<Stage>)
      requires Valid()
      modifies this
      ensures Valid()
      ensures State() == CreatePipes(old(State()), names, command)
    {
      var i := 0;
      while i < |names|
        invariant 0 <= i <= |names|
        invariant Valid()
        invariant CreatePipes(State(), names[i..], command) == CreatePipes(old(State()), names, command)
      {
        var n := names[i];
        assert names[i..][0] == n && names[i..][1..] == names[i + 1..];
        if Mentions(command, n) {
          var path := pipeBasePath + PipeNameText(n);
          pipePath := pipePath[n := Some(path)];
          fifos := fifos + {path};
        } else {
          pipePath := pipePath[n := None];
        }
        i := i + 1;
      }
    }

    /** try_delete_pipes. */
    method TryDeletePipes(names: seq<PipeName>)
      requires Valid()
      modifies this
      ensures Valid()
      ensures State() == DeletePipes(old(State()), names)
    {
      var i := 0;
      while i < |names|
        invariant 0 <= i <= |names|
        invariant Valid()
        invariant DeletePipes(State(), names[i..]) == DeletePipes(old(State()), names)
      {
        var n := names[i];
        assert names[i..][0] == n && names[i..][1..] == names[i + 1..];
        if n in pipePath && pipePath[n].Some? && pipePath[n].value != [] {
          fifos := fifos - {pipePath[n].value};
        }
        i := i + 1;
      }
    }

    /** subprocess.Popen: a new live process. */
    method Spawn() returns (pid: nat)
      requires Valid()
      modifies this
      ensures Valid()
      ensures pid == old(nextPid)
      ensures State() == Spawned(old(State()))
    {
      pid := nextPid;
      live := live + {pid};
      nextPid := nextPid + 1;
    }

    /** os.killpg, ignoring a process that is already gone. */
    method Kill(p: Option<nat>)
      requires Valid()
      modifies this
      ensures Valid()
      ensures State() == Killed(old(State()), p)
    {
      if p.Some? {
        live := live - {p.value};
      }
    }

    /** set_offset_freq; `raised` is the AttributeError of a missing writer. */
    method SetOffsetFreq(offset: int) returns (raised: bool)
      requires Valid()
      modifies this
      ensures Valid()
      ensures (State(), raised) == AfterSetOffsetFreq(old(State()), offset)
    {
      config := config.(offsetFreq := offset);
      raised := false;
      if running {
        if ShiftPipe in writers {
          controlLog := controlLog + [ControlWrite(ShiftPipe, Ratio(ShiftRatio(offset, config.sampRate as real)))];
        } else {
          raised := true;
        }
      }
    }

    /** set_bpf. */
    method SetBpf(low: int, high: int) returns (raised: bool)
      requires Valid()
      modifies this
      ensures Valid()
      ensures (State(), raised) == AfterSetBpf(old(State()), low, high)
    {
      config := config.(lowCut := low, highCut := high);
      raised := false;
      if running {
        if BpfPipe in writers {
          controlLog := controlLog + [ControlWrite(BpfPipe, BandpassBounds(low, high, IfSampRate(config)))];
        } else {
          raised := true;
        }
      }
    }

    /** set_squelch_level. */
    method SetSquelchLevel(level: real) returns (raised: bool)
      requires Valid()
      modifies this
      ensures Valid()
      ensures (State(), raised) == AfterSetSquelchLevel(old(State()), level)
    {
      config := config.(squelchLevel := level);
      var actual := SquelchValue(config.demodulator, level);
      raised := false;
      if running {
        if SquelchPipe in writers {
          controlLog := controlLog + [ControlWrite(SquelchPipe, Level(actual))];
        } else {
          raised := true;
        }
      }
    }

    /** set_secondary_offset_freq. */
    method SetSecondaryOffsetFreq(offset: int)
      requires Valid()
      modifies this
      ensures Valid()
      ensures State() == AfterSetSecondaryOffsetFreq(old(State()), offset)
    {
      config := config.(secondaryOffsetFreq := offset);
      if secondaryRunning && SecondaryShiftPipe in writers {
        controlLog := controlLog + [ControlWrite(SecondaryShiftPipe, Ratio(ShiftRatio(offset, IfSampRate(config))))];
      }
    }

    /** set_dmr_filter: a write whether running or not, raising without a writer. */
    method SetDmrFilter(filter: int) returns (raised: bool)
      requires Valid()
      modifies this
      ensures Valid()
      ensures (State(), raised) == Write(old(State()), DmrControlPipe, Filter(filter))
    {
      raised := DmrControlPipe !in writers;
      if !raised {
        controlLog := controlLog + [ControlWrite(DmrControlPipe, Filter(filter))];
      }
    }

    /** start_secondary_demodulator; `raised` is the TypeError of a secondary mode without a chain. */
    method StartSecondaryDemodulator() returns (raised: bool)
      requires Valid()
      modifies this
      ensures Valid()
      ensures (State(), raised) == AfterStartSecondary(old(State()))
    {
      raised := false;
      var sd := config.secondaryDemodulator;
      if !HasSecondary(sd) {
        return;
      }
      var demod := SecondaryChain(config, sd.value);
      if demod.None? {
        raised := true;
        return;
      }
      TryCreatePipes(secondaryPipeNames, SecondaryCommand(config, sd.value));
      LaunchSecondaryProcesses(sd.value);
    }

    /** The secondary FFT and demodulator processes and their outputs. */
    method SpawnSecondaryProcesses(which: Demodulator)
      requires Valid()
      modifies this
      ensures Valid()
      ensures State() == SpawnSecondary(old(State()), which)
    {
      var fftPid := Spawn();
      var demodPid := Spawn();
      secondaryFft := Some(fftPid);
      secondaryDemod := Some(demodPid);
      secondaryRunning := true;
      outputs := outputs + [StreamReader(SecondaryFft, SecondaryFftReadSize(config)), SecondaryDemodOutput(which)];
    }

    /**
     * The rest of start_secondary_demodulator once its pipes exist: both
     * processes, their outputs, and the shift pipe's writer and first write.
     */
    method LaunchSecondaryProcesses(which: Demodulator)
      requires Valid()
      modifies this
      ensures Valid()
      ensures State() == LaunchSecondary(old(State()), which)
    {
      SpawnSecondaryProcesses(which);
      if IsSet(State(), SecondaryShiftPipe) {
        writers := writers + {SecondaryShiftPipe};
        SetSecondaryOffsetFreq(config.secondaryOffsetFreq);
      }
    }

    /** Open a writer on a control pipe when its attribute is truthy (the `if self.x_pipe:` blocks of start). */
    method OpenPipeWriter(n: PipeName)
      requires Valid()
      modifies this
      ensures Valid()
      ensures State() == OpenWriter(old(State()), n)
    {
      if n in pipePath && pipePath[n].Some? && pipePath[n].value != [] {
        writers := writers + {n};
      }
    }

    /** The first steps of start: the flag, the pipes of the chain, fft_block_size (raising for a zero frame rate), the process and the audio output. */
    method Prepare(command: seq<Stage>) returns (raised: bool)
      requires Valid() && config.ratesComputed
      modifies this
      ensures Valid()
      ensures (State(), raised) == PrepareStart(old(State()), instanceId, pipeNames, command)
    {
      running := true;
      pipeBasePath := PipeBasePath(config.temporaryDirectory, instanceId);
      TryCreatePipes(pipeNames, command);
      var blockSize := FftBlockSize(config.sampRate, config.fftFps, config.fftAverages);
      if blockSize.None? {
        return true;
      }
      LaunchPrimaryProcess();
      raised := false;
    }

    /** The primary process and its "audio" output. */
    method LaunchPrimaryProcess()
      requires Valid()
      modifies this
      ensures Valid()
      ensures State() == LaunchPrimary(old(State()))
    {
      var pid := Spawn();
      process := Some(pid);
      outputs := outputs + [StreamReader(Audio, AudioReadSize(config))];
    }

    /** The writers of the band-pass, shift and squelch pipes. */
    method OpenControlPipeWriters()
      requires Valid()
      modifies this
      ensures Valid()
      ensures State() == OpenControlWriters(old(State()))
    {
      OpenPipeWriter(BpfPipe);
      OpenPipeWriter(ShiftPipe);
      OpenPipeWriter(SquelchPipe);
    }

    /** The initial squelch, offset and band-pass writes of start, through the setters. */
    method SendInitialSettings()
      requires Valid()
      modifies this
      ensures Valid()
      ensures State() == SendBpf(SendOffset(SendSquelch(old(State()))))
    {
      var ignored: bool;
      if Truthy(State(), SquelchPipe) {
        ignored := SetSquelchLevel(config.squelchLevel);
      }
      ghost var squelched := State();
      if Truthy(State(), ShiftPipe) {
        ignored := SetOffsetFreq(config.offsetFreq);
      }
      assert State() == SendOffset(squelched);
      if Truthy(State(), BpfPipe) {
        ignored := SetBpf(config.lowCut, config.highCut);
      }
    }

    /** The s-meter and metadata readers and the DMR control writer. */
    method AddReaders()
      requires Valid()
      modifies this
      ensures Valid()
      ensures State() == AddReadersAndDmrWriter(old(State()))
    {
      if Truthy(State(), SmeterPipe) {
        outputs := outputs + [LineReader(Smeter)];
      }
      if IsSet(State(), MetaPipe) {
        outputs := outputs + [LineReader(Meta)];
      }
      OpenPipeWriter(DmrControlPipe);
    }

    /** start; `raised` reports the TypeError of start_secondary_demodulator, which leaves the rest undone. */
    method Start() returns (raised: bool)
      requires Valid() && config.ratesComputed
      modifies this
      ensures Valid()
      ensures (State(), raised) == AfterStart(old(State()), instanceId)
    {
      raised := false;
      if running {
        return;
      }
      raised := Prepare(Chain(config, config.demodulator));
      if raised {
        return;
      }
      OpenControlPipeWriters();
      raised := StartSecondaryDemodulator();
      if raised {
        return;
      }
      SendInitialSettings();
      AddReaders();
    }

    /** stop_secondary_demodulator. */
    method StopSecondaryDemodulator()
      requires Valid()
      modifies this
      ensures Valid()
      ensures State() == AfterStopSecondary(old(State()))
    {
      if !secondaryRunning {
        return;
      }
      TryDeletePipes(secondaryPipeNames);
      ghost var deleted := State();
      Kill(secondaryFft);
      Kill(secondaryDemod);
      assert State() == Killed(Killed(deleted, deleted.secondaryFft), deleted.secondaryDemod);
      secondaryRunning := false;
    }

    /** stop. */
    method Stop()
      requires Valid()
      modifies this
      ensures Valid()
      ensures State() == AfterStop(old(State()))
    {
      ghost var s0 := State();
      running := false;
      Kill(process);
      assert State() == Killed(s0.(running := false), s0.process);
      StopSecondaryDemodulator();
      TryDeletePipes(pipeNames);
    }

    /** restart. */
    method Restart() returns (raised: bool)
      requires Valid()
      modifies this
      ensures Valid()
      ensures (State(), raised) == AfterRestart(old(State()), instanceId)
    {
      raised := false;
      if !running {
        return;
      }
      Stop();
      raised := Start();
    }

    /** watch_thread, once the primary process has exited with `rc`; `locked` is the state of the modification lock. */
    method WatcherExit(rc: int, locked: bool) returns (raised: bool)
      requires Valid()
      modifies this
      ensures Valid()
      ensures (State(), raised) == AfterWatcherExit(old(State()), instanceId, rc, locked)
    {
      raised := false;
      if rc == 0 && running && !locked {
        raised := Restart();
      }
    }

    /** set_samp_rate: recompute the decimation, and restart when running. */
    method SetSampRate(sampRate: int) returns (raised: bool)
      requires Valid() && sampRate > 0
      modifies this
      ensures Valid()
      ensures (State(), raised)
           == AfterRestart(old(State()).(config := Recalculated(old(config).(sampRate := sampRate))), instanceId)
    {
      config := config.(sampRate := sampRate);
      CalculateDecimation();
      raised := false;
      if running {
        raised := Restart();
      }
    }

    /** set_output_rate: recompute the decimation, without a restart. */
    method SetOutputRate(outputRate: int)
      requires Valid() && outputRate > 0
      modifies this
      ensures Valid()
      ensures State() == old(State()).(config := Recalculated(old(config).(outputRate := outputRate)))
    {
      config := config.(outputRate := outputRate);
      CalculateDecimation();
    }

    /** set_demodulator: nothing when unchanged; otherwise recompute the decimation and restart. */
    method SetDemodulator(demodulator: Demodulator) returns (raised: bool)
      requires Valid()
      modifies this
      ensures Valid()
      ensures demodulator == old(config.demodulator) ==> State() == old(State()) && !raised
      ensures demodulator != old(config.demodulator) ==>
        (State(), raised)
        == AfterRestart(old(State()).(config := Recalculated(old(config).(demodulator := demodulator))), instanceId)
    {
      raised := false;
      if config.demodulator == demodulator {
        return;
      }
      config := config.(demodulator := demodulator);
      CalculateDecimation();
      raised := Restart();
    }

    /** set_secondary_demodulator: nothing when unchanged; otherwise recompute the decimation and restart. */
    method SetSecondaryDemodulator(what: Option<Demodulator>) returns (raised: bool)
      requires Valid()
      modifies this
      ensures Valid()
      ensures what == old(config.secondaryDemodulator) ==> State() == old(State()) && !raised
      ensures what != old(config.secondaryDemodulator) ==>
        (State(), raised)
        == AfterRestart(old(State()).(config := Recalculated(old(config).(secondaryDemodulator := what))), instanceId)
    {
      raised := false;
      if config.secondaryDemodulator == what {
        return;
      }
      config := config.(secondaryDemodulator := what);
      CalculateDecimation();
      raised := Restart();
    }

    /** set_fft_size: store, then restart. */
    method SetFftSize(fftSize: int) returns (raised: bool)
      requires Valid()
      modifies this
      ensures Valid()
      ensures (State(), raised) == AfterRestart(old(State()).(config := old(config).(fftSize := fftSize)), instanceId)
    {
      config := config.(fftSize := fftSize);
      raised := Restart();
    }

    /** set_fft_fps: store, then restart. */
    method SetFftFps(fftFps: int) returns (raised: bool)
      requires Valid()
      modifies this
      ensures Valid()
      ensures (State(), raised) == AfterRestart(old(State()).(config := old(config).(fftFps := fftFps)), instanceId)
    {
      config := config.(fftFps := fftFps);
      raised := Restart();
    }

    /** set_fft_averages: store, then restart. */
    method SetFftAverages(fftAverages: int) returns (raised: bool)
      requires Valid()
      modifies this
      ensures Valid()
      ensures (State(), raised) == AfterRestart(old(State()).(config := old(config).(fftAverages := fftAverages)), instanceId)
    {
      config := config.(fftAverages := fftAverages);
      raised := Restart();
    }

    /** set_unvoiced_quality: store, then restart. */
    method SetUnvoicedQuality(quality: int) returns (raised: bool)
      requires Valid()
      modifies this
      ensures Valid()
      ensures (State(), raised) == AfterRestart(old(State()).(config := old(config).(unvoicedQuality := quality)), instanceId)
    {
      config := config.(unvoicedQuality := quality);
      raised := Restart();
    }

    /** set_secondary_fft_size: takes effect at the next start. */
    method SetSecondaryFftSize(size: int)
      requires Valid()
      modifies this
      ensures Valid()
      ensures State() == old(State()).(config := old(config).(secondaryFftSize := size))
    {
      config := config.(secondaryFftSize := size);
    }

    /** set_audio_compression: takes effect at the next start. */
    method SetAudioCompression(what: Compression)
      requires Valid()
      modifies this
      ensures Valid()
      ensures State() == old(State()).(config := old(config).(audioCompression := what))
    {
      config := config.(audioCompression := what);
    }

    /** set_fft_compression: takes effect at the next start. */
    method SetFftCompression(what: Compression)
      requires Valid()
      modifies this
      ensures Valid()
      ensures State() == old(State()).(config := old(config).(fftCompression := what))
    {
      config := config.(fftCompression := what);
    }

    /** set_temporary_directory: where the next start puts its FIFOs. */
    method SetTemporaryDirectory(what: string)
      requires Valid()
      modifies this
      ensures Valid()
      ensures State() == old(State()).(config := old(config).(temporaryDirectory := what))
    {
      config := config.(temporaryDirectory := what);
    }
  }
}
