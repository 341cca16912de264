# OpenWebRX backend core in Dafny

This project models three parts of the OpenWebRX receiver backend and proves
properties about them.

- **The csdr controller** (class `dsp` in `csdr.py`). It holds the receiver
  settings and computes the decimation factor and the audio rate. It builds
  the shell pipeline of csdr stages for each demodulator and creates or
  deletes the named control pipes (FIFOs) that pipeline refers to. It starts,
  stops and restarts the primary and secondary processes, and it writes
  tuning, band-pass and squelch values into the control pipes.
- **The WSJT helpers** (`owrx/wsjt.py`).
  - `WsjtChopper` cuts the demodulated audio into files aligned to each
    mode's interval and hands them to the batch decoders.
  - `WsjtParser` turns a decoder's output line into a spot and, when the
    line holds one, a callsign-and-locator update for the map.
- **The WebSocket framing** (`owrx/websocket.py`). This covers the frame
  header encoder, the frame reader and dispatcher of `read_loop`, the opcode
  choice of `send` and the close frame.

Modules, one concept each:

- `Basics`: Option and Byte.
- `Arith`: facts about Euclidean division.
- `Modes`: demodulator kinds and the audio rate.
- `Rates`: the decimation search and the FFT frame sizes.
- `Stages`: pipeline stages and pipe names.
- `CsdrChain`: the chain builders, the set of pipes each chain needs, and the
  values sent to the pipes.
- `Csdr`: the controller's state, with one function per operation from the
  state before to the state after.
- `CsdrDsp`: the controller as a class whose methods update its fields in
  place. Each method is proved to produce the state its `Csdr` function
  describes.
- `CsdrLifecycle`: what start, stop, restart and the watcher do to the
  state.
- `WsjtChopping`: chopper timing and the `WsjtChopper` class.
- `Text`: Python's strip, slicing, int() and float() on text.
- `WsjtParsing`: the line parser and the two pattern matchers.
- `WsjtParsingExamples`: the sample lines quoted in the source, parsed.
- `WsjtLines`: the jt9 and wsprd line layouts, written from a spot's values, and the round trips that read them back.
- `WebSocket`: the frame codec and the read loop.

Operating-system effects are abstract:

- a FIFO is a path in the set `fifos`;
- a process is a number in the set `live`;
- an open pipe writer is a pipe name in `writers`;
- every value written into a control pipe is appended to `controlLog`;
- a reader registered with the output collaborator is appended to `outputs`.

Clock readings, `id(self)`, the file names derived from the time, and the
calendar day are parameters.

## Model

| member | source | states |
|---|---|---|
| Modes.AudioRate | csdr.py:365-380 | 48000 for the four digital-voice modes, ahead of any secondary mode; otherwise 12000 when the secondary demodulator is a WSJT mode; otherwise the output rate; positive for a positive output rate |
| Rates.ReachesIff | csdr.py:350 | the true-division test `input / k >= output` holds exactly when `input >= output * k` |
| Rates.DecimationUnique | csdr.py:348-351 | at most one factor is the largest decimation that still reaches the output rate |
| Rates.GetDecimation | csdr.py:348-354 | the loop stops at the largest factor d >= 1 whose decimated rate still reaches the output rate (any larger factor falls short); it returns intermediate = input/d and fraction = (input/d)/output, and fraction >= 1 when input >= output |
| Rates.DecimationFactorIsLargest | csdr.py:348-351 | that closed form is the largest decimation the loop of get_decimation settles on |
| Rates.DecimationExample | csdr.py:42-43 | for 250000 down to 11025 the largest decimation is exactly 22, and the remaining ratio lies between 1.0307 and 1.0308 |
| Rates.FractionIsOneIffExact | csdr.py:107 | the fractional resampler is skipped (last_decimation == 1.0) exactly when the input rate is the output rate times the factor |
| Rates.FftBytesToRead | csdr.py:332-338 | four bytes per bin uncompressed; with ADPCM, half a byte per bin plus five |
| Rates.AdpcmFrameIsSmaller | csdr.py:332-334 | from two bins on, an ADPCM frame is smaller than an uncompressed one |
| Rates.Truncate | csdr.py:273 | int() of a float truncates toward zero: it is the nearest integer at or below a non-negative value and at or above a negative one |
| Rates.FftBlockSize | csdr.py:407-409 | defined exactly when the frame rate is non-zero (otherwise ZeroDivisionError); the block size times the frame rate, times the averages when they are non-zero, gives back the sample rate |
| Rates.SecondaryFftBlockSize | csdr.py:213-214 | defined exactly when the frame rate is non-zero; the size times twice the frame rate times the decimation gives back the sample rate |
| CsdrChain.IfSampRateUndoesDecimation | csdr.py:356-357 | the IF rate times the decimation is the sample rate |
| CsdrChain.FrontEnd | csdr.py:83-85 | the front end starts with the nc input and holds no tap, resampler or encoder |
| CsdrChain.FftStages | csdr.py:86-94 | the waterfall stages are non-empty and hold no tap, resampler or encoder |
| CsdrChain.TeeStages | csdr.py:101-105 | the two tee stages are present exactly when a secondary demodulator is set |
| CsdrChain.LastDecimationBlock | csdr.py:107 | the fractional resampler is present exactly when last_decimation != 1.0 |
| CsdrChain.VoiceDecoder | csdr.py:124-152 | the dsd and digiham decoder stages hold no tap, encoder or resampler |
| CsdrChain.NfmStages | csdr.py:108-117 | the NFM demodulator holds the resampler exactly when last_decimation != 1.0, and no tap or encoder |
| CsdrChain.VoiceStages | csdr.py:118-157 | the same for the digital-voice demodulators |
| CsdrChain.AmStages | csdr.py:158-168 | the same for AM |
| CsdrChain.SsbStages | csdr.py:169-182 | the same for SSB |
| CsdrChain.DemodStages | csdr.py:106-182 | after the taps, the resampler is present exactly when last_decimation != 1.0 and the mode is nfm, am, ssb or digital voice; an unrecognised mode adds no stage |
| CsdrChain.AudioStages | csdr.py:106-186 | after the taps there is no tee; the ADPCM encoder is present exactly with audio compression, and it is then the last stage |
| CsdrChain.Chain | csdr.py:82-186 | every chain starts with the nc input; every chain except the waterfall contains shift, decimation, band-pass and squelch |
| CsdrChain.ChainTaps | csdr.py:86-105 | both tee stages are in the chain exactly when the mode is not the waterfall and a secondary demodulator is set |
| CsdrChain.ChainResampling | csdr.py:107-171 | the fractional resampler is in the primary chain exactly when last_decimation != 1.0 and the mode is nfm, am, ssb or digital voice |
| CsdrChain.ChainEncoder | csdr.py:184-186 | the ADPCM encoder is in a chain exactly when the mode is not the waterfall and audio compression is on, and it is then the last stage |
| CsdrChain.VoiceDecoderPipes | csdr.py:124-152 | the dsd decoders name no pipe; the DMR decoder names the meta and DMR control pipes; the YSF decoder names the meta pipe |
| CsdrChain.AudioPipes | csdr.py:106-186 | after the taps, the only pipes named are those of the DMR and YSF decoders |
| CsdrChain.IfPipes | csdr.py:95-100 | the shift, decimate, band-pass and squelch stages name exactly the shift, bpf, squelch and smeter pipes |
| CsdrChain.TeePipes | csdr.py:101-105 | the taps name iqtee_pipe and iqtee2_pipe exactly when a secondary demodulator is set |
| CsdrChain.ChainPipes | csdr.py:82-186 | a pipe's placeholder occurs in the primary chain exactly when the pipe is in the mode's expected set: none for the waterfall; shift, bpf, squelch and smeter for every demodulator; both tees with a secondary mode; meta for DMR and YSF; the DMR control pipe for DMR |
| CsdrChain.SecondaryChain | csdr.py:188-204 | a secondary chain exists exactly for fft, bpsk31 and the five WSJT modes (None otherwise); each starts with the cat input; a WSJT chain has the resampler exactly when last_decimation != 1.0 |
| CsdrChain.SecondaryPipes | csdr.py:241-243 | the secondary command (demodulator chain followed by the FFT chain) names a pipe exactly when the mode is bpsk31 and the pipe is secondary_shift_pipe |
| CsdrChain.Psk31Pipes | csdr.py:192-198 | the BPSK31 chain names secondary_shift_pipe and no other pipe |
| CsdrChain.SsbResamplesForWsjt | csdr.py:176-182 | the SSB chain ends with the sox resampler exactly when a WSJT secondary mode is set and the output rate is not 12000 |
| CsdrChain.DefaultNfmChain | csdr.py:41-117 | the default settings, with decimation 22, give nc, shift, decimate, band-pass, squelch, fmdemod, limit, fractional decimator, de-emphasis and convert, in that order |
| CsdrChain.ShiftRatioCancelsOffset | csdr.py:415 | the shift written for an offset, multiplied by the rate, is minus the offset |
| CsdrChain.BandpassBoundsScale | csdr.py:424 | both band-pass edges, multiplied by the IF rate, give back the stored edges; with a positive rate their order is kept |
| CsdrChain.SquelchValue | csdr.py:433-434 | the applied squelch is 0 on digital-voice modes, whatever the stored level, and the stored level otherwise |
| CsdrChain.InitialWritesByMode | csdr.py:532-538 | start sends the waterfall chain nothing; every demodulator chain gets exactly three writes, squelch, then offset, then band-pass, and the squelch write carries the applied squelch |
| CsdrChain.AudioReadSize | csdr.py:519 | the audio output reads 256 bytes unless the mode is the waterfall, which reads at most one FFT frame |
| Stages.MentionsSomeStage | csdr.py:465 | a placeholder occurs in the command exactly when some stage of it refers to that pipe |
| Csdr.PipeBasePath | csdr.py:490 | the FIFO prefix extends the temporary directory, so it is never empty |
| Csdr.CreatePipes | csdr.py:463-469 | try_create_pipes changes only the pipe attributes and the FIFO set |
| Csdr.CreatePipesSelects | csdr.py:463-469 | each visited name is set to base + name when its placeholder is in the command and to None otherwise; names not visited keep their attributes |
| Csdr.CreatePipesFifos | csdr.py:463-469 | a FIFO is added for each created path and for no other |
| Csdr.DeletePipes | csdr.py:471-477 | try_delete_pipes changes only the FIFO set, and only removes from it |
| Csdr.DeletePipesRemoves | csdr.py:471-477 | exactly the FIFOs behind the visited truthy attributes are removed; None and empty paths are skipped |
| Csdr.Killed | csdr.py:565-570 | killing a process removes it from the live set and changes nothing else |
| Csdr.Recalculated | csdr.py:345-346 | calculate_decimation changes only the decimation and last_decimation, and the decimation is the largest one toward the audio rate |
| Csdr.RecalculatedResidual | csdr.py:345-354 | last_decimation times the audio rate times the decimation is the sample rate |
| Csdr.AfterSetOffsetFreq | csdr.py:411-417 | the offset is stored; while running, the shift -offset/samp_rate is written to the shift pipe; a missing writer raises; nothing is written when stopped |
| Csdr.AfterSetBpf | csdr.py:419-426 | both edges are stored; while running, both are written relative to the IF rate; a missing writer raises; nothing is written when stopped |
| Csdr.AfterSetSquelchLevel | csdr.py:431-439 | the level is stored; while running, 0 is written on digital-voice modes and the level otherwise; a missing writer raises; nothing is written when stopped |
| Csdr.AfterSetSecondaryOffsetFreq | csdr.py:296-300 | the offset is stored; the shift relative to the IF rate is written exactly when the secondary chain runs and its pipe has a writer |
| Csdr.SpawnSecondary | csdr.py:264-289 | starting the two secondary processes leaves the settings unchanged |
| Csdr.LaunchSecondary | csdr.py:264-294 | launching the secondary chain leaves the settings unchanged |
| Csdr.AfterStartSecondary | csdr.py:238-294 | start_secondary_demodulator leaves the settings unchanged |
| Csdr.OpenWriter | csdr.py:522-527 | opening a control writer changes only the writer set |
| Csdr.AddLineReader | csdr.py:539-557 | registering the s-meter or meta reader changes only the outputs |
| Csdr.PrepareStart | csdr.py:484-519 | the first steps of start leave the settings unchanged and set the running flag; they raise (ZeroDivisionError in fft_block_size) exactly when the FFT frame rate is 0, and then no process has been started and no output registered |
| Csdr.LaunchPrimary | csdr.py:508-519 | starting the primary process keeps the settings and the running flag |
| Csdr.OpenControlWriters | csdr.py:521-527 | opening the bpf, shift and squelch writers changes only the writer set |
| Csdr.StartLocked | csdr.py:480-530 | the locked part of start leaves the settings unchanged and the controller flagged as running; a zero FFT frame rate always raises |
| Csdr.SendSquelch | csdr.py:533-534 | the initial squelch write changes only the control log |
| Csdr.SendOffset | csdr.py:535-536 | the initial offset write changes only the control log |
| Csdr.SendBpf | csdr.py:537-538 | the initial band-pass write changes only the control log |
| Csdr.StartUnlocked | csdr.py:532-560 | the unlocked part of start leaves the settings unchanged |
| Csdr.AddReadersAndDmrWriter | csdr.py:539-560 | the reader and DMR-writer step changes only the outputs and writers |
| Csdr.AfterStart | csdr.py:479-560 | start on a running controller changes nothing and does not raise; from a stopped one it leaves the controller flagged as running with its settings unchanged, and it raises whenever the FFT frame rate is 0 |
| Csdr.AfterStopSecondary | csdr.py:302-317 | afterwards the secondary chain is not running |
| Csdr.AfterStop | csdr.py:562-575 | afterwards neither chain is running and the settings are unchanged |
| Csdr.AfterRestart | csdr.py:577-580 | restart leaves the settings unchanged |
| CsdrDsp.Dsp.constructor | csdr.py:41-77 | the default settings, nothing created, started or open, and the two pipe-name lists |
| CsdrDsp.Dsp.CalculateDecimation | csdr.py:345-354 | through the loop of get_decimation, the fields become Csdr.Recalculated of the old settings |
| CsdrDsp.Dsp.TryCreatePipes | csdr.py:463-469 | the loop over the names leaves exactly the state of Csdr.CreatePipes |
| CsdrDsp.Dsp.TryDeletePipes | csdr.py:471-477 | the loop over the names leaves exactly the state of Csdr.DeletePipes |
| CsdrDsp.Dsp.Spawn | csdr.py:508 | a new live process, whose number is returned |
| CsdrDsp.Dsp.Kill | csdr.py:565-570 | the state of Csdr.Killed |
| CsdrDsp.Dsp.SetOffsetFreq | csdr.py:411-417 | the state and the raise of Csdr.AfterSetOffsetFreq |
| CsdrDsp.Dsp.SetBpf | csdr.py:419-426 | the state and the raise of Csdr.AfterSetBpf |
| CsdrDsp.Dsp.SetSquelchLevel | csdr.py:431-439 | the state and the raise of Csdr.AfterSetSquelchLevel |
| CsdrDsp.Dsp.SetSecondaryOffsetFreq | csdr.py:296-300 | the state of Csdr.AfterSetSecondaryOffsetFreq |
| CsdrDsp.Dsp.SetDmrFilter | csdr.py:448-451 | the filter is written whether or not the controller runs; a missing writer raises |
| CsdrDsp.Dsp.StartSecondaryDemodulator | csdr.py:238-294 | the state and the raise of Csdr.AfterStartSecondary |
| CsdrDsp.Dsp.SpawnSecondaryProcesses | csdr.py:267-289 | the state of Csdr.SpawnSecondary |
| CsdrDsp.Dsp.LaunchSecondaryProcesses | csdr.py:264-294 | the state of Csdr.LaunchSecondary |
| CsdrDsp.Dsp.OpenPipeWriter | csdr.py:522-527 | the state of Csdr.OpenWriter |
| CsdrDsp.Dsp.Prepare | csdr.py:484-519 | the state and the raise of Csdr.PrepareStart on the controller's own pipe names: a zero FFT frame rate raises before any process starts |
| CsdrDsp.Dsp.LaunchPrimaryProcess | csdr.py:508-519 | the state of Csdr.LaunchPrimary |
| CsdrDsp.Dsp.OpenControlPipeWriters | csdr.py:521-527 | the state of Csdr.OpenControlWriters |
| CsdrDsp.Dsp.SendInitialSettings | csdr.py:532-538 | the initial squelch, offset and band-pass writes through the setters, in that order |
| CsdrDsp.Dsp.AddReaders | csdr.py:539-560 | the state of Csdr.AddReadersAndDmrWriter |
| CsdrDsp.Dsp.Start | csdr.py:479-560 | the state and the raise of Csdr.AfterStart: nothing on a running controller, a raise for a zero FFT frame rate or a secondary mode without a chain |
| CsdrDsp.Dsp.StopSecondaryDemodulator | csdr.py:302-317 | the state of Csdr.AfterStopSecondary |
| CsdrDsp.Dsp.Stop | csdr.py:562-575 | the state of Csdr.AfterStop |
| CsdrDsp.Dsp.Restart | csdr.py:577-580 | the state and the raise of Csdr.AfterRestart |
| CsdrDsp.Dsp.WatcherExit | csdr.py:510-515 | the state and the raise of Csdr.AfterWatcherExit |
| CsdrDsp.Dsp.SetSampRate | csdr.py:340-343 | the new rate is stored, the decimation is recomputed, and the controller restarts only when running |
| CsdrDsp.Dsp.SetOutputRate | csdr.py:382-384 | the new rate is stored and the decimation recomputed, without a restart |
| CsdrDsp.Dsp.SetDemodulator | csdr.py:386-390 | nothing changes when the value is unchanged; otherwise the mode is stored, the decimation recomputed and the controller restarted |
| CsdrDsp.Dsp.SetSecondaryDemodulator | csdr.py:206-211 | nothing changes when the value is unchanged; otherwise the mode is stored, the decimation recomputed and the controller restarted |
| CsdrDsp.Dsp.SetFftSize | csdr.py:395-397 | the value is stored, then restart |
| CsdrDsp.Dsp.SetFftFps | csdr.py:399-401 | the value is stored, then restart, with the raise of Csdr.AfterRestart: on a running controller a zero rate raises, as CsdrLifecycle.RestartKeepsRunning states |
| CsdrDsp.Dsp.SetFftAverages | csdr.py:403-405 | the value is stored, then restart |
| CsdrDsp.Dsp.SetUnvoicedQuality | csdr.py:441-443 | the value is stored, then restart |
| CsdrDsp.Dsp.SetSecondaryFftSize | csdr.py:322-324 | only the value changes |
| CsdrDsp.Dsp.SetAudioCompression | csdr.py:326-327 | only the value changes |
| CsdrDsp.Dsp.SetFftCompression | csdr.py:329-330 | only the value changes |
| CsdrDsp.Dsp.SetTemporaryDirectory | csdr.py:79-80 | only the value changes |
| CsdrLifecycle.ConstructedPipeLists | csdr.py:70-72 | the constructor's pipe lists hold every pipe except secondary_shift_pipe, which is the only secondary pipe |
| CsdrLifecycle.PreparedFlags | csdr.py:484-527 | by the time start reaches the secondary chain, the controller is running with the new base path and its settings, log and lists unchanged, and the primary process is the next process and is live |
| CsdrLifecycle.PreparedPipes | csdr.py:490-527 | by then every primary pipe has its path when the command names it and None otherwise, secondary_shift_pipe is untouched, and each truthy bpf, shift or squelch pipe has a writer |
| CsdrLifecycle.CreatedPathTruthy | csdr.py:466 | a created path is never empty, so it is truthy |
| CsdrLifecycle.SecondaryStartRaises | csdr.py:238-243 | start_secondary_demodulator raises exactly for a secondary mode that has no chain; it keeps the primary flag, process, settings and lists, and only adds processes |
| CsdrLifecycle.SecondaryStartKeepsPrimary | csdr.py:238-294 | start_secondary_demodulator changes no pipe attribute except secondary_shift_pipe |
| CsdrLifecycle.SecondaryStartKeepsWriters | csdr.py:292-294 | start_secondary_demodulator opens no writer except the secondary shift pipe's |
| CsdrLifecycle.LaunchKeepsFlags | csdr.py:264-289 | the secondary launch adds exactly two live processes and keeps the primary flag, process, settings and lists |
| CsdrLifecycle.LaunchKeepsPipes | csdr.py:264-294 | the secondary launch changes no pipe attribute and no FIFO |
| CsdrLifecycle.LaunchKeepsWriters | csdr.py:292-294 | the secondary launch opens no writer except the secondary shift pipe's |
| CsdrLifecycle.SecondaryStartLog | csdr.py:292-300 | the only write start_secondary_demodulator sends is the secondary offset, and only for BPSK31 |
| CsdrLifecycle.CreateOnePipe | csdr.py:463-469 | try_create_pipes on one name sets only that attribute |
| CsdrLifecycle.UnlockedWrites | csdr.py:532-538 | when each control pipe is truthy exactly when the command names it, and then has a writer, the three setters append exactly the initial writes for that command |
| CsdrLifecycle.StartFromStopped | csdr.py:479-528 | start from a stopped controller raises exactly for a zero FFT frame rate or a secondary mode without a chain; either way it leaves the controller running with its settings, the new base path and its pipe lists; with a non-zero rate the primary process is the next number and is live, and with a zero rate no process is started |
| CsdrLifecycle.StartCreatesPipes | csdr.py:486-492 | after start from a stopped controller, every primary pipe the mode expects has the path base + name and every other primary pipe is None |
| CsdrLifecycle.StartCreatesCommandPipes | csdr.py:486-492 | the same, with each path stated through the command's placeholders |
| CsdrLifecycle.ChainPaths | csdr.py:465 | a primary pipe's placeholder occurs in the chain exactly when the mode expects the pipe |
| CsdrLifecycle.StartWrites | csdr.py:479-538 | a start that does not raise appends the secondary offset (BPSK31 only), then the squelch, offset and band-pass writes the primary chain has pipes for |
| CsdrLifecycle.LockedPartReady | csdr.py:480-530 | after the locked part, the log holds only the secondary offset write, and each control pipe is truthy exactly when the command names it, and then has a writer |
| CsdrLifecycle.StopState | csdr.py:562-575 | stop clears both flags and kills the primary process and, if the secondary chain ran, both secondary processes; it changes no setting, attribute, writer, output or log |
| CsdrLifecycle.StopRemovesFifos | csdr.py:302-304 | stop removes exactly the FIFOs of the truthy primary pipes, and those of the secondary pipes when the secondary chain ran |
| CsdrLifecycle.StopIdempotent | csdr.py:562-575 | stopping twice is stopping once |
| CsdrLifecycle.StartThenStop | csdr.py:479-575 | start from a stopped controller followed by stop leaves neither chain running, and no FIFO and no live process that was not there before the start |
| CsdrLifecycle.StartFifos | csdr.py:479-560 | every FIFO start adds is one that stop deletes: a truthy primary pipe's path, or a secondary pipe's once the secondary chain runs |
| CsdrLifecycle.StartProcesses | csdr.py:479-560 | every process start adds is the primary process or, once the secondary chain runs, one of the two secondary processes |
| CsdrLifecycle.SecondaryStartFifos | csdr.py:238-294 | the FIFOs start_secondary_demodulator adds are those of the secondary pipes the command names, and they are recorded where stop finds them |
| CsdrLifecycle.SecondaryStartProcesses | csdr.py:264-289 | the processes start_secondary_demodulator adds are its FFT and demodulator processes; the primary process stays |
| CsdrLifecycle.PreparedFifos | csdr.py:486-492 | the first steps of start add exactly the FIFOs of the primary pipes the command names |
| CsdrLifecycle.MadeFifosDeleted | csdr.py:463-477 | when the pipes carry the paths try_create_pipes gave them, every FIFO it made is one try_delete_pipes removes |
| CsdrLifecycle.StartPrimaryFifos | csdr.py:486-575 | the primary FIFOs start makes are all deleted by stop |
| CsdrLifecycle.SecondaryShiftCreated | csdr.py:241-294 | once the secondary chain is launched, secondary_shift_pipe is set exactly for BPSK31 |
| CsdrLifecycle.StartUnlockedKeeps | csdr.py:532-560 | the unlocked part of start changes only the control log, the outputs and the writers |
| CsdrLifecycle.RestartKeepsRunning | csdr.py:577-580 | restart does nothing when stopped; otherwise the controller runs again with the same settings, with a fresh live primary process when the FFT frame rate is non-zero and a raise when it is 0 |
| CsdrLifecycle.WatcherRestartsOnlyOnCleanExit | csdr.py:510-515 | the watcher changes nothing unless rc == 0, the controller runs and the lock is free; then it restarts the controller, with a fresh primary process when the FFT frame rate is non-zero |
| WsjtChopping.IntervalMillis | owrx/wsjt.py:128-180 | every interval (15, 120, 60, 60 and 7.5 s) is positive and divides an hour |
| WsjtChopping.SecondsInFileNameIffSubMinute | owrx/wsjt.py:128-176 | file names carry seconds exactly for the modes whose interval is not a whole number of minutes |
| WsjtChopping.DecoderCommandLine | owrx/wsjt.py:134-180 | wsprd for WSPR and jt9 otherwise, with the file as the last argument |
| WsjtChopping.HourStart | owrx/wsjt.py:44 | the top of the hour is the multiple of an hour at or below the instant, less than an hour before it |
| WsjtChopping.NextDecodingTime | owrx/wsjt.py:42-49 | the rotation time is strictly after now, at most one interval later, and a whole number of intervals past the top of the hour |
| WsjtChopping.NextDecodingTimeUnique | owrx/wsjt.py:42-49 | these properties single out that time |
| WsjtChopping.AlignedAcrossChoppers | owrx/wsjt.py:42-49 | every rotation time is a multiple of the interval, so choppers of the same mode switch together |
| WsjtChopping.Ft8StartedAtSevenSeconds | owrx/wsjt.py:42-49 | an FT8 chopper started at 12:34:07 first rotates at 12:34:15 |
| WsjtChopping.FirstEnd | owrx/wsjt.py:101-105 | the index of the first None or empty read, and no earlier read ends the stream |
| WsjtChopping.WsjtChopper.constructor | owrx/wsjt.py:19-28 | the first file is active and empty, and the queue is empty |
| WsjtChopping.WsjtChopper.SwitchFiles | owrx/wsjt.py:62-71 | the previously active file is appended to the queue, and a fresh empty file becomes active |
| WsjtChopping.WsjtChopper.Decode | owrx/wsjt.py:93-96 | an empty queue is left alone; otherwise the last-appended file is popped and dispatched (LIFO) |
| WsjtChopping.WsjtChopper.DecoderExited | owrx/wsjt.py:80-89 | the decoded file is removed, whatever the return code |
| WsjtChopping.WsjtChopper.Step | owrx/wsjt.py:101-111 | a None or empty read clears doRun; other data is appended to the active file; then one queued file is decoded |
| WsjtChopping.WsjtChopper.Run | owrx/wsjt.py:98-119 | the loop ends with doRun false and the active file deleted, after dispatching the newest queued files, one per pass, up to the first end of the stream |
| Text.LStrip | owrx/wsjt.py:237 | lstrip removes a leading run of whitespace and stops at the first other character |
| Text.RStrip | owrx/wsjt.py:201 | rstrip removes a trailing run of whitespace and stops at the last other character |
| Text.Strip | owrx/wsjt.py:237 | the result neither starts nor ends with whitespace |
| Text.StripIdempotent | owrx/wsjt.py:262 | stripping twice is stripping once |
| Text.Slice | owrx/wsjt.py:233-243 | Python slicing clamps both bounds to the length, and an out-of-range start gives the empty string |
| Text.ParseIntText | owrx/wsjt.py:243 | int() reads back the decimal text of any integer |
| Text.ParseFloatIntText | owrx/wsjt.py:241 | float() reads an integer's decimal text as that integer |
| Text.ParseClock | owrx/wsjt.py:218-220 | a parsed clock is a second of the day, and a whole minute for the HHMM format |
| Text.ParseClockText | owrx/wsjt.py:218-220 | parsing the clock text strftime writes gives back the time of day |
| Text.StripBlankLast | owrx/wsjt.py:269 | a blank after a column is stripped with the column's padding, so int() and float() read the column as without it |
| Text.ParseFloatFixedText | owrx/wsjt.py:242 | float() reads fixed-point text with one or more decimals back as the value it was written from |
| Text.FixedBodyValue | owrx/wsjt.py:268 | the unsigned fixed-point text of m with k decimals denotes m / 10^k |
| WsjtParsing.ModeName | owrx/wsjt.py:192-197 | the mode is known exactly for the four one-character markers, and is never "WSPR" |
| WsjtParsing.LastSpaceBefore | owrx/wsjt.py:184 | the last whitespace before an index, with none after it |
| WsjtParsing.LocatorMatch | owrx/wsjt.py:184 | a match is a split of the message into a whitespace, an [A-Z0-9]+ callsign, one whitespace and an [A-R]{2}[0-9]{2} locator at the end |
| WsjtParsing.LocatorMatchComplete | owrx/wsjt.py:184 | every way the pattern matches is the match found, so the groups are unique |
| WsjtParsing.ParseLocator | owrx/wsjt.py:248-256 | the map is updated exactly when the pattern matches and the locator is not RR73, with the given mode and band |
| WsjtParsing.CallsignRun | owrx/wsjt.py:185 | the longest leading run of [A-Z0-9] |
| WsjtParsing.WsprMatch | owrx/wsjt.py:185 | a match is a leading callsign run, one whitespace, a locator, one whitespace and at least one digit |
| WsjtParsing.WsprMatchComplete | owrx/wsjt.py:185 | every way the splitter matches is the match found |
| WsjtParsing.ParseWsprMessage | owrx/wsjt.py:274-278 | the map is updated exactly when the splitter matches, always with mode WSPR |
| WsjtParsing.Timestamp | owrx/wsjt.py:218-220 | a parsed timestamp lies within the given day, in milliseconds |
| WsjtParsing.Jt9Columns | owrx/wsjt.py:234-246 | a written spot is a jt9 spot with the given timestamp, a mode other than WSPR and a stripped message; a map update carries a locator other than RR73 (the column contents are WsjtParsing.Jt9ColumnsContents) |
| WsjtParsing.Jt9ColumnsContents | owrx/wsjt.py:234-246 | the spot is written exactly when float(rest[0:3]), float(rest[4:8]) and int(rest[9:13]) convert, and then holds those values, the mode the table gives rest[14:15] and rest[17:53] stripped; the map update is that of the stripped message and mode, whether or not the numbers convert |
| WsjtParsing.Jt9ClockWidth | owrx/wsjt.py:229-232 | the clock is 4 characters (%H%M) exactly when index 19 holds a mode marker, and 6 (%H%M%S) otherwise |
| WsjtParsing.ParseFromJt9 | owrx/wsjt.py:222-246 | the outcome is a spot or a ValueError, and a map update carries a locator other than RR73 (the clock and columns are WsjtParsing.Jt9ClockThenColumns) |
| WsjtParsing.Jt9ClockThenColumns | owrx/wsjt.py:228-246 | a clock of the width WsjtParsing.Jt9ClockWidth chooses that strptime rejects gives a ValueError before any map update; otherwise the outcome is that of the columns after the clock and one blank, stamped with the clock's time |
| WsjtParsing.ParseFromWsprd | owrx/wsjt.py:258-272 | the map update is decided from the stripped text after column 29 before any other column is read; a written spot is a WSPR spot carrying that text, timestamped within the day |
| WsjtParsing.ParseFromWsprdContents | owrx/wsjt.py:258-272 | when the clock msg[0:4] (%H%M), float(msg[5:8]), float(msg[9:13]), float(msg[14:24]) and int(msg[25:28]) all convert, the line is a WSPR spot with that time and those values and msg[29:] stripped, plus the WSPR map update of that text |
| WsjtLines.Jt9ColumnsRoundTrip | owrx/wsjt.py:234-246 | the columns written as jt9 prints them (dB, one-decimal offset, frequency, marker, message) read back as exactly those values, the marker's mode and the message, with that message's map update |
| WsjtLines.ClockTextTimestamp | owrx/wsjt.py:218-220 | the clock text of a time of day parses back to that time, as milliseconds from the start of the day |
| WsjtLines.ParseFromJt9RoundTrip | owrx/wsjt.py:222-246 | a whole jt9 line, with an HHMM or HHMMSS clock and a known marker, reads back as the spot of the values it was written from |
| WsjtLines.ParseJt9RoundTrip | owrx/wsjt.py:199-246 | parse sends such a line to the jt9 reader and gets that spot back |
| WsjtLines.ParseFromWsprdRoundTrip | owrx/wsjt.py:258-272 | a wsprd line laid out as the samples beside parse_from_wsprd (a two-wide drift at 25, the message at 29) and written from a clock, dB, one-decimal offset, six-decimal frequency, drift and message reads back as the WSPR spot of those values, with that message's map update |
| WsjtLines.ParseWsprdRoundTrip | owrx/wsjt.py:199-216 | parse sends such a line to the wsprd reader, since indexes 19 and 21 hold frequency digits, and gets that spot back |
| WsjtLines.WsprSampleIsWsprdLine | owrx/wsjt.py:258-261 | the 0052 sample line beside parse_from_wsprd is the wsprd layout written from its values, so both round trips cover it |
| WsjtParsing.Parse | owrx/wsjt.py:199-216 | the two debug lines are skipped; a line of 21 characters or fewer raises IndexError; otherwise the jt9 format is used exactly when index 21 or 19 holds a mode marker; a spot is timestamped within the day and has a stripped message |
| WsjtParsingExamples.Ft8Sample | owrx/wsjt.py:224 | the FT8 sample line gives an FT8 spot at 22:21:00 with -15 dB, 508 Hz and "CQ EA7MJ IM66", and a map update for EA7MJ in IM66 |
| WsjtParsingExamples.WsprSample | owrx/wsjt.py:261 | the wsprd sample at 00:52 gives a WSPR spot at 0.001486 MHz with drift 0, and a map update for G02CWT in IO92 |
| WsjtParsingExamples.LateWsprSample | owrx/wsjt.py:260 | the sample with the clock "2600" updates the map for G8AXA and is then rejected by the timestamp parser |
| WebSocket.XorBits | owrx/websocket.py:88 | the bitwise exclusive or of k bits stays below 2^k |
| WebSocket.XorBitsTwice | owrx/websocket.py:88 | combining twice with the same bits gives back the original |
| WebSocket.XorTwice | owrx/websocket.py:88 | for bytes, (a ^ k) ^ k == a |
| WebSocket.XorSample | owrx/websocket.py:88 | 0x37 ^ 0xFA == 0xCD, as Python computes it |
| WebSocket.FirstByte | owrx/websocket.py:25 | FIN is set, the three RSV bits are clear, and the low four bits are the opcode's |
| WebSocket.GetHeader | owrx/websocket.py:24-51 | 2 bytes up to 125, 4 bytes with marker 126 up to 65535, 10 bytes with marker 127 above; the first byte is the FIN byte and the mask bit is clear |
| WebSocket.BeValueOfBeBytes | owrx/websocket.py:29-40 | the k-byte big-endian encoding denotes the size modulo 256^k |
| WebSocket.BeBytesAreBytesOf | owrx/websocket.py:32-39 | byte i of the encoding is (size >> 8(k-1-i)) & 0xff |
| WebSocket.LongLengthField | owrx/websocket.py:26-40 | after marker 127 come the 8 big-endian bytes of the size modulo 2^64 |
| WebSocket.MediumLengthField | owrx/websocket.py:41-48 | after marker 126 come the two big-endian bytes of the size |
| WebSocket.Mask | owrx/websocket.py:87-88 | unmasking keeps the length and combines byte i with key byte i mod 4 |
| WebSocket.MaskInvolution | owrx/websocket.py:87-88 | masking twice with the same key restores the data |
| WebSocket.Take | owrx/websocket.py:77-86 | a read returns at most n bytes, fewer only at the end of the stream |
| WebSocket.ReadFrame | owrx/websocket.py:77-88 | a frame is truncated exactly when the header or its 126 extension is short; the opcode is the low four bits of the first byte; the rest of the stream follows the frame; a 7-bit length reads that many bytes, or what is left |
| WebSocket.ServerFrameRoundTrip | owrx/websocket.py:24-51 | reading back a frame written with get_header recovers opcode & 0x0F, the payload and what follows, for sizes up to 65535 |
| WebSocket.ClientFrameLayout | owrx/websocket.py:77-88 | where the header, key and masked payload sit in a client frame |
| WebSocket.ClientFrameRoundTrip | owrx/websocket.py:77-88 | read_loop unmasks a masked client frame back to the payload the client meant |
| WebSocket.LongFrameMisread | owrx/websocket.py:79-86 | a frame with marker 127 is read as a 127-byte payload starting at the length field |
| WebSocket.Dispatch | owrx/websocket.py:89-98 | opcode 1 is a text message, opcode 2 a binary message, and any other opcode except 8 is logged and skipped |
| WebSocket.Session | owrx/websocket.py:74-98 | the loop yields at most one event per two bytes read |
| WebSocket.CloseIsLast | owrx/websocket.py:94-96 | the loop ends by a close exactly when its last event is the close, and no earlier event is |
| WebSocket.ReadLoop | owrx/websocket.py:74-98 | the loop's events and its ending are those of the session |
| WebSocket.CloseHeader | owrx/websocket.py:102 | the close header is [0x88, 0x00] |
| WebSocket.CloseEndsSession | owrx/websocket.py:94-102 | a close frame read by the peer ends its loop, whatever follows |
| WebSocket.SendOpcode | owrx/websocket.py:60-66 | opcode 1 exactly for str data and 2 exactly for anything else |
| WebSocket.Utf8Char | owrx/websocket.py:62 | a character encodes to 1 to 4 bytes, and to one byte exactly when it is ASCII |
| WebSocket.Utf8 | owrx/websocket.py:62 | the encoding is at least as long as the text |
| WebSocket.Utf8LengthIffAscii | owrx/websocket.py:61-62 | len() of a str equals its UTF-8 length exactly when every character is ASCII |
| WebSocket.SendFrameAsWritten | owrx/websocket.py:53-66 | the frame starts with the FIN byte of the chosen opcode and ends with the payload bytes |
| WebSocket.SendFrame | owrx/websocket.py:53-66 | the corrected frame also starts with the FIN byte of the chosen opcode and ends with the payload bytes; its header counts those bytes, which WebSocket.SendFrameRoundTrip relies on |
| WebSocket.SendAgreesOnAscii | owrx/websocket.py:57-66 | on binary data and on ASCII text, which is all json.dumps produces, the two framings agree |
| WebSocket.SendUndercountsNonAscii | owrx/websocket.py:61-62 | text with a character outside ASCII has more payload bytes than characters |
| WebSocket.SendAsWrittenSplitsCharacter | owrx/websocket.py:61-62 | "é" is sent as [0x81, 0x01, 0xC3, 0xA9], and a reader takes the one-byte payload [0xC3] and leaves 0xA9 as the start of the next frame |
| WebSocket.SendFrameRoundTrip | owrx/websocket.py:53-98 | with the corrected length, every message up to 65535 bytes reads back whole with the opcode send chose, and is dispatched as text or binary accordingly |

## Left out

- Processes, FIFOs and files are abstract. `subprocess.Popen`, `os.killpg`, `mkfifo`, `unlink` and `open` are numbers and paths in sets. A failing unlink or kill is not modelled, because the source logs it and carries on.
- Threads and locks are not modelled: `modification_lock`, the watcher thread, the chopper's scheduler thread and the decoder threads. The watcher is modelled once its process has exited, with the lock state as a parameter. A chopper's decoder dispatch is recorded in `dispatched`, and its exit is a separate method.
- The lock left held by an exception is not modelled. If start_secondary_demodulator raises TypeError, start stops there with the lock held. If a setter finds no writer, it raises AttributeError with the lock held. If fft_fps is 0, fft_block_size divides by zero and start raises ZeroDivisionError with the lock held, after the pipes are created and before any process starts. The model reports the exception as `raised` and leaves the rest of the operation undone.
- The command text is not built. A chain is a sequence of `Stage` values. The `.format` arguments are not substituted, and neither are the numeric parameters they carry: bufsize, transition widths, the smeter interval, the secondary cutoff and samples per bit. `try_create_pipes`'s substring test for `{name}` is modelled by each stage's set of placeholders.
- The `%g` text of pipe writes is not modelled. A write carries the exact real value.
- `csdr_print_bufsizes` and `csdr_dynamic_bufsize` affect the process environment, which is not modelled. The dynamic-bufsize flag does add the setbuf stage to the chain, and that stage is modelled.
- Demodulator and compression names are enumerations. Any demodulator name the controller does not branch on is `Other(name)`. Compression is "none" or "adpcm". For any other compression name, get_fft_bytes_to_read returns None and the int() of it raises. That path is not modelled.
- CsdrDsp.Dsp.SetSampRate: requires a positive rate. A zero rate divides by zero in set_offset_freq and if_samp_rate.
- CsdrDsp.Dsp.SetOutputRate: requires a positive rate, like every setting of the model (the output rate is part of its well-formed settings). The source accepts any rate, and the search loop of get_decimation never ends only when the audio rate it searches toward is not positive; with a digital voice mode (audio rate 48000) or a WSJT secondary mode (12000) the output rate is not that audio rate, so a zero or negative output rate is accepted there and only reaches the arguments of the command. The model does not cover those settings.
- CsdrDsp.Dsp.Start: requires the decimation to have been computed. Before calculate_decimation the source's chain fails on the missing `last_decimation` attribute.
- CsdrDsp.Dsp.Prepare: requires the decimation to have been computed, for the same reason as Start.
- Stale writers stay in the model. Python attributes persist across stop, so `writers` never shrinks. A write through a writer whose FIFO a later start did not recreate is logged as a write.
- The secondary shift pipe guard is simplified. The source reads `self.secondary_shift_pipe` directly. If the attribute had never been set, that read would raise AttributeError. The model treats a missing attribute as None. It cannot be missing here, because the pipe list always includes the pipe.
- The s-meter and meta readers are registered outputs only. Their readline and float() parsing is not modelled.
- The `chopper.start()` thread and the `output.reset` collaborator are not modelled. The output collaborator records registrations in `outputs`.
- The chopper's WAV framing, the `outputWriter` relay of decoder lines, `read()`, and `emptyScheduler` are not modelled. Audio files are byte sequences in a map.
- File names derived from `datetime.utcnow` are parameters. So is the time of the scheduler's `datetime.now()`, as milliseconds since the epoch in a fixed zone; local time and daylight saving are not modelled.
- WsjtParsing.Parse: takes text, not bytes. `data.decode()` and its UnicodeDecodeError are not modelled.
- WsjtParsing.Timestamp: the day comes from a `dayStart` parameter, not from `date.today()`. strptime's acceptance of one-digit fields is not modelled, and the model accepts exactly two digits per field.
- The jt9 and wsprd round trips cover lines written by the decoders' column layout, as the source's sample lines show it: a mode marker from the table, a message without surrounding whitespace of at most 36 characters for jt9, a drift of at most two characters for wsprd, and a nonempty message where parse or wsprd needs one. A dt printed as "-0.0", as in the FT8 sample, is not a layout the round trip writes; the sample itself is read by `WsjtParsingExamples.Ft8Sample`. A jt9 line with an HHMM clock and a marker outside the table is read with an HHMMSS clock, as the source does; no round trip is claimed for it.
- The model's int() and float() accept ASCII decimal digits only. Python's int() and float() also accept Unicode digits and underscores, and float() also accepts exponents, "inf" and "nan". None of those occur in the decoders' numeric columns.
- `setDialFrequency` and the Bandplan lookup are not modelled. The band is a parameter of the parser.
- The WebSocket handshake in `__init__` is not modelled (SHA-1 and base64).
- read_loop does not decode the 127 marker. The source reads the 8-byte length as payload, as `WebSocket.LongFrameMisread` states. This is left as written, because it is the receive side of a size the server never expects from a browser.
- A text frame's `data.decode('utf-8')` is not modelled. Text events carry the payload bytes.
- `json.dumps` of a dict is not modelled; `send` takes str or bytes.
- The close-on-incomplete-write path of `send` is not modelled. The `finish` and `connection.close` calls of `close` are not modelled either.
- Exclusive or of bytes is defined bit by bit, because Dafny has no `^` on integers. `WebSocket.XorSample` checks the definition on one sample.

## Findings

| source | as written | input that shows it | evidently intended | confidence | as-written member | corrected member |
|---|---|---|---|---|---|---|
| owrx/websocket.py:61-62 | the text frame's length is `len(data)`, which counts characters, but the payload written is `data.encode('utf-8')` | the str "é": header [0x81, 0x01], then the two bytes 0xC3 0xA9; the reader takes one byte as the payload and 0xA9 as the next header | the length of the encoded bytes | not executed; it only matters for non-ASCII text, and json.dumps escapes non-ASCII by default | WebSocket.SendFrameAsWritten, WebSocket.SendAsWrittenSplitsCharacter | WebSocket.SendFrame, WebSocket.SendFrameRoundTrip |
