/**
 * The configuration of the csdr controller (the attributes dsp.__init__ sets
 * in csdr.py and the setters change) and the command chains built from it:
 * dsp.chain for the primary demodulator and dsp.secondary_chain for the
 * digital modes and the secondary FFT, together with the values the
 * controller writes into the control pipes while a chain runs.
 */
module CsdrChain {
  import opened Basics
  import opened Modes
  import opened Rates
  import opened Stages

  /**
   * The settings a chain is built from. `decimation` and `lastDecimation`
   * are set only by calculate_decimation; until then `ratesComputed` is
   * false and the attributes do not exist in the source.
   */
  datatype Config = Config(
    sampRate: int,
    outputRate: int,
    fftSize: int,
    fftFps: int,
    offsetFreq: int,
    lowCut: int,
    highCut: int,
    audioCompression: Compression,
    fftCompression: Compression,
    demodulator: Demodulator,
    csdrDynamicBufsize: bool,
    csdrThrough: bool,
    squelchLevel: real,
    fftAverages: int,
    secondaryDemodulator: Option<Demodulator>,
    secondaryFftSize: int,
    secondaryOffsetFreq: int,
    unvoicedQuality: int,
    temporaryDirectory: string,
    decimation: int,
    lastDecimation: real,
    ratesComputed: bool)

  /** The settings of a freshly constructed controller. */
  const DefaultConfig: Config := Config(
    250000, 11025, 1024, 5, 0, -4000, 4000,
    NoCompression, NoCompression, Nfm,
    false, false, 0.0, 50,
    None, 1024, 1000, 1, "/tmp",
    1, 1.0, false)

  /** The rate the audio stage produces under these settings. */
  function AudioRateOf(c: Config): int {
    AudioRate(c.demodulator, c.secondaryDemodulator, c.outputRate)
  }

  /** if_samp_rate: the rate after the integer decimation. */
  function IfSampRate(c: Config): real
    requires c.decimation >= 1
  {
    c.sampRate as real / c.decimation as real
  }

  /** Decimating by the factor and multiplying back gives the sample rate. */
  lemma IfSampRateUndoesDecimation(c: Config)
    requires c.decimation >= 1
    ensures IfSampRate(c) * c.decimation as real == c.sampRate as real
  {
  }

  /** The input stage, with the optional buffer-size and pass-through stages. */
  function FrontEnd(c: Config): (stages: seq<Stage>)
    ensures |stages| >= 1 && stages[0] == NcInput
    ensures TeeIq !in stages && TeeIq2 !in stages && FractionalDecimator !in stages && EncodeAdpcm !in stages
  {
    [NcInput]
    + (if c.csdrDynamicBufsize then [SetBuf] else [])
    + (if c.csdrThrough then [Through] else [])
  }

  /** The stages of the waterfall chain after the front end. */
  function FftStages(c: Config): (stages: seq<Stage>)
    ensures |stages| >= 1
    ensures TeeIq !in stages && TeeIq2 !in stages && FractionalDecimator !in stages && EncodeAdpcm !in stages
  {
    [FftCc, if c.fftAverages == 0 then LogPower else LogAveragePower, FftExchangeSides]
    + (if c.fftCompression == Adpcm then [CompressFftAdpcm] else [])
  }

  /** Shift, decimate, filter and squelch: the head of every demodulator chain. */
  const IfStages: seq<Stage> := [ShiftAddition, FirDecimate, BandpassFir, SquelchAndSmeter]

  /** The two taps that feed the secondary chains, present when a secondary demodulator is set. */
  function TeeStages(c: Config): (stages: seq<Stage>)
    ensures FractionalDecimator !in stages && EncodeAdpcm !in stages
    ensures TeeIq in stages <==> HasSecondary(c.secondaryDemodulator)
    ensures TeeIq2 in stages <==> HasSecondary(c.secondaryDemodulator)
  {
    if HasSecondary(c.secondaryDemodulator) then [TeeIq, TeeIq2] else []
  }

  /** The fractional resampler, skipped when the integer decimation is exact. */
  function LastDecimationBlock(c: Config): (stages: seq<Stage>)
    ensures Untapped(stages)
    ensures FractionalDecimator in stages <==> c.lastDecimation != 1.0
  {
    if c.lastDecimation != 1.0 then [FractionalDecimator] else []
  }

  /** The gain limit of the voice AGC: the dsd decoders and the digiham decoders differ. */
  function MaxGain(which: Demodulator): real {
    if which == Dstar || which == Nxdn then 5.0 else 0.0005
  }

  /** The taps and the ADPCM encoder are not part of any demodulator. */
  predicate Untapped(stages: seq<Stage>) {
    TeeIq !in stages && TeeIq2 !in stages && EncodeAdpcm !in stages
  }

  /** The decoder stages of a digital-voice mode: dsd for D-STAR and NXDN, digiham for DMR and YSF. */
  function VoiceDecoder(which: Demodulator): (stages: seq<Stage>)
    requires IsDigitalVoice(which)
    ensures Untapped(stages) && FractionalDecimator !in stages
  {
    if which == Dstar || which == Nxdn then
      [LimitFf, ConvertFToS16] + [if which == Dstar then DsdDstar else DsdNxdn] + [ConvertS16ToF]
    else
      [RrcFilter, GfskDemodulator]
      + (if which == Dmr then [DmrDecoder, DmrSynthesizer] else [YsfDecoder, YsfSynthesizer])
  }

  /** The narrow-band FM demodulator with de-emphasis. */
  function NfmStages(c: Config): (stages: seq<Stage>)
    ensures Untapped(stages)
    ensures FractionalDecimator in stages <==> c.lastDecimation != 1.0
  {
    [FmDemod, LimitFf] + LastDecimationBlock(c) + [DeemphasisNfm, ConvertFToS16]
  }

  /** FM discriminator, voice decoder, voice filter and AGC, resampled from 8 kHz. */
  function VoiceStages(c: Config, which: Demodulator): (stages: seq<Stage>)
    requires IsDigitalVoice(which)
    ensures Untapped(stages)
    ensures FractionalDecimator in stages <==> c.lastDecimation != 1.0
  {
    [FmDemod, DcBlock] + LastDecimationBlock(c) + VoiceDecoder(which)
    + [DigitalVoiceFilter, DigitalVoiceAgc(MaxGain(which)), SoxVoiceToOutputRate]
  }

  /** The AM envelope demodulator. */
  function AmStages(c: Config): (stages: seq<Stage>)
    ensures Untapped(stages)
    ensures FractionalDecimator in stages <==> c.lastDecimation != 1.0
  {
    [AmDemod, FastDcBlock] + LastDecimationBlock(c) + [AgcFf, LimitFf, ConvertFToS16]
  }

  /** The SSB demodulator, resampled with sox when a WSJT mode needs a rate other than the output rate. */
  function SsbStages(c: Config): (stages: seq<Stage>)
    ensures Untapped(stages)
    ensures FractionalDecimator in stages <==> c.lastDecimation != 1.0
  {
    [RealPart] + LastDecimationBlock(c) + [AgcFf, LimitFf]
    + [if IsWsjtMode(c.secondaryDemodulator) && AudioRateOf(c) != c.outputRate
       then SoxAudioToOutputRate else ConvertFToS16]
  }

  /** The demodulator stages that follow the taps; an unrecognised name adds none. */
  function DemodStages(c: Config, which: Demodulator): (stages: seq<Stage>)
    ensures Untapped(stages)
    ensures FractionalDecimator in stages <==>
      c.lastDecimation != 1.0 && (which in {Nfm, Am, Ssb} || IsDigitalVoice(which))
  {
    if which == Nfm then NfmStages(c)
    else if IsDigitalVoice(which) then VoiceStages(c, which)
    else if which == Am then AmStages(c)
    else if which == Ssb then SsbStages(c)
    else []
  }

  /** Everything after the taps: the demodulator and, with audio compression, the ADPCM encoder. */
  function AudioStages(c: Config, which: Demodulator): (stages: seq<Stage>)
    ensures TeeIq !in stages && TeeIq2 !in stages
    ensures FractionalDecimator in stages <==>
      c.lastDecimation != 1.0 && (which in {Nfm, Am, Ssb} || IsDigitalVoice(which))
    ensures EncodeAdpcm in stages <==> c.audioCompression == Adpcm
    ensures c.audioCompression == Adpcm ==> stages != [] && stages[|stages| - 1] == EncodeAdpcm
  {
    DemodStages(c, which) + (if c.audioCompression == Adpcm then [EncodeAdpcm] else [])
  }

  /**
   * dsp.chain: the primary command for demodulator `which`. Every chain starts
   * with the network input; the waterfall chain stops after the FFT stages,
   * every other chain runs through shift, decimation, band-pass and squelch.
   */
  function Chain(c: Config, which: Demodulator): (chain: seq<Stage>)
    ensures |chain| >= 1 && chain[0] == NcInput
    ensures which != Fft ==> forall s :: s in IfStages ==> s in chain
  {
    FrontEnd(c) + ChainTail(c, which)
  }

  /** What follows the front end: the FFT stages, or the demodulator chain. */
  function ChainTail(c: Config, which: Demodulator): seq<Stage> {
    if which == Fft then FftStages(c) else IfStages + TeeStages(c) + AudioStages(c, which)
  }

  /** The taps for the secondary chains are there exactly when a demodulator runs beside a secondary one. */
  lemma ChainTaps(c: Config, which: Demodulator)
    ensures TeeIq in Chain(c, which) <==> which != Fft && HasSecondary(c.secondaryDemodulator)
    ensures TeeIq2 in Chain(c, which) <==> which != Fft && HasSecondary(c.secondaryDemodulator)
  {
    var tail := ChainTail(c, which);
    assert Chain(c, which) == FrontEnd(c) + tail;
    assert TeeIq !in FrontEnd(c) && TeeIq2 !in FrontEnd(c);
  }

  /**
   * The fractional resampler runs in the NFM, AM, SSB and digital-voice
   * chains exactly when the integer decimation does not land on the audio
   * rate.
   */
  lemma ChainResampling(c: Config, which: Demodulator)
    ensures FractionalDecimator in Chain(c, which) <==>
      c.lastDecimation != 1.0 && (which in {Nfm, Am, Ssb} || IsDigitalVoice(which))
  {
    var tail := ChainTail(c, which);
    assert Chain(c, which) == FrontEnd(c) + tail;
    assert FractionalDecimator !in FrontEnd(c);
  }

  /** The ADPCM encoder is in a demodulator chain, as its last stage, exactly when audio compression is on. */
  lemma ChainEncoder(c: Config, which: Demodulator)
    ensures EncodeAdpcm in Chain(c, which) <==> which != Fft && c.audioCompression == Adpcm
    ensures which != Fft && c.audioCompression == Adpcm ==>
      var chain := Chain(c, which); chain[|chain| - 1] == EncodeAdpcm
  {
    var tail := ChainTail(c, which);
    var chain := Chain(c, which);
    assert chain == FrontEnd(c) + tail;
    assert EncodeAdpcm !in FrontEnd(c);
    if which != Fft && c.audioCompression == Adpcm {
      var audio := AudioStages(c, which);
      assert tail[|tail| - 1] == audio[|audio| - 1];
      assert chain[|chain| - 1] == tail[|tail| - 1];
    }
  }

  /**
   * The control pipes whose placeholder a primary chain contains, written out
   * mode by mode: none for the waterfall; shift, band-pass, squelch and
   * S-meter for every demodulator; the two taps with a secondary
   * demodulator; the metadata pipe for DMR and YSF and the DMR control pipe
   * for DMR only.
   */
  function ExpectedPipes(c: Config, which: Demodulator): set<PipeName> {
    if which == Fft then {}
    else
      {ShiftPipe, BpfPipe, SquelchPipe, SmeterPipe}
      + (if HasSecondary(c.secondaryDemodulator) then {IqteePipe, Iqtee2Pipe} else {})
      + (if which == Dmr then {MetaPipe, DmrControlPipe} else if which == Ysf then {MetaPipe} else {})
  }

  /** The front end names no pipe. */
  lemma FrontEndNamesNoPipe(c: Config)
    ensures NamesNoPipe(FrontEnd(c))
  {
    FrontEndShape(c);
    FrontEndLiterals();
  }

  /** The front end written out for each setting of the two flags. */
  lemma FrontEndShape(c: Config)
    ensures FrontEnd(c) ==
      if c.csdrDynamicBufsize && c.csdrThrough then [NcInput, SetBuf, Through]
      else if c.csdrDynamicBufsize then [NcInput, SetBuf]
      else if c.csdrThrough then [NcInput, Through]
      else [NcInput]
  {
  }

  /** Each written-out front end names no pipe. */
  lemma FrontEndLiterals()
    ensures NamesNoPipe([NcInput, SetBuf, Through]) && NamesNoPipe([NcInput, SetBuf])
    ensures NamesNoPipe([NcInput, Through]) && NamesNoPipe([NcInput])
  {
  }

  /** The waterfall stages name no pipe. */
  lemma FftNamesNoPipe(c: Config)
    ensures NamesNoPipe(FftStages(c))
  {
    FftShape(c);
    FftLiterals();
  }

  /** The waterfall stages written out for each averaging and compression setting. */
  lemma FftShape(c: Config)
    ensures FftStages(c) ==
      if c.fftAverages == 0 && c.fftCompression == Adpcm then [FftCc, LogPower, FftExchangeSides, CompressFftAdpcm]
      else if c.fftAverages == 0 then [FftCc, LogPower, FftExchangeSides]
      else if c.fftCompression == Adpcm then [FftCc, LogAveragePower, FftExchangeSides, CompressFftAdpcm]
      else [FftCc, LogAveragePower, FftExchangeSides]
  {
  }

  /** Each written-out waterfall tail names no pipe. */
  lemma FftLiterals()
    ensures NamesNoPipe([FftCc, LogPower, FftExchangeSides, CompressFftAdpcm])
    ensures NamesNoPipe([FftCc, LogPower, FftExchangeSides])
    ensures NamesNoPipe([FftCc, LogAveragePower, FftExchangeSides, CompressFftAdpcm])
    ensures NamesNoPipe([FftCc, LogAveragePower, FftExchangeSides])
  {
  }

  /** The narrow-band FM stages name no pipe. */
  lemma NfmNamesNoPipe(c: Config)
    ensures NamesNoPipe(NfmStages(c))
  {
    NfmShape(c);
    NfmLiterals();
  }

  /** The NFM stages written out with and without the fractional resampler. */
  lemma NfmShape(c: Config)
    ensures NfmStages(c) ==
      if c.lastDecimation != 1.0 then [FmDemod, LimitFf, FractionalDecimator, DeemphasisNfm, ConvertFToS16]
      else [FmDemod, LimitFf, DeemphasisNfm, ConvertFToS16]
  {
  }

  /** Both written-out NFM demodulators name no pipe. */
  lemma NfmLiterals()
    ensures NamesNoPipe([FmDemod, LimitFf, FractionalDecimator, DeemphasisNfm, ConvertFToS16])
    ensures NamesNoPipe([FmDemod, LimitFf, DeemphasisNfm, ConvertFToS16])
  {
  }

  /** The AM stages name no pipe. */
  lemma AmNamesNoPipe(c: Config)
    ensures NamesNoPipe(AmStages(c))
  {
    AmShape(c);
    AmLiterals();
  }

  /** The AM stages written out with and without the fractional resampler. */
  lemma AmShape(c: Config)
    ensures AmStages(c) ==
      if c.lastDecimation != 1.0 then [AmDemod, FastDcBlock, FractionalDecimator, AgcFf, LimitFf, ConvertFToS16]
      else [AmDemod, FastDcBlock, AgcFf, LimitFf, ConvertFToS16]
  {
  }

  /** Both written-out AM demodulators name no pipe. */
  lemma AmLiterals()
    ensures NamesNoPipe([AmDemod, FastDcBlock, FractionalDecimator, AgcFf, LimitFf, ConvertFToS16])
    ensures NamesNoPipe([AmDemod, FastDcBlock, AgcFf, LimitFf, ConvertFToS16])
  {
  }

  /** The SSB stages name no pipe. */
  lemma SsbNamesNoPipe(c: Config)
    ensures NamesNoPipe(SsbStages(c))
  {
    SsbShape(c);
    SsbLiterals();
  }

  /** The SSB stages written out with and without the fractional resampler. */
  lemma SsbShape(c: Config)
    ensures var last := if IsWsjtMode(c.secondaryDemodulator) && AudioRateOf(c) != c.outputRate
                        then SoxAudioToOutputRate else ConvertFToS16;
      SsbStages(c) ==
      if c.lastDecimation != 1.0 then [RealPart, FractionalDecimator, AgcFf, LimitFf, last]
      else [RealPart, AgcFf, LimitFf, last]
  {
  }

  /** Each written-out SSB demodulator names no pipe, whichever its last stage. */
  lemma SsbLiterals()
    ensures NamesNoPipe([RealPart, FractionalDecimator, AgcFf, LimitFf, SoxAudioToOutputRate])
    ensures NamesNoPipe([RealPart, AgcFf, LimitFf, SoxAudioToOutputRate])
    ensures NamesNoPipe([RealPart, FractionalDecimator, AgcFf, LimitFf, ConvertFToS16])
    ensures NamesNoPipe([RealPart, AgcFf, LimitFf, ConvertFToS16])
  {
  }

  /** The pipes of the voice decoders: metadata for DMR and YSF, control for DMR. */
  function VoicePipeSet(which: Demodulator): set<PipeName> {
    if which == Dmr then {MetaPipe, DmrControlPipe} else if which == Ysf then {MetaPipe} else {}
  }

  /** The dsd decoders name no pipe; the DMR decoder names the metadata and control pipes, the YSF decoder the metadata pipe. */
  lemma VoiceDecoderPipes(which: Demodulator, n: PipeName)
    requires IsDigitalVoice(which)
    ensures Mentions(VoiceDecoder(which), n) <==> n in VoicePipeSet(which)
  {
    if which == Dstar || which == Nxdn {
      DsdPipes(which, n);
    } else {
      DigihamPipes(which, n);
    }
  }

  /** The dsd decoders name no pipe. */
  lemma DsdPipes(which: Demodulator, n: PipeName)
    requires which == Dstar || which == Nxdn
    ensures !Mentions(VoiceDecoder(which), n)
  {
    var dsd := if which == Dstar then DsdDstar else DsdNxdn;
    assert NamesNoPipe([LimitFf, ConvertFToS16]) && NamesNoPipe([ConvertS16ToF]);
    MentionsAround([LimitFf, ConvertFToS16], dsd, [ConvertS16ToF], n);
  }

  /** A digiham decoder names the pipes of its decoder stage. */
  lemma DigihamPipes(which: Demodulator, n: PipeName)
    requires which == Dmr || which == Ysf
    ensures Mentions(VoiceDecoder(which), n) <==> n in VoicePipeSet(which)
  {
    var decoder := if which == Dmr then DmrDecoder else YsfDecoder;
    var synthesizer := if which == Dmr then DmrSynthesizer else YsfSynthesizer;
    assert NamesNoPipe([RrcFilter, GfskDemodulator]) && NamesNoPipe([synthesizer]);
    assert VoiceDecoder(which) == [RrcFilter, GfskDemodulator] + [decoder] + [synthesizer];
    MentionsAround([RrcFilter, GfskDemodulator], decoder, [synthesizer], n);
  }

  /** A digital-voice chain names the pipes of its decoder and no others. */
  lemma VoicePipes(c: Config, which: Demodulator, n: PipeName)
    requires IsDigitalVoice(which)
    ensures Mentions(VoiceStages(c, which), n) <==> n in VoicePipeSet(which)
  {
    var head := [FmDemod, DcBlock] + LastDecimationBlock(c);
    var decoder := VoiceDecoder(which);
    var tail := [DigitalVoiceFilter, DigitalVoiceAgc(MaxGain(which)), SoxVoiceToOutputRate];
    VoiceShape(c, which);
    VoiceLiterals();
    NamesNoPipeMentionsNone(head, n);
    NamesNoPipeMentionsNone(tail, n);
    VoiceDecoderPipes(which, n);
    MentionsConcat(head + decoder, tail, n);
    MentionsConcat(head, decoder, n);
  }

  /** The parts of a digital-voice chain around its decoder, written out. */
  lemma VoiceShape(c: Config, which: Demodulator)
    requires IsDigitalVoice(which)
    ensures [FmDemod, DcBlock] + LastDecimationBlock(c) ==
      if c.lastDecimation != 1.0 then [FmDemod, DcBlock, FractionalDecimator] else [FmDemod, DcBlock]
    ensures [DigitalVoiceFilter, DigitalVoiceAgc(MaxGain(which)), SoxVoiceToOutputRate] ==
      if which == Dstar || which == Nxdn then [DigitalVoiceFilter, DigitalVoiceAgc(5.0), SoxVoiceToOutputRate]
      else [DigitalVoiceFilter, DigitalVoiceAgc(0.0005), SoxVoiceToOutputRate]
  {
  }

  /** The written-out parts around a voice decoder name no pipe. */
  lemma VoiceLiterals()
    ensures NamesNoPipe([FmDemod, DcBlock, FractionalDecimator]) && NamesNoPipe([FmDemod, DcBlock])
    ensures NamesNoPipe([DigitalVoiceFilter, DigitalVoiceAgc(5.0), SoxVoiceToOutputRate])
    ensures NamesNoPipe([DigitalVoiceFilter, DigitalVoiceAgc(0.0005), SoxVoiceToOutputRate])
  {
  }

  /** After the taps, only the DMR and YSF decoders name pipes. */
  lemma AudioPipes(c: Config, which: Demodulator, n: PipeName)
    ensures Mentions(AudioStages(c, which), n) <==> n in VoicePipeSet(which)
  {
    var demod := DemodStages(c, which);
    var encoder: seq<Stage> := if c.audioCompression == Adpcm then [EncodeAdpcm] else [];
    assert !Mentions(encoder, n);
    MentionsConcat(demod, encoder, n);
    if IsDigitalVoice(which) {
      VoicePipes(c, which, n);
    } else {
      if which == Nfm { NfmNamesNoPipe(c); }
      else if which == Am { AmNamesNoPipe(c); }
      else if which == Ssb { SsbNamesNoPipe(c); }
      NamesNoPipeMentionsNone(demod, n);
    }
  }

  /** The head of the demodulator chain names the shift, band-pass, squelch and S-meter pipes. */
  lemma IfPipes(n: PipeName)
    ensures Mentions(IfStages, n) <==> n in {ShiftPipe, BpfPipe, SquelchPipe, SmeterPipe}
  {
    assert Mentions([ShiftAddition, FirDecimate, BandpassFir, SquelchAndSmeter], n)
      <==> n in {ShiftPipe, BpfPipe, SquelchPipe, SmeterPipe};
  }

  /** The taps name their two pipes when a secondary demodulator is set, and nothing otherwise. */
  lemma TeePipes(c: Config, n: PipeName)
    ensures Mentions(TeeStages(c), n) <==> HasSecondary(c.secondaryDemodulator) && n in {IqteePipe, Iqtee2Pipe}
  {
    TeeLiterals(n);
  }

  /** The two taps name their two pipes. */
  lemma TeeLiterals(n: PipeName)
    ensures Mentions([TeeIq, TeeIq2], n) <==> n in {IqteePipe, Iqtee2Pipe}
    ensures !Mentions([], n)
  {
  }

  /** Shift, band-pass and squelch, followed by the taps when a secondary demodulator is set. */
  lemma IfAndTeePipes(c: Config, n: PipeName)
    ensures Mentions(IfStages + TeeStages(c), n) <==>
      n in {ShiftPipe, BpfPipe, SquelchPipe, SmeterPipe}
      || (HasSecondary(c.secondaryDemodulator) && n in {IqteePipe, Iqtee2Pipe})
  {
    TeePipes(c, n);
    IfPipes(n);
    MentionsConcat(IfStages, TeeStages(c), n);
  }

  /** Everything after the front end of a demodulator chain. */
  lemma DemodulatorTailPipes(c: Config, which: Demodulator, n: PipeName)
    requires which != Fft
    ensures Mentions(ChainTail(c, which), n) <==> n in ExpectedPipes(c, which)
  {
    IfAndTeePipes(c, n);
    AudioPipes(c, which, n);
    MentionsConcat(IfStages + TeeStages(c), AudioStages(c, which), n);
  }

  /** The pipes try_create_pipes creates for a primary chain are exactly the expected ones. */
  lemma ChainPipes(c: Config, which: Demodulator, n: PipeName)
    ensures Mentions(Chain(c, which), n) <==> n in ExpectedPipes(c, which)
  {
    MentionsConcat(FrontEnd(c), ChainTail(c, which), n);
    FrontEndNamesNoPipe(c);
    NamesNoPipeMentionsNone(FrontEnd(c), n);
    if which == Fft {
      FftNamesNoPipe(c);
      NamesNoPipeMentionsNone(FftStages(c), n);
    } else {
      DemodulatorTailPipes(c, which, n);
    }
  }

  /**
   * dsp.secondary_chain: the command of a secondary chain, None for a name
   * it has no chain for. All of them read one of the primary chain's taps;
   * the WSJT chain resamples fractionally only when needed.
   */
  function SecondaryChain(c: Config, which: Demodulator): (chain: Option<seq<Stage>>)
    ensures chain.Some? <==> which == Fft || which == Bpsk31 || IsWsjt(which)
    ensures chain.Some? ==> |chain.value| >= 1 && chain.value[0] == CatInput
    ensures IsWsjt(which) ==> (FractionalDecimator in chain.value <==> c.lastDecimation != 1.0)
  {
    if which == Fft then
      Some([CatInput, RealPart, FftFc, LogPower]
           + (if c.fftCompression == Adpcm then [CompressFftAdpcm] else []))
    else if which == Bpsk31 then
      Some([CatInput, SecondaryShiftAddition, SecondaryBandpass, SimpleAgc,
            TimingRecovery, DbpskDecoder, Psk31VaricodeDecoder])
    else if IsWsjt(which) then
      Some([CatInput, RealPart] + LastDecimationBlock(c) + [AgcFf, LimitFf, ConvertFToS16])
    else
      None
  }

  /**
   * The command start_secondary_demodulator hands to try_create_pipes: the
   * demodulator chain followed by the FFT chain, when the former exists.
   */
  function SecondaryCommand(c: Config, which: Demodulator): seq<Stage>
    requires SecondaryChain(c, which).Some?
  {
    SecondaryChain(c, which).value + SecondaryChain(c, Fft).value
  }

  /** Only the BPSK31 decoder needs the secondary shift pipe, and no secondary chain names another. */
  lemma SecondaryPipes(c: Config, which: Demodulator, n: PipeName)
    requires SecondaryChain(c, which).Some?
    ensures Mentions(SecondaryCommand(c, which), n) <==> which == Bpsk31 && n == SecondaryShiftPipe
  {
    var chain := SecondaryChain(c, which).value;
    var fft := SecondaryChain(c, Fft).value;
    MentionsConcat(chain, fft, n);
    SecondaryFftNamesNoPipe(c);
    NamesNoPipeMentionsNone(fft, n);
    if which == Bpsk31 {
      Psk31Pipes(c, n);
    } else if which != Fft {
      WsjtNamesNoPipe(c, which);
      NamesNoPipeMentionsNone(chain, n);
    }
  }

  /** The BPSK31 chain names the secondary shift pipe and no other. */
  lemma Psk31Pipes(c: Config, n: PipeName)
    ensures Mentions(SecondaryChain(c, Bpsk31).value, n) <==> n == SecondaryShiftPipe
  {
    Psk31Split();
    MentionsAround([CatInput], SecondaryShiftAddition, Psk31Tail, n);
  }

  /** The BPSK31 stages after the secondary shift. */
  const Psk31Tail: seq<Stage> := [SecondaryBandpass, SimpleAgc, TimingRecovery, DbpskDecoder, Psk31VaricodeDecoder]

  /** The BPSK31 chain split around its only stage that names a pipe. */
  lemma Psk31Split()
    ensures NamesNoPipe([CatInput]) && NamesNoPipe(Psk31Tail)
    ensures [CatInput, SecondaryShiftAddition, SecondaryBandpass, SimpleAgc,
             TimingRecovery, DbpskDecoder, Psk31VaricodeDecoder]
            == [CatInput] + [SecondaryShiftAddition] + Psk31Tail
  {
  }

  /** The secondary FFT chain names no pipe. */
  lemma SecondaryFftNamesNoPipe(c: Config)
    ensures NamesNoPipe(SecondaryChain(c, Fft).value)
  {
    SecondaryFftShape(c);
    SecondaryLiterals();
  }

  /** The secondary waterfall chain written out with and without compression. */
  lemma SecondaryFftShape(c: Config)
    ensures SecondaryChain(c, Fft).value ==
      if c.fftCompression == Adpcm then [CatInput, RealPart, FftFc, LogPower, CompressFftAdpcm]
      else [CatInput, RealPart, FftFc, LogPower]
  {
  }

  /** The WSJT secondary chains name no pipe. */
  lemma WsjtNamesNoPipe(c: Config, which: Demodulator)
    requires IsWsjt(which)
    ensures NamesNoPipe(SecondaryChain(c, which).value)
  {
    WsjtShape(c, which);
    WsjtLiterals();
  }

  /** A WSJT chain written out with and without the fractional resampler. */
  lemma WsjtShape(c: Config, which: Demodulator)
    requires IsWsjt(which)
    ensures SecondaryChain(c, which).value ==
      if c.lastDecimation != 1.0 then [CatInput, RealPart, FractionalDecimator, AgcFf, LimitFf, ConvertFToS16]
      else [CatInput, RealPart, AgcFf, LimitFf, ConvertFToS16]
  {
  }

  /** Both written-out secondary waterfall chains name no pipe. */
  lemma SecondaryLiterals()
    ensures NamesNoPipe([CatInput, RealPart, FftFc, LogPower, CompressFftAdpcm])
    ensures NamesNoPipe([CatInput, RealPart, FftFc, LogPower])
  {
  }

  /** Both written-out WSJT chains name no pipe. */
  lemma WsjtLiterals()
    ensures NamesNoPipe([CatInput, RealPart, FractionalDecimator, AgcFf, LimitFf, ConvertFToS16])
    ensures NamesNoPipe([CatInput, RealPart, AgcFf, LimitFf, ConvertFToS16])
  {
  }

  /**
   * With a WSJT secondary mode the SSB chain resamples with sox exactly when
   * the output rate is not the 12 kHz the WSJT-X tools need.
   */
  lemma SsbResamplesForWsjt(c: Config)
    requires c.demodulator == Ssb
    ensures SoxAudioToOutputRate in Chain(c, Ssb) <==>
      IsWsjtMode(c.secondaryDemodulator) && c.outputRate != 12000
  {
    var chain := Chain(c, Ssb);
    if SoxAudioToOutputRate in chain {
      assert SoxAudioToOutputRate in DemodStages(c, Ssb);
    }
  }

  /** The default controller, once its rates are computed, runs this narrow-band FM chain. */
  lemma DefaultNfmChain()
    ensures
      var c := DefaultConfig.(decimation := 22, lastDecimation := (250000.0 / 22.0) / 11025.0, ratesComputed := true);
      Chain(c, Nfm) == [NcInput, ShiftAddition, FirDecimate, BandpassFir, SquelchAndSmeter,
                        FmDemod, LimitFf, FractionalDecimator, DeemphasisNfm, ConvertFToS16]
  {
  }

  /** A value written into a control pipe, before %g formatting. */
  datatype ControlValue =
    | Ratio(ratio: real)                 // a shift, in cycles per sample
    | Bounds(low: real, high: real)      // band-pass edges, relative to the IF rate
    | Level(level: real)                 // a squelch level
    | Filter(filter: int)                // a DMR timeslot filter

  /** One write into a named control pipe. */
  datatype ControlWrite = ControlWrite(pipe: PipeName, value: ControlValue)

  /** The shift a tuning offset asks for: the offset moved to zero, relative to the rate. */
  function ShiftRatio(offset: int, rate: real): real
    requires rate != 0.0
  {
    -(offset as real) / rate
  }

  /** Shifting by the ratio times the rate cancels the offset. */
  lemma ShiftRatioCancelsOffset(offset: int, rate: real)
    requires rate != 0.0
    ensures ShiftRatio(offset, rate) * rate == -(offset as real)
  {
  }

  /** The band-pass edges relative to the IF rate; with a positive rate their order is kept. */
  function BandpassBounds(low: int, high: int, ifRate: real): ControlValue
    requires ifRate != 0.0
  {
    Bounds(low as real / ifRate, high as real / ifRate)
  }

  /** Both edges scale back to the stored ones, and a positive rate keeps their order. */
  lemma BandpassBoundsScale(low: int, high: int, ifRate: real)
    requires ifRate != 0.0
    ensures var b := BandpassBounds(low, high, ifRate);
      && b.Bounds?
      && b.low * ifRate == low as real && b.high * ifRate == high as real
      && (ifRate > 0.0 ==> (b.low <= b.high <==> low <= high))
  {
  }

  /** The squelch actually applied: none on the digital-voice modes, whatever the stored level. */
  function SquelchValue(demodulator: Demodulator, level: real): (v: real)
    ensures IsDigitalVoice(demodulator) ==> v == 0.0
    ensures !IsDigitalVoice(demodulator) ==> v == level
  {
    if IsDigitalVoice(demodulator) then 0.0 else level
  }

  /**
   * The writes start sends once the primary chain runs: the squelch level,
   * the tuning offset and the band-pass, each only when the chain has that
   * pipe.
   */
  function InitialWrites(c: Config, command: seq<Stage>): seq<ControlWrite>
    requires c.sampRate > 0 && c.decimation >= 1
  {
    (if Mentions(command, SquelchPipe)
     then [ControlWrite(SquelchPipe, Level(SquelchValue(c.demodulator, c.squelchLevel)))] else [])
    + (if Mentions(command, ShiftPipe)
       then [ControlWrite(ShiftPipe, Ratio(ShiftRatio(c.offsetFreq, c.sampRate as real)))] else [])
    + (if Mentions(command, BpfPipe)
       then [ControlWrite(BpfPipe, BandpassBounds(c.lowCut, c.highCut, IfSampRate(c)))] else [])
  }

  /**
   * Every demodulator chain receives the squelch, the offset and the
   * band-pass, in that order, and the waterfall chain receives nothing.
   */
  lemma InitialWritesByMode(c: Config)
    requires c.sampRate > 0 && c.decimation >= 1
    ensures var w := InitialWrites(c, Chain(c, c.demodulator));
      && (c.demodulator == Fft ==> w == [])
      && (c.demodulator != Fft ==>
            |w| == 3 && w[0].pipe == SquelchPipe && w[1].pipe == ShiftPipe && w[2].pipe == BpfPipe
            && w[0].value == Level(SquelchValue(c.demodulator, c.squelchLevel)))
  {
    ChainPipes(c, c.demodulator, SquelchPipe);
    ChainPipes(c, c.demodulator, ShiftPipe);
    ChainPipes(c, c.demodulator, BpfPipe);
  }

  /** The read size of the "audio" output: one FFT frame for the waterfall, 256 bytes otherwise. */
  function AudioReadSize(c: Config): (size: int)
    ensures c.demodulator != Fft ==> size == 256
    ensures c.demodulator == Fft && c.fftSize >= 0 ==> size >= 0 && size as real <= FftBytesToRead(c.fftCompression, c.fftSize)
  {
    if c.demodulator == Fft then Truncate(FftBytesToRead(c.fftCompression, c.fftSize)) else 256
  }

  /** The restart condition of watch_thread: a clean exit while running and not being reconfigured. */
  predicate WatcherRestarts(rc: int, running: bool, locked: bool) {
    rc == 0 && running && !locked
  }
}
