/**
 * The vocabulary of the csdr command chains: one constructor per stage
 * template that dsp.chain and dsp.secondary_chain in csdr.py can emit, and the
 * named control pipes a template refers to through a `{..._pipe}` placeholder.
 */
module Stages {

  /** The control pipes the controller knows by name (dsp.pipe_names and dsp.secondary_pipe_names). */
  datatype PipeName =
    | BpfPipe | ShiftPipe | SquelchPipe | SmeterPipe | MetaPipe
    | IqteePipe | Iqtee2Pipe | DmrControlPipe
    | SecondaryShiftPipe

  /** The attribute name of each pipe, which is also the last part of its FIFO's path. */
  function PipeNameText(n: PipeName): (t: string)
    ensures t != []
  {
    match n
    case BpfPipe => "bpf_pipe"
    case ShiftPipe => "shift_pipe"
    case SquelchPipe => "squelch_pipe"
    case SmeterPipe => "smeter_pipe"
    case MetaPipe => "meta_pipe"
    case IqteePipe => "iqtee_pipe"
    case Iqtee2Pipe => "iqtee2_pipe"
    case DmrControlPipe => "dmr_control_pipe"
    case SecondaryShiftPipe => "secondary_shift_pipe"
  }

  /** The pipes of the primary chain, in the order the controller visits them. */
  const PrimaryPipeNames: seq<PipeName> :=
    [BpfPipe, ShiftPipe, SquelchPipe, SmeterPipe, MetaPipe, IqteePipe, Iqtee2Pipe, DmrControlPipe]

  /** The pipes of the secondary chain. */
  const SecondaryPipeNames: seq<PipeName> := [SecondaryShiftPipe]

  /**
   * One stage template. The comment names the program each stands for and
   * the control-pipe placeholders it holds; the stage's numeric arguments
   * are formatted in at start time and are not part of this model.
   */
  datatype Stage =
    | NcInput                 // nc
    | SetBuf                  // csdr setbuf
    | Through                 // csdr through
    | FftCc                   // csdr fft_cc
    | LogPower                // csdr logpower_cf
    | LogAveragePower         // csdr logaveragepower_cf
    | FftExchangeSides        // csdr fft_exchange_sides_ff
    | CompressFftAdpcm        // csdr compress_fft_adpcm_f_u8
    | ShiftAddition           // csdr shift_addition_cc, {shift_pipe}
    | FirDecimate             // csdr fir_decimate_cc
    | BandpassFir             // csdr bandpass_fir_fft_cc, {bpf_pipe}
    | SquelchAndSmeter        // csdr squelch_and_smeter_cc, {squelch_pipe} and {smeter_pipe}
    | TeeIq                   // csdr tee, {iqtee_pipe}
    | TeeIq2                  // csdr tee, {iqtee2_pipe}
    | FractionalDecimator     // csdr fractional_decimator_ff
    | FmDemod                 // csdr fmdemod_quadri_cf
    | LimitFf                 // csdr limit_ff
    | DeemphasisNfm           // csdr deemphasis_nfm_ff
    | ConvertFToS16           // csdr convert_f_s16
    | DcBlock                 // dc_block
    | DsdDstar                // dsd, D-Star
    | DsdNxdn                 // dsd, NXDN
    | ConvertS16ToF           // csdr convert_s16_f
    | RrcFilter               // rrc_filter
    | GfskDemodulator         // gfsk_demodulator
    | DmrDecoder              // dmr_decoder, {meta_pipe} and {dmr_control_pipe}
    | DmrSynthesizer          // mbe_synthesizer, DMR
    | YsfDecoder              // ysf_decoder, {meta_pipe}
    | YsfSynthesizer          // mbe_synthesizer, YSF
    | DigitalVoiceFilter      // digitalvoice_filter
    | DigitalVoiceAgc(maxGain: real) // csdr agc_ff with this maximum gain
    | SoxVoiceToOutputRate    // sox, 8000 to the output rate
    | AmDemod                 // csdr amdemod_cf
    | FastDcBlock             // csdr fastdcblock_ff
    | AgcFf                   // csdr agc_ff
    | RealPart                // csdr realpart_cf
    | SoxAudioToOutputRate    // sox, the audio rate to the output rate
    | EncodeAdpcm             // csdr encode_ima_adpcm_i16_u8
    | CatInput                // cat of the secondary input pipe
    | FftFc                   // csdr fft_fc
    | SecondaryShiftAddition  // csdr shift_addition_cc, {secondary_shift_pipe}
    | SecondaryBandpass       // csdr bandpass_fir_fft_cc
    | SimpleAgc               // csdr simple_agc_cc
    | TimingRecovery          // csdr timing_recovery_cc
    | DbpskDecoder            // csdr dbpsk_decoder_c_u8
    | Psk31VaricodeDecoder    // csdr psk31_varicode_decoder_u8_u8

  /** The control-pipe placeholders that occur in a stage's template. */
  function StagePipes(s: Stage): set<PipeName> {
    match s
    case ShiftAddition => {ShiftPipe}
    case BandpassFir => {BpfPipe}
    case SquelchAndSmeter => {SquelchPipe, SmeterPipe}
    case TeeIq => {IqteePipe}
    case TeeIq2 => {Iqtee2Pipe}
    case DmrDecoder => {MetaPipe, DmrControlPipe}
    case YsfDecoder => {MetaPipe}
    case SecondaryShiftAddition => {SecondaryShiftPipe}
    case _ => {}
  }

  /**
   * `"{" + name + "}" in command`: the command, its stages joined with " | ",
   * contains the pipe's placeholder, which happens exactly when one of its
   * stages does.
   */
  predicate Mentions(command: seq<Stage>, n: PipeName) {
    command != [] && (n in StagePipes(command[0]) || Mentions(command[1..], n))
  }

  /** No stage of the command refers to a control pipe. */
  predicate NamesNoPipe(command: seq<Stage>) {
    command == [] || (StagePipes(command[0]) == {} && NamesNoPipe(command[1..]))
  }

  /** A placeholder occurs in a joined pair of commands exactly when it occurs in one of them. */
  lemma {:induction false} MentionsConcat(a: seq<Stage>, b: seq<Stage>, n: PipeName)
    ensures Mentions(a + b, n) <==> Mentions(a, n) || Mentions(b, n)
  {
    if a == [] {
      assert a + b == b;
    } else {
      assert (a + b)[0] == a[0];
      assert (a + b)[1..] == a[1..] + b;
      MentionsConcat(a[1..], b, n);
    }
  }

  /** A joined pair of commands names no pipe exactly when neither does. */
  lemma {:induction false} NamesNoPipeConcat(a: seq<Stage>, b: seq<Stage>)
    ensures NamesNoPipe(a + b) <==> NamesNoPipe(a) && NamesNoPipe(b)
  {
    if a == [] {
      assert a + b == b;
    } else {
      assert (a + b)[0] == a[0];
      assert (a + b)[1..] == a[1..] + b;
      NamesNoPipeConcat(a[1..], b);
    }
  }

  /** A command that names no pipe contains no placeholder. */
  lemma {:induction false} NamesNoPipeMentionsNone(command: seq<Stage>, n: PipeName)
    requires NamesNoPipe(command)
    ensures !Mentions(command, n)
  {
    if command != [] {
      NamesNoPipeMentionsNone(command[1..], n);
    }
  }

  /** In a command with a single stage that names pipes, the placeholders are that stage's. */
  lemma MentionsAround(pre: seq<Stage>, s: Stage, post: seq<Stage>, n: PipeName)
    requires NamesNoPipe(pre) && NamesNoPipe(post)
    ensures Mentions(pre + [s] + post, n) <==> n in StagePipes(s)
  {
    MentionsConcat(pre + [s], post, n);
    MentionsConcat(pre, [s], n);
    NamesNoPipeMentionsNone(pre, n);
    NamesNoPipeMentionsNone(post, n);
    assert [s][1..] == [];
  }

  /** A placeholder occurs in the command exactly when some stage of it refers to the pipe. */
  lemma {:induction false} MentionsSomeStage(command: seq<Stage>, n: PipeName)
    ensures Mentions(command, n) <==> exists i :: 0 <= i < |command| && n in StagePipes(command[i])
  {
    if command != [] {
      MentionsSomeStage(command[1..], n);
      if Mentions(command[1..], n) {
        var i :| 0 <= i < |command[1..]| && n in StagePipes(command[1..][i]);
        assert n in StagePipes(command[i + 1]);
      }
      if exists i :: 0 <= i < |command| && n in StagePipes(command[i]) {
        var i :| 0 <= i < |command| && n in StagePipes(command[i]);
        if i > 0 {
          assert command[1..][i - 1] == command[i];
        }
      }
    }
  }
}
