/**
 * Demodulator kinds of the csdr controller and the audio rate each one fixes
 * (dsp.isDigitalVoice, dsp.isWsjtMode and dsp.get_audio_rate in csdr.py).
 */
module Modes {
  import opened Basics

  /**
   * The demodulator names the controller branches on. `Other` stands for any
   * name the code does not recognise (for example "wfm"). By convention it
   * carries none of the recognised names; no definition or proof here relies
   * on that, since `Other` is never matched by name.
   */
  datatype Demodulator =
    | Nfm | Am | Ssb
    | Dmr | Dstar | Nxdn | Ysf
    | Fft | Bpsk31
    | Ft8 | Wspr | Jt65 | Jt9 | Ft4
    | Other(name: string)

  /** The digital-voice modes: audio comes out of a voice decoder at 8 kHz. */
  predicate IsDigitalVoice(d: Demodulator) {
    d in {Dmr, Dstar, Nxdn, Ysf}
  }

  /** The weak-signal modes decoded in batches by the WSJT-X tools. */
  predicate IsWsjt(d: Demodulator) {
    d in {Ft8, Wspr, Jt65, Jt9, Ft4}
  }

  /** isWsjtMode() without an argument asks about the secondary demodulator, which may be unset. */
  predicate IsWsjtMode(secondary: Option<Demodulator>) {
    secondary.Some? && IsWsjt(secondary.value)
  }

  /** Python truthiness of the secondary demodulator: None and the empty name are false. */
  predicate HasSecondary(secondary: Option<Demodulator>) {
    secondary.Some? && secondary.value != Other("")
  }

  /**
   * The rate the audio stage must produce: the voice decoders need 48 kHz,
   * the WSJT-X tools need 12 kHz, and otherwise the configured output rate is
   * used. Digital voice takes priority over a weak-signal secondary mode.
   */
  function AudioRate(demodulator: Demodulator, secondary: Option<Demodulator>, outputRate: int): (rate: int)
    ensures IsDigitalVoice(demodulator) ==> rate == 48000
    ensures !IsDigitalVoice(demodulator) && IsWsjtMode(secondary) ==> rate == 12000
    ensures !IsDigitalVoice(demodulator) && !IsWsjtMode(secondary) ==> rate == outputRate
    ensures outputRate > 0 ==> rate > 0
  {
    if IsDigitalVoice(demodulator) then 48000
    else if IsWsjtMode(secondary) then 12000
    else outputRate
  }
}
