/**
 * Rate arithmetic of the csdr controller: the integer decimation factor, the
 * residual fractional resampling ratio, and the FFT frame sizes.
 * Python's true division is modelled with `real`, which is exact.
 */
module Rates {
  import opened Basics

  /** `input / k >= output` in Python 3 true division, for a positive factor k. */
  predicate Reaches(input: int, output: int, k: int) {
    k > 0 && input as real / k as real >= output as real
  }

  /** The real-valued comparison of the source is the integer comparison input >= output * k. */
  lemma ReachesIff(input: int, output: int, k: int)
    requires k > 0
    ensures Reaches(input, output, k) <==> input >= output * k
  {
    var q := input as real / k as real;
    assert q * k as real == input as real;
    assert (output * k) as real == output as real * k as real;
  }

  /** Once a factor is too large, every larger factor is too. */
  lemma NoneAbove(input: int, output: int, j: int)
    requires output > 0 && j > 0 && !Reaches(input, output, j)
    ensures forall k :: k >= j ==> !Reaches(input, output, k)
  {
    ReachesIff(input, output, j);
    forall k | k >= j
      ensures !Reaches(input, output, k)
    {
      ReachesIff(input, output, k);
      assert output * k == output * j + output * (k - j);
    }
  }

  /**
   * d is the factor get_decimation settles on: at least 1, the decimated rate
   * still reaches the target (unless d is the starting value 1), and no larger
   * factor does.
   */
  ghost predicate IsLargestDecimation(input: int, output: int, d: int) {
    && d >= 1
    && (d == 1 || Reaches(input, output, d))
    && forall k :: k > d ==> !Reaches(input, output, k)
  }

  /** The largest decimation is unique. */
  lemma DecimationUnique(input: int, output: int, d1: int, d2: int)
    requires IsLargestDecimation(input, output, d1) && IsLargestDecimation(input, output, d2)
    ensures d1 == d2
  {
  }

  /**
   * get_decimation: raise the factor while input / (factor + 1) still reaches the
   * output rate, then report the residual fractional ratio and the intermediate
   * rate.
   */
  method GetDecimation(inputRate: int, outputRate: int) returns (decimation: int, fraction: real, intermediateRate: real)
    requires outputRate > 0
    ensures IsLargestDecimation(inputRate, outputRate, decimation)
    ensures inputRate >= outputRate ==> Reaches(inputRate, outputRate, decimation)
    ensures intermediateRate == inputRate as real / decimation as real
    ensures fraction == intermediateRate / outputRate as real
    ensures inputRate >= outputRate ==> 1.0 <= fraction
  {
    decimation := 1;
    while inputRate as real / (decimation + 1) as real >= outputRate as real
      invariant decimation >= 1
      invariant decimation == 1 || Reaches(inputRate, outputRate, decimation)
      decreases inputRate - outputRate * decimation
    {
      ReachesIff(inputRate, outputRate, decimation + 1);
      decimation := decimation + 1;
    }
    NoneAbove(inputRate, outputRate, decimation + 1);
    if inputRate >= outputRate && decimation == 1 {
      ReachesIff(inputRate, outputRate, 1);
    }
    intermediateRate := inputRate as real / decimation as real;
    fraction := intermediateRate / outputRate as real;
    if inputRate >= outputRate {
      QuotientAtLeastOne(intermediateRate, outputRate as real);
    }
  }

  /** A quotient of a number by a smaller positive one is at least one. */
  lemma QuotientAtLeastOne(x: real, y: real)
    requires 0.0 < y <= x
    ensures x / y >= 1.0
  {
    assert x / y * y == x;
  }

  /**
   * The factor in closed form: the integer quotient of the two rates, or 1
   * when the input is slower than the output.
   */
  function DecimationFactor(input: int, output: int): (d: int)
    requires output > 0
    ensures d >= 1
  {
    if input / output >= 1 then input / output else 1
  }

  /** The search of get_decimation settles on the integer quotient of the rates. */
  lemma DecimationFactorIsLargest(input: int, output: int)
    requires output > 0
    ensures IsLargestDecimation(input, output, DecimationFactor(input, output))
  {
    var d := DecimationFactor(input, output);
    var q := input / output;
    assert input == output * q + input % output;
    assert output * (q + 1) > input;
    assert output * (d + 1) >= output * (q + 1);
    if q >= 1 {
      ReachesIff(input, output, q);
    }
    ReachesIff(input, output, d + 1);
    NoneAbove(input, output, d + 1);
  }

  /** The worked example: 250 kHz down to 11025 Hz decimates by 22, leaving a ratio near 1.0307. */
  lemma DecimationExample()
    ensures forall d :: IsLargestDecimation(250000, 11025, d) <==> d == 22
    ensures 1.0307 < (250000.0 / 22.0) / 11025.0 < 1.0308
  {
    assert Reaches(250000, 11025, 22);
    assert !Reaches(250000, 11025, 23);
    NoneAbove(250000, 11025, 23);
    assert IsLargestDecimation(250000, 11025, 22);
    forall d | IsLargestDecimation(250000, 11025, d)
      ensures d == 22
    {
      DecimationUnique(250000, 11025, d, 22);
    }
  }

  /**
   * The fractional resampler is skipped exactly when the integer decimation
   * already lands on the target rate.
   */
  lemma FractionIsOneIffExact(input: int, output: int, d: int)
    requires output > 0 && d >= 1
    ensures (input as real / d as real) / output as real == 1.0 <==> input == output * d
  {
    var i := input as real / d as real;
    assert i * d as real == input as real;
    assert (output * d) as real == output as real * d as real;
    if i / output as real == 1.0 {
      assert i == output as real;
    }
  }

  /** The FFT frame compression modes ("none" and "adpcm"). */
  datatype Compression = NoCompression | Adpcm

  /**
   * get_fft_bytes_to_read: bytes in one FFT frame of fftSize bins, four per
   * float bin uncompressed, or half a byte per bin plus a five-byte codec
   * preamble with ADPCM.
   */
  function FftBytesToRead(compression: Compression, fftSize: int): (bytes: real)
    ensures compression == NoCompression ==> bytes == 4.0 * fftSize as real
    ensures compression == Adpcm ==> 2.0 * bytes == fftSize as real + 10.0
  {
    match compression
    case NoCompression => (fftSize * 4) as real
    case Adpcm => fftSize as real / 2.0 + 10.0 / 2.0
  }

  /** ADPCM frames are smaller than raw ones from two bins on. */
  lemma AdpcmFrameIsSmaller(fftSize: int)
    requires fftSize >= 2
    ensures FftBytesToRead(Adpcm, fftSize) < FftBytesToRead(NoCompression, fftSize)
  {
  }

  /**
   * Python's int(x) of a float: truncation toward zero. It gives the read
   * sizes handed to the output collaborator.
   */
  function Truncate(x: real): (n: int)
    ensures x >= 0.0 ==> n >= 0 && n as real <= x < n as real + 1.0
    ensures x < 0.0 ==> n <= 0 && n as real - 1.0 < x <= n as real
  {
    if x >= 0.0 then x.Floor else -((-x).Floor)
  }

  /**
   * fft_block_size: input samples between two FFT frames so that fftFps frames
   * per second come out, each the average of fftAverages transforms (0 meaning
   * no averaging). A zero frame rate raises ZeroDivisionError.
   */
  function FftBlockSize(sampRate: int, fftFps: int, fftAverages: int): (size: Option<real>)
    ensures size.Some? <==> fftFps != 0
    ensures size.Some? && fftAverages == 0 ==> size.value * fftFps as real == sampRate as real
    ensures size.Some? && fftAverages != 0 ==>
      size.value * fftFps as real * fftAverages as real == sampRate as real
  {
    if fftFps == 0 then None
    else if fftAverages == 0 then Some(sampRate as real / fftFps as real)
    else Some(sampRate as real / fftFps as real / fftAverages as real)
  }

  /**
   * secondary_fft_block_size: the secondary FFT runs on the real part of the
   * intermediate signal, so it takes twice as many frames per second from the
   * decimated rate. A zero frame rate raises ZeroDivisionError.
   */
  function SecondaryFftBlockSize(sampRate: int, decimation: int, fftFps: int): (size: Option<real>)
    requires decimation >= 1
    ensures size.Some? <==> fftFps != 0
    ensures size.Some? ==> size.value * (fftFps * 2) as real * decimation as real == sampRate as real
  {
    if fftFps == 0 then None
    else Some((sampRate as real / decimation as real) / (fftFps * 2) as real)
  }
}
