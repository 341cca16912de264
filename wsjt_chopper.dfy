/**
 * The WSJT stream chopper of owrx/wsjt.py: wall-clock aligned rotation of the
 * audio buffer file, the queue of sealed files, decode dispatch and the
 * reader loop. Times are integer milliseconds, so FT4's 7.5 s is exact.
 */
module WsjtChopping {
  import opened Basics
  import opened Arith

  /** The five chopper subclasses, one per weak-signal mode. */
  datatype ChopperKind = Ft8Chopper | WsprChopper | Jt65Chopper | Jt9Chopper | Ft4Chopper

  const HourMillis: int := 3600000

  /** The rotation interval of each subclass: 15 s, 120 s, 60 s, 60 s and 7.5 s. */
  function IntervalMillis(k: ChopperKind): (ms: int)
    ensures ms > 0 && HourMillis % ms == 0
  {
    match k
    case Ft8Chopper => 15000
    case WsprChopper => 120000
    case Jt65Chopper => 60000
    case Jt9Chopper => 60000
    case Ft4Chopper => 7500
  }

  /** The strftime pattern used in each subclass's buffer file names. */
  function FileTimestampFormat(k: ChopperKind): string {
    if k == Ft8Chopper || k == Ft4Chopper then "%y%m%d_%H%M%S" else "%y%m%d_%H%M"
  }

  /** File names carry seconds exactly for the modes whose interval is not a whole number of minutes. */
  lemma SecondsInFileNameIffSubMinute(k: ChopperKind)
    ensures FileTimestampFormat(k) == "%y%m%d_%H%M%S" <==> IntervalMillis(k) % 60000 != 0
  {
    assert "%y%m%d_%H%M" != "%y%m%d_%H%M%S" by {
      assert |"%y%m%d_%H%M"| != |"%y%m%d_%H%M%S"|;
    }
  }

  /** The batch decoder invocation of each subclass; the sealed file is the last argument. */
  function DecoderCommandLine(k: ChopperKind, file: string): (argv: seq<string>)
    ensures |argv| >= 3 && argv[|argv| - 1] == file
    ensures argv[0] == (if k == WsprChopper then "wsprd" else "jt9")
  {
    match k
    case Ft8Chopper => ["jt9", "--ft8", "-d", "3", file]
    case WsprChopper => ["wsprd", "-d", file]
    case Jt65Chopper => ["jt9", "--jt65", "-d", "3", file]
    case Jt9Chopper => ["jt9", "--jt9", "-d", "3", file]
    case Ft4Chopper => ["jt9", "--ft4", "-d", "3", file]
  }

  /** The top of the hour that contains the instant. */
  function HourStart(nowMs: int): (h: int)
    ensures h <= nowMs < h + HourMillis && h % HourMillis == 0
  {
    var h := nowMs - nowMs % HourMillis;
    assert h == HourMillis * (nowMs / HourMillis);
    MultipleMod(HourMillis, nowMs / HourMillis);
    h
  }

  /**
   * getNextDecodingTime: the first instant after now that lies a whole number
   * of intervals past the top of the hour.
   */
  function NextDecodingTime(nowMs: int, intervalMs: int): (t: int)
    requires intervalMs > 0
    ensures nowMs < t <= nowMs + intervalMs
    ensures (t - HourStart(nowMs)) % intervalMs == 0
  {
    var zeroed := HourStart(nowMs);
    var k := (nowMs - zeroed) / intervalMs + 1;
    var t := zeroed + k * intervalMs;
    assert k * intervalMs == (nowMs - zeroed) - (nowMs - zeroed) % intervalMs + intervalMs by {
      assert nowMs - zeroed == intervalMs * ((nowMs - zeroed) / intervalMs) + (nowMs - zeroed) % intervalMs;
      assert k * intervalMs == intervalMs * ((nowMs - zeroed) / intervalMs) + intervalMs;
    }
    assert t - zeroed == intervalMs * k;
    MultipleMod(intervalMs, k);
    t
  }

  /** The two properties above single out the rotation time: it is the NEXT aligned instant. */
  lemma NextDecodingTimeUnique(nowMs: int, intervalMs: int, t: int)
    requires intervalMs > 0 && nowMs < t <= nowMs + intervalMs
    requires (t - HourStart(nowMs)) % intervalMs == 0
    ensures t == NextDecodingTime(nowMs, intervalMs)
  {
    var h := HourStart(nowMs);
    var u := NextDecodingTime(nowMs, intervalMs);
    var a := (t - h) / intervalMs;
    var b := (u - h) / intervalMs;
    assert t - h == intervalMs * a;
    assert u - h == intervalMs * b;
    assert t - u == intervalMs * (a - b);
    SmallMultipleIsZero(intervalMs, a - b);
  }

  /**
   * Every subclass interval divides an hour, so the rotation instants are
   * multiples of the interval on the clock itself: independently started
   * choppers of one mode cut the same windows.
   */
  lemma AlignedAcrossChoppers(nowMs: int, k: ChopperKind)
    ensures NextDecodingTime(nowMs, IntervalMillis(k)) % IntervalMillis(k) == 0
  {
    var i := IntervalMillis(k);
    var h := HourStart(nowMs);
    var t := NextDecodingTime(nowMs, i);
    MultipleOfDivisor(h, i, HourMillis);
    SumOfMultiples(h, t - h, i);
  }

  /** An FT8 chopper started at 12:34:07 first rotates at 12:34:15, not 15 s after start. */
  lemma Ft8StartedAtSevenSeconds()
    ensures NextDecodingTime(12 * HourMillis + 34 * 60000 + 7000, IntervalMillis(Ft8Chopper))
         == 12 * HourMillis + 34 * 60000 + 15000
  {
    var now := 12 * HourMillis + 34 * 60000 + 7000;
    var t := 12 * HourMillis + 34 * 60000 + 15000;
    DivModUnique(now, HourMillis, 12, 34 * 60000 + 7000);
    assert HourStart(now) == 12 * HourMillis;
    DivModUnique(t - HourStart(now), 15000, 137, 0);
    NextDecodingTimeUnique(now, 15000, t);
  }

  /** A read that ends the chopper loop: None or zero bytes. */
  predicate IsEndOfStream(data: Option<seq<Byte>>) {
    data.None? || |data.value| == 0
  }

  /** The index of the first read that ends the stream; reads past the end of `source` return nothing. */
  function FirstEnd(source: seq<Option<seq<Byte>>>): (i: nat)
    ensures i <= |source|
    ensures i < |source| ==> IsEndOfStream(source[i])
    ensures forall j :: 0 <= j < i ==> !IsEndOfStream(source[j])
  {
    if source == [] then 0
    else if IsEndOfStream(source[0]) then 0
    else 1 + FirstEnd(source[1..])
  }

  /** Before the end, the i-th read ends the stream exactly at the first end. */
  lemma ReadEndsAtFirstEnd(source: seq<Option<seq<Byte>>>, i: nat)
    requires i <= FirstEnd(source)
    ensures IsEndOfStream(if i < |source| then source[i] else None) <==> i == FirstEnd(source)
  {
  }

  /** The sequence read back to front. */
  function Reversed(s: seq<string>): (r: seq<string>)
    ensures |r| == |s|
    ensures forall i :: 0 <= i < |s| ==> r[i] == s[|s| - 1 - i]
  {
    if s == [] then [] else Reversed(s[1..]) + [s[0]]
  }

  /** Rewriting an entry and then removing it is removing it. */
  lemma UpdateThenRemove(m: map<string, seq<Byte>>, k: string, v: seq<Byte>)
    ensures m[k := v] - {k} == m - {k}
  {
  }

  /** Taking the last of the first |q| - k files moves it to the end of the reversed suffix. */
  lemma PopLast(q: seq<string>, k: nat)
    requires k < |q|
    ensures q[..|q| - k][..|q| - k - 1] == q[..|q| - (k + 1)]
    ensures q[..|q| - k][|q| - k - 1] == q[|q| - k - 1]
    ensures Reversed(q[|q| - (k + 1)..]) == Reversed(q[|q| - k..]) + [q[|q| - k - 1]]
  {
    var s := q[|q| - (k + 1)..];
    assert s[1..] == q[|q| - k..];
  }

  function Min(a: int, b: int): int {
    if a <= b then a else b
  }

  /**
   * One chopper thread. The file system is abstracted to the chopper's own
   * wave files and the sample bytes written to each; spawning a decoder is
   * recorded in `dispatched`.
   */
  class WsjtChopper {
    const kind: ChopperKind
    /** The file currently being written. */
    var wavefilename: string
    /** Sealed files waiting for a decoder. */
    var fileQueue: seq<string>
    var doRun: bool
    /** The chopper's wave files that exist, with the audio bytes written to each. */
    var files: map<string, seq<Byte>>
    /** Files handed to a decoder process, in dispatch order. */
    var dispatched: seq<string>

    /** __init__: open the first buffer file (its time-derived name is a parameter). */
    constructor (kind: ChopperKind, firstFile: string)
      ensures this.kind == kind && wavefilename == firstFile && fileQueue == [] && doRun
      ensures files == map[firstFile := []] && dispatched == []
    {
      this.kind := kind;
      wavefilename := firstFile;
      fileQueue := [];
      doRun := true;
      files := map[firstFile := []];
      dispatched := [];
    }

    /**
     * switchFiles: seal the active file, enqueue it, and make a freshly
     * created file active. Opening an existing name truncates it.
     */
    method SwitchFiles(newFile: string)
      modifies this`wavefilename, this`fileQueue, this`files
      ensures fileQueue == old(fileQueue) + [old(wavefilename)]
      ensures wavefilename == newFile
      ensures files == old(files)[newFile := []]
    {
      var filename := wavefilename;
      wavefilename := newFile;
      files := files[newFile := []];
      fileQueue := fileQueue + [filename];
    }

    /** decode: hand the most recently sealed file to a decoder, if there is one. */
    method Decode()
      modifies this`fileQueue, this`dispatched
      ensures old(fileQueue) == [] ==> fileQueue == [] && dispatched == old(dispatched)
      ensures old(fileQueue) != [] ==>
        && fileQueue == old(fileQueue)[..|old(fileQueue)| - 1]
        && dispatched == old(dispatched) + [old(fileQueue)[|old(fileQueue)| - 1]]
    {
      if fileQueue != [] {
        var file := fileQueue[|fileQueue| - 1];
        fileQueue := fileQueue[..|fileQueue| - 1];
        dispatched := dispatched + [file];
      }
    }

    /** decode_and_unlink after its decoder exits: the file is removed whatever the return code. */
    method DecoderExited(file: string, returnCode: int)
      requires file in dispatched
      modifies this`files
      ensures files == old(files) - {file}
      ensures file !in files
    {
      files := files - {file};
    }

    /** One pass of the run loop: write the read bytes or stop on an empty read, then decode. */
    method Step(data: Option<seq<Byte>>)
      modifies this`doRun, this`files, this`fileQueue, this`dispatched
      ensures doRun == (old(doRun) && !IsEndOfStream(data))
      ensures IsEndOfStream(data) || wavefilename !in old(files) ==> files == old(files)
      ensures !IsEndOfStream(data) && wavefilename in old(files) ==>
        files == old(files)[wavefilename := old(files)[wavefilename] + data.value]
      ensures old(fileQueue) == [] ==> fileQueue == [] && dispatched == old(dispatched)
      ensures old(fileQueue) != [] ==>
        && fileQueue == old(fileQueue)[..|old(fileQueue)| - 1]
        && dispatched == old(dispatched) + [old(fileQueue)[|old(fileQueue)| - 1]]
    {
      if IsEndOfStream(data) {
        doRun := false;
      } else if wavefilename in files {
        files := files[wavefilename := files[wavefilename] + data.value];
      }
      Decode();
    }

    /**
     * run: read until the source returns nothing, decoding one queued file
     * per pass, then delete the file still being written.
     */
    method Run(source: seq<Option<seq<Byte>>>)
      modifies this`doRun, this`files, this`fileQueue, this`dispatched
      ensures !doRun
      ensures files == old(files) - {wavefilename}
      ensures var q := old(fileQueue);
              var popped := Min(|q|, if old(doRun) then FirstEnd(source) + 1 else 0);
              && fileQueue == q[..|q| - popped]
              && dispatched == old(dispatched) + Reversed(q[|q| - popped..])
    {
      ghost var q := fileQueue;
      ghost var passes := if doRun then FirstEnd(source) + 1 else 0;
      ghost var popped := 0;
      var i := 0;
      while doRun
        invariant 0 <= i <= passes
        invariant doRun ==> i < passes
        invariant !doRun ==> i == passes
        invariant popped == Min(|q|, i)
        invariant files - {wavefilename} == old(files) - {wavefilename}
        invariant fileQueue == q[..|q| - popped]
        invariant dispatched == old(dispatched) + Reversed(q[|q| - popped..])
        decreases passes - i
      {
        var data := if i < |source| then source[i] else None;
        ghost var before := files;
        Step(data);
        if files != before {
          UpdateThenRemove(before, wavefilename, files[wavefilename]);
        }
        if popped < |q| {
          PopLast(q, popped);
          popped := popped + 1;
        }
        ReadEndsAtFirstEnd(source, i);
        i := i + 1;
      }
      files := files - {wavefilename};
    }
  }
}
