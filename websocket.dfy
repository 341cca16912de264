/**
 * WebSocketConnection of owrx/websocket.py: the base framing of section 5.2
 * of RFC 6455 as the server writes it (FIN set, never masked, 7-bit, 16-bit
 * or 64-bit length), the frame reader of read_loop with the client masking
 * of section 5.3, and the loop's opcode dispatch.
 */
module WebSocket {
  import opened Basics
  import opened Arith

  /** 2 to the power k. */
  function Pow2(k: nat): (p: nat)
    ensures p >= 1
  {
    if k == 0 then 1 else 2 * Pow2(k - 1)
  }

  /** Bitwise exclusive or of the low k bits of a and b, bit by bit from the least significant. */
  function XorBits(a: nat, b: nat, k: nat): (r: nat)
    ensures r < Pow2(k)
  {
    if k == 0 then 0 else (a + b) % 2 + 2 * XorBits(a / 2, b / 2, k - 1)
  }

  /** Bitwise exclusive or of two bytes. */
  function Xor(a: Byte, b: Byte): Byte {
    assert Pow2(8) == 256;
    XorBits(a, b, 8)
  }

  /** Combining twice with the same bits gives back the original k-bit number. */
  lemma {:induction false} XorBitsTwice(a: nat, b: nat, k: nat)
    requires a < Pow2(k)
    ensures XorBits(XorBits(a, b, k), b, k) == a
  {
    if k > 0 {
      var rest := XorBits(a / 2, b / 2, k - 1);
      var x := XorBits(a, b, k);
      assert a / 2 < Pow2(k - 1);
      DivModUnique(x, 2, rest, (a + b) % 2);
      XorBitsTwice(a / 2, b / 2, k - 1);
      assert XorBits(x, b, k) == (x + b) % 2 + 2 * XorBits(rest, b / 2, k - 1);
      assert (x + b) % 2 == ((a + b) % 2 + b) % 2 by {
        DivModUnique(x + b, 2, rest + ((a + b) % 2 + b) / 2, ((a + b) % 2 + b) % 2);
      }
      ParityCancels(a, b);
    }
  }

  /** Adding the same bit twice modulo 2 cancels it. */
  lemma ParityCancels(a: nat, b: nat)
    ensures ((a + b) % 2 + b) % 2 + 2 * (a / 2) == a
  {
  }

  lemma XorTwice(a: Byte, k: Byte)
    ensures Xor(Xor(a, k), k) == a
  {
    assert Pow2(8) == 256;
    XorBitsTwice(a, k, 8);
  }
  /** The bit-by-bit definition agrees with Python's ^ on a sample: 0b00110111 ^ 0b11111010 == 0b11001101. */
  lemma XorSample()
    ensures Xor(0x37, 0xFA) == 0xCD
  {
    assert XorBits(0, 1, 1) == 1;
    assert XorBits(0, 3, 2) == 3;
    assert XorBits(1, 7, 3) == 6;
    assert XorBits(3, 15, 4) == 12;
    assert XorBits(6, 31, 5) == 25;
    assert XorBits(13, 62, 6) == 51;
    assert XorBits(27, 125, 7) == 102;
    assert XorBits(55, 250, 8) == 205;
  }


  /** ws_first_byte: FIN set, the three RSV bits clear, the low four bits of the opcode. */
  function FirstByte(opcode: nat): (b: Byte)
    ensures b / 128 == 1 && b / 16 % 8 == 0 && b % 16 == opcode % 16
  {
    128 + opcode % 16
  }

  /** (size >> 8k) & 0xff: byte k of the size, counting from the least significant. */
  function ByteOf(size: nat, k: nat): Byte {
    size / Pow256(k) % 256
  }

  /**
   * get_header: the unmasked frame header for a payload of `size` bytes.
   * Sizes of 2^64 and more are cut to their low 64 bits by the masks.
   */
  function GetHeader(size: nat, opcode: nat): (h: seq<Byte>)
    ensures |h| == (if size > 65535 then 10 else if size > 125 then 4 else 2)
    ensures h[0] == FirstByte(opcode)
    ensures h[1] == (if size > 65535 then 127 else if size > 125 then 126 else size)
    ensures h[1] < 128
  {
    var b0 := FirstByte(opcode);
    if size > 65535 then
      [b0, 127, ByteOf(size, 7), ByteOf(size, 6), ByteOf(size, 5), ByteOf(size, 4),
       ByteOf(size, 3), ByteOf(size, 2), ByteOf(size, 1), ByteOf(size, 0)]
    else if size > 125 then
      [b0, 126, ByteOf(size, 1), ByteOf(size, 0)]
    else
      [b0, size]
  }

  /** The number a big-endian byte string denotes. */
  function BeValue(s: seq<Byte>): nat {
    if s == [] then 0 else 256 * BeValue(s[..|s| - 1]) + s[|s| - 1]
  }

  /** The k-byte big-endian encoding of n modulo 256^k. */
  function BeBytes(n: nat, k: nat): (s: seq<Byte>)
    ensures |s| == k
  {
    if k == 0 then [] else BeBytes(n / 256, k - 1) + [n % 256]
  }

  lemma {:induction false} BeValueOfBeBytes(n: nat, k: nat)
    ensures BeValue(BeBytes(n, k)) == n % Pow256(k)
  {
    if k > 0 {
      var p := Pow256(k - 1);
      BeValueOfBeBytes(n / 256, k - 1);
      var s := BeBytes(n, k);
      assert s[..|s| - 1] == BeBytes(n / 256, k - 1);
      ModOfProduct(n, 256, p);
    }
  }

  lemma {:induction false} BeBytesAreBytesOf(n: nat, k: nat, i: nat)
    requires i < k
    ensures BeBytes(n, k)[i] == ByteOf(n, k - 1 - i)
  {
    if i < k - 1 {
      BeBytesAreBytesOf(n / 256, k - 1, i);
      DivDiv(n, 256, Pow256(k - 2 - i));
    }
  }

  /** The eight length bytes after marker 127 are the big-endian size modulo 2^64. */
  lemma LongLengthField(size: nat, opcode: nat)
    requires size > 65535
    ensures GetHeader(size, opcode)[2..] == BeBytes(size, 8)
    ensures BeValue(GetHeader(size, opcode)[2..]) == size % Pow256(8)
  {
    forall i | 0 <= i < 8
      ensures GetHeader(size, opcode)[2..][i] == BeBytes(size, 8)[i]
    {
      BeBytesAreBytesOf(size, 8, i);
    }
    BeValueOfBeBytes(size, 8);
  }

  /** The two length bytes after marker 126 are the big-endian size. */
  lemma MediumLengthField(size: nat, opcode: nat)
    requires 125 < size <= 65535
    ensures GetHeader(size, opcode)[2] as int * 256 + GetHeader(size, opcode)[3] == size
  {
    DivModUnique(size, 256, size / 256, size % 256);
  }

  /** The masking of section 5.3 of RFC 6455: byte i is combined with key byte i mod 4. */
  function Mask(data: seq<Byte>, key: seq<Byte>): (r: seq<Byte>)
    requires |key| == 4
    ensures |r| == |data|
    ensures forall i :: 0 <= i < |data| ==> r[i] == Xor(data[i], key[i % 4])
  {
    seq(|data|, i requires 0 <= i < |data| => Xor(data[i], key[i % 4]))
  }

  /** Unmasking is the same operation, so applying it twice restores the data. */
  lemma MaskInvolution(data: seq<Byte>, key: seq<Byte>)
    requires |key| == 4
    ensures Mask(Mask(data, key), key) == data
  {
    forall i | 0 <= i < |data|
      ensures Mask(Mask(data, key), key)[i] == data[i]
    {
      XorTwice(data[i], key[i % 4]);
    }
  }

  /** rfile.read(n): at most n bytes, fewer only at the end of the stream. */
  function Take(s: seq<Byte>, n: nat): (r: seq<Byte>)
    ensures |r| == (if n <= |s| then n else |s|) && r == s[..|r|]
  {
    if n <= |s| then s[..n] else s
  }

  /**
   * One pass of read_loop's header handling on the bytes still to come: a
   * frame with its opcode, unmasked payload and the bytes after it, or a
   * header read that came up short (the IndexError that ends the loop).
   */
  datatype FrameRead = Truncated | Frame(opcode: nat, payload: seq<Byte>, rest: seq<Byte>)

  /**
   * The frame reader: the opcode's low four bits, a 7-bit length that 126
   * extends by two big-endian bytes, then the masking key if the mask bit is
   * set. The length marker 127 is taken as a literal length.
   */
  function ReadFrame(s: seq<Byte>): (r: FrameRead)
    ensures r.Truncated? <==> |s| < 2 || (s[1] % 128 == 126 && |s| < 4)
    ensures r.Frame? ==> r.opcode == s[0] % 16 && r.opcode < 16
    ensures r.Frame? ==> |r.rest| <= |s| - 2 && r.rest == s[|s| - |r.rest|..]
    ensures r.Frame? && s[1] < 126 ==>
      |r.payload| == (if 2 + s[1] <= |s| then s[1] else |s| - 2)
  {
    if |s| < 2 then Truncated
    else
      var opcode := s[0] % 16;
      var length7 := s[1] % 128;
      var masked := s[1] / 128 == 1;
      if length7 == 126 && |s| < 4 then Truncated
      else
        var length := if length7 == 126 then s[2] as int * 256 + s[3] else length7;
        var p := if length7 == 126 then 4 else 2;
        var key := if masked then Take(s[p..], 4) else [];
        var q := p + |key|;
        var data := Take(s[q..], length);
        Frame(opcode, if |key| == 4 then Mask(data, key) else data, s[q + |data|..])
  }

  /**
   * A frame the server writes (as send does, with the header of get_header)
   * reads back as that opcode and payload, the following bytes untouched,
   * whenever the payload fits the 16-bit length.
   */
  lemma ServerFrameRoundTrip(opcode: nat, payload: seq<Byte>, tail: seq<Byte>)
    requires |payload| <= 65535
    ensures ReadFrame(GetHeader(|payload|, opcode) + payload + tail) == Frame(opcode % 16, payload, tail)
  {
    var h := GetHeader(|payload|, opcode);
    var s := h + payload + tail;
    if |payload| > 125 {
      MediumLengthField(|payload|, opcode);
      assert s[4..] == payload + tail;
    } else {
      assert s[2..] == payload + tail;
    }
  }

  /** The frame a browser sends: the same header with the mask bit set, the key, then the masked payload. */
  function ClientFrame(opcode: nat, key: seq<Byte>, payload: seq<Byte>): (f: seq<Byte>)
    requires |key| == 4
  {
    var h := GetHeader(|payload|, opcode);
    h[1 := h[1] + 128] + key + Mask(payload, key)
  }

  /** Where the parts of a client frame sit: the header bytes, then the key, then the masked payload. */
  lemma ClientFrameLayout(opcode: nat, key: seq<Byte>, payload: seq<Byte>, tail: seq<Byte>)
    requires |key| == 4 && |payload| <= 65535
    ensures var h := GetHeader(|payload|, opcode);
      var s := ClientFrame(opcode, key, payload) + tail;
      && |s| >= |h| + 4
      && s[0] == h[0] && s[1] == h[1] + 128
      && (|h| == 4 ==> s[2] == h[2] && s[3] == h[3])
      && s[|h|..][..4] == key
      && s[|h| + 4..] == Mask(payload, key) + tail
  {
    var h := GetHeader(|payload|, opcode);
    var s := ClientFrame(opcode, key, payload) + tail;
    assert s == h[1 := h[1] + 128] + (key + (Mask(payload, key) + tail));
  }

  /** read_loop unmasks a client frame back to the payload the client meant. */
  lemma ClientFrameRoundTrip(opcode: nat, key: seq<Byte>, payload: seq<Byte>, tail: seq<Byte>)
    requires |key| == 4 && |payload| <= 65535
    ensures ReadFrame(ClientFrame(opcode, key, payload) + tail) == Frame(opcode % 16, payload, tail)
  {
    ClientFrameLayout(opcode, key, payload, tail);
    if |payload| > 125 {
      MediumLengthField(|payload|, opcode);
    }
    MaskInvolution(payload, key);
  }

  /**
   * The reader does not decode marker 127: a server-style frame longer than
   * 65535 bytes reads back as a 127-byte payload that starts with the eight
   * length bytes.
   */
  lemma LongFrameMisread(opcode: nat, payload: seq<Byte>)
    requires |payload| > 65535
    ensures var s := GetHeader(|payload|, opcode) + payload;
      ReadFrame(s) == Frame(opcode % 16, s[2..129], s[129..])
  {
  }

  /** What the loop hands to the message handler for one frame. */
  datatype Event = TextMessage(data: seq<Byte>) | BinaryMessage(data: seq<Byte>) | CloseMessage | UnsupportedOpcode(opcode: nat)

  /** Why the loop ended: a close frame, or a short header read raising IndexError. */
  datatype LoopEnd = ClosedByPeer | ShortRead

  /** The dispatch of a non-close frame: 1 text, 2 binary, anything else logged and skipped. */
  function Dispatch(opcode: nat, payload: seq<Byte>): (e: Event)
    requires opcode != 8
    ensures e != CloseMessage
    ensures e.TextMessage? <==> opcode == 1
    ensures e.BinaryMessage? <==> opcode == 2
  {
    if opcode == 1 then TextMessage(payload)
    else if opcode == 2 then BinaryMessage(payload)
    else UnsupportedOpcode(opcode)
  }

  /**
   * The whole read loop as a function of the bytes the client sends: the
   * events in order and the reason the loop ended. Only a close frame ends
   * it normally, and it is the last event.
   */
  function Session(s: seq<Byte>): (r: (seq<Event>, LoopEnd))
    ensures |r.0| <= |s| / 2
    decreases |s|
  {
    match ReadFrame(s)
    case Truncated => ([], ShortRead)
    case Frame(opcode, payload, rest) =>
      if opcode == 8 then ([CloseMessage], ClosedByPeer)
      else
        var r := Session(rest);
        ([Dispatch(opcode, payload)] + r.0, r.1)
  }

  /**
   * The loop ends normally exactly when the last event is a close, and no
   * event before the last one is a close.
   */
  lemma {:induction false} CloseIsLast(s: seq<Byte>)
    ensures var r := Session(s);
      && (r.1 == ClosedByPeer <==> |r.0| > 0 && r.0[|r.0| - 1] == CloseMessage)
      && forall i :: 0 <= i < |r.0| - 1 ==> r.0[i] != CloseMessage
    decreases |s|
  {
    SessionStep(s);
    var f := ReadFrame(s);
    if f.Frame? && f.opcode != 8 {
      CloseIsLast(f.rest);
    }
  }

  /** One unrolling of Session. */
  lemma SessionStep(s: seq<Byte>)
    ensures var f := ReadFrame(s);
      && (f.Truncated? ==> Session(s) == ([], ShortRead))
      && (f.Frame? && f.opcode == 8 ==> Session(s) == ([CloseMessage], ClosedByPeer))
      && (f.Frame? && f.opcode != 8 ==>
            Session(s) == ([Dispatch(f.opcode, f.payload)] + Session(f.rest).0, Session(f.rest).1))
  {
  }

  /** read_loop: read frames and dispatch them until a close frame or a short read. */
  method ReadLoop(input: seq<Byte>) returns (events: seq<Event>, end: LoopEnd)
    ensures events == Session(input).0 && end == Session(input).1
  {
    var rest := input;
    var open := true;
    events := [];
    end := ShortRead;
    while open
      invariant open ==> Session(input).0 == events + Session(rest).0 && Session(input).1 == Session(rest).1
      invariant !open ==> events == Session(input).0 && end == Session(input).1
      decreases |rest|, open
    {
      var frame := ReadFrame(rest);
      SessionStep(rest);
      if frame.Truncated? {
        end := ShortRead;
        open := false;
      } else {
        if frame.opcode == 8 {
          events := events + [CloseMessage];
          end := ClosedByPeer;
          open := false;
        } else {
          var e := Dispatch(frame.opcode, frame.payload);
          events := events + [e];
        }
        rest := frame.rest;
      }
    }
  }

  /** close(): the header of an empty close frame. */
  function CloseHeader(): (h: seq<Byte>)
    ensures h == [0x88, 0x00]
  {
    GetHeader(0, 8)
  }

  /** Whatever follows a close frame is never read. */
  lemma CloseEndsSession(tail: seq<Byte>)
    ensures Session(CloseHeader() + tail) == ([CloseMessage], ClosedByPeer)
  {
    assert ReadFrame(CloseHeader() + tail).opcode == 8;
  }

  /** The payload types send accepts: str (after json.dumps for a dict) or bytes. */
  datatype Message = Text(text: string) | Binary(bytes: seq<Byte>)

  /** The opcode send chooses: 1 for text, 2 for anything else. */
  function SendOpcode(m: Message): (opcode: nat)
    ensures opcode == 1 <==> m.Text?
    ensures opcode == 2 <==> m.Binary?
  {
    if m.Text? then 1 else 2
  }

  /** str.encode('utf-8') for one character (a Unicode scalar value). */
  function Utf8Char(c: char): (b: seq<Byte>)
    ensures 1 <= |b| <= 4
    ensures |b| == 1 <==> (c as int) < 128
  {
    var n := c as int;
    if n < 0x80 then [n]
    else if n < 0x800 then [0xC0 + n / 64, 0x80 + n % 64]
    else if n < 0x10000 then [0xE0 + n / 4096, 0x80 + n / 64 % 64, 0x80 + n % 64]
    else [0xF0 + n / 262144, 0x80 + n / 4096 % 64, 0x80 + n / 64 % 64, 0x80 + n % 64]
  }

  predicate IsAscii(t: string) {
    forall i :: 0 <= i < |t| ==> (t[i] as int) < 128
  }

  /** str.encode('utf-8'). */
  function Utf8(t: string): (b: seq<Byte>)
    ensures |b| >= |t|
  {
    if t == [] then [] else Utf8Char(t[0]) + Utf8(t[1..])
  }

  /** len() of a str counts its UTF-8 bytes exactly when every character is ASCII. */
  lemma {:induction false} Utf8LengthIffAscii(t: string)
    ensures |Utf8(t)| == |t| <==> IsAscii(t)
  {
    if t != [] {
      Utf8LengthIffAscii(t[1..]);
      if IsAscii(t) {
        assert IsAscii(t[1..]) by {
          forall i | 0 <= i < |t[1..]|
            ensures (t[1..][i] as int) < 128
          {
            assert t[1..][i] == t[i + 1];
          }
        }
      } else if IsAscii(t[1..]) {
        assert (t[0] as int) >= 128 by {
          forall i | 1 <= i < |t|
            ensures (t[i] as int) < 128
          {
            assert t[i] == t[1..][i - 1];
          }
        }
      }
    }
  }

  /** The bytes send writes after the header. */
  function Payload(m: Message): seq<Byte> {
    match m
    case Text(text) => Utf8(text)
    case Binary(bytes) => bytes
  }

  /** send as written: the header length is len(data), which for a str counts characters. */
  function SendFrameAsWritten(m: Message): (f: seq<Byte>)
    ensures |f| >= 2 + |Payload(m)| && f[0] == FirstByte(SendOpcode(m))
    ensures f[|f| - |Payload(m)|..] == Payload(m)
  {
    var size := match m case Text(text) => |text| case Binary(bytes) => |bytes|;
    GetHeader(size, SendOpcode(m)) + Payload(m)
  }

  /** send with the header length counting the bytes actually written. */
  function SendFrame(m: Message): (f: seq<Byte>)
    ensures |f| >= 2 + |Payload(m)| && f[0] == FirstByte(SendOpcode(m))
    ensures f[|f| - |Payload(m)|..] == Payload(m)
  {
    GetHeader(|Payload(m)|, SendOpcode(m)) + Payload(m)
  }

  /** The two agree on binary data and on ASCII text, which is all json.dumps produces. */
  lemma SendAgreesOnAscii(m: Message)
    requires m.Text? ==> IsAscii(m.text)
    ensures SendFrameAsWritten(m) == SendFrame(m)
  {
    if m.Text? {
      Utf8LengthIffAscii(m.text);
    }
  }

  /** Text with a character outside ASCII gets a header that announces fewer bytes than follow. */
  lemma SendUndercountsNonAscii(text: string)
    requires !IsAscii(text)
    ensures |text| < |Payload(Text(text))|
  {
    Utf8LengthIffAscii(text);
  }

  /**
   * "é" as written: the header announces one byte, so a reader takes 0xC3
   * as the whole message and 0xA9 as the start of the next frame.
   */
  lemma SendAsWrittenSplitsCharacter()
    ensures SendFrameAsWritten(Text("\U{e9}")) == [0x81, 0x01, 0xC3, 0xA9]
    ensures ReadFrame(SendFrameAsWritten(Text("\U{e9}"))) == Frame(1, [0xC3], [0xA9])
  {
    EncodeEAcute();
    ReadOneByteFrame();
  }

  lemma EncodeEAcute()
    ensures SendFrameAsWritten(Text("\U{e9}")) == [0x81, 0x01, 0xC3, 0xA9]
  {
    assert Utf8("\U{e9}") == [0xC3, 0xA9];
  }

  lemma ReadOneByteFrame()
    ensures ReadFrame([0x81, 0x01, 0xC3, 0xA9]) == Frame(1, [0xC3], [0xA9])
  {
  }

  /** With the corrected length every message reads back whole, with the opcode send chose. */
  lemma SendFrameRoundTrip(m: Message, tail: seq<Byte>)
    requires |Payload(m)| <= 65535
    ensures ReadFrame(SendFrame(m) + tail) == Frame(SendOpcode(m), Payload(m), tail)
    ensures Dispatch(SendOpcode(m), Payload(m)) == (if m.Text? then TextMessage(Payload(m)) else BinaryMessage(Payload(m)))
  {
    ServerFrameRoundTrip(SendOpcode(m), Payload(m), tail);
  }
}
