/**
 * Live MJPEG streaming: the single-slot frame buffer, the multipart part
 * framer and the stream-encoder bookkeeping with its inactivity timer.
 */
module Streaming {
  import opened Outcomes
  import Decimal

  /** Seconds of inactivity after which a started stream is stopped. */
  const STREAM_TIMEOUT: int := 5 * 60

  /** The multipart boundary, and the media type the HTTP response announces. */
  const BOUNDARY: string := "frame"
  const MIMETYPE: string := "multipart/x-mixed-replace; boundary=" + BOUNDARY

  newtype byte = b: int | 0 <= b < 256

  /** An ASCII character as a byte; anything else becomes '?'. */
  function AsciiByte(c: char): (b: byte)
    ensures (c as int) < 128 ==> b as int == c as int
  {
    if (c as int) < 128 then c as int as byte else 63
  }

  /**
   * The bytes of a string of ASCII text (Python's `str.encode()`, which is
   * the identity on ASCII): one byte per character, and on ASCII text
   * reading the bytes back as characters gives the text again.
   */
  function Ascii(s: string): (b: seq<byte>)
    ensures |b| == |s| && forall i :: 0 <= i < |s| ==> b[i] == AsciiByte(s[i])
    ensures (forall i :: 0 <= i < |s| ==> (s[i] as int) < 128) ==> Chars(b) == s
  {
    seq(|s|, i requires 0 <= i < |s| => AsciiByte(s[i]))
  }

  /** The characters of a byte string, one per byte. */
  function Chars(b: seq<byte>): (s: string)
    ensures |s| == |b| && forall i :: 0 <= i < |b| ==> s[i] as int == b[i] as int
  {
    seq(|b|, i requires 0 <= i < |b| => b[i] as int as char)
  }

  /**
   * The bytes every part opens with: the boundary delimiter line ("--" and
   * the boundary, as in section 5.1.1 of RFC 2046), the content type, and
   * the name of the length header.
   */
  function Header(): (h: seq<byte>)
    ensures |h| == 51
  {
    Ascii("--" + BOUNDARY + "\r\nContent-Type: image/jpeg\r\nContent-Length: ")
  }

  function Crlf(): (b: seq<byte>)
    ensures b == [13, 10]
  {
    assert "\r\n"[0] == '\r';
    Ascii("\r\n")
  }

  function BlankLine(): (b: seq<byte>)
    ensures b == [13, 10, 13, 10]
  {
    Ascii("\r\n\r\n")
  }

  /** The decimal Content-Length value of `n`, as bytes. */
  function LengthDigits(n: nat): (d: seq<byte>)
    ensures |d| >= 1 && forall i :: 0 <= i < |d| ==> 48 <= d[i] <= 57
  {
    Ascii(Decimal.NatToString(n))
  }

  /** One unit yielded by `generate_frames`; `PartRoundTrip` states what it carries. */
  function Part(frame: seq<byte>): seq<byte> {
    Header() + LengthDigits(|frame|) + BlankLine() + frame + Crlf()
  }

  predicate IsDigitByte(b: byte) {
    48 <= b <= 57
  }

  /** Length of the run of ASCII digits at the start of `s`. */
  function DigitRun(s: seq<byte>): (k: nat)
    ensures k <= |s|
    ensures forall i :: 0 <= i < k ==> IsDigitByte(s[i])
    ensures k < |s| ==> !IsDigitByte(s[k])
  {
    if s == [] || !IsDigitByte(s[0]) then 0 else 1 + DigitRun(s[1..])
  }

  /**
   * A reader of the stream: checks the header, reads the Content-Length
   * digits, skips the blank line, takes that many bytes as the frame and
   * expects the closing CRLF.  Returns the frame and the bytes after it.
   */
  function ParsePart(s: seq<byte>): (r: Option<(seq<byte>, seq<byte>)>)
    ensures r.Some? ==> |r.value.1| < |s|
  {
    var h := Header();
    if |s| < |h| || s[..|h|] != h then None
    else
      var rest := s[|h|..];
      var k := DigitRun(rest);
      if k == 0 then None
      else
        var digits := Chars(rest[..k]);
        assert Decimal.AllDigits(digits);
        var n := Decimal.DigitsValue(digits);
        var after := rest[k..];
        if |after| < 4 || after[..4] != BlankLine() then None
        else
          var body := after[4..];
          if |body| < n + 2 || body[n..n + 2] != Crlf() then None
          else Some((body[..n], body[n + 2..]))
  }

  lemma DigitRunOfDigits(d: seq<byte>, t: seq<byte>)
    requires forall i :: 0 <= i < |d| ==> IsDigitByte(d[i])
    requires t != [] && !IsDigitByte(t[0])
    ensures DigitRun(d + t) == |d|
  {
    if d != [] {
      assert (d + t)[1..] == d[1..] + t;
      DigitRunOfDigits(d[1..], t);
    } else {
      assert d + t == t;
    }
  }

  /** The Content-Length digits read back as characters give the length they render. */
  lemma LengthDigitsValue(n: nat)
    ensures Chars(LengthDigits(n)) == Decimal.NatToString(n)
    ensures Decimal.DigitsValue(Chars(LengthDigits(n))) == n
  {
    var ds := Decimal.NatToString(n);
    assert forall i :: 0 <= i < |ds| ==> (ds[i] as int) < 128;
    Decimal.NatToStringRoundTrip(n);
  }

  /**
   * The Content-Length digits equal the frame's byte length, so a reader
   * that takes that many bytes after the blank line gets the frame back,
   * and the rest of the stream untouched.
   */
  lemma PartRoundTrip(frame: seq<byte>, rest: seq<byte>)
    ensures ParsePart(Part(frame) + rest) == Some((frame, rest))
  {
    var h, d, bl, c := Header(), LengthDigits(|frame|), BlankLine(), Crlf();
    var s := Part(frame) + rest;
    assert s == h + (d + (bl + (frame + (c + rest))));
    assert s[..|h|] == h;
    var tail := s[|h|..];
    assert tail == d + (bl + (frame + (c + rest)));
    DigitRunOfDigits(d, bl + (frame + (c + rest)));
    assert tail[..|d|] == d;
    LengthDigitsValue(|frame|);
    var after := tail[|d|..];
    assert after == bl + (frame + (c + rest));
    assert after[..4] == bl;
    var body := after[4..];
    assert body == frame + (c + rest);
    assert body[|frame|..|frame| + 2] == c;
    assert body[..|frame|] == frame;
    assert body[|frame| + 2..] == rest;
  }

  /** The response body for a sequence of frames: their parts back to back. */
  function Stream(frames: seq<seq<byte>>): seq<byte> {
    if frames == [] then [] else Part(frames[0]) + Stream(frames[1..])
  }

  /** Reads parts until the input is used up. */
  function ParseStream(s: seq<byte>): Option<seq<seq<byte>>>
    decreases |s|
  {
    if s == [] then Some([])
    else match ParsePart(s)
      case None => None
      case Some((frame, rest)) =>
        match ParseStream(rest)
        case None => None
        case Some(frames) => Some([frame] + frames)
  }

  /** A client reading the whole multipart body recovers every frame, in order. */
  lemma {:induction false} StreamRoundTrip(frames: seq<seq<byte>>)
    ensures ParseStream(Stream(frames)) == Some(frames)
  {
    if frames != [] {
      PartRoundTrip(frames[0], Stream(frames[1..]));
      assert Stream(frames) != [] by {
        assert |Part(frames[0])| >= |Header()|;
      }
      StreamRoundTrip(frames[1..]);
      assert [frames[0]] + frames[1..] == frames;
    }
  }

  /**
   * Every part starts with the "--frame" delimiter and ends with CRLF, so in
   * a stream each later delimiter follows a CRLF, as RFC 2046 requires.
   */
  lemma PartDelimiters(frame: seq<byte>)
    ensures Part(frame)[..7] == Ascii("--" + BOUNDARY)
    ensures Part(frame)[|Part(frame)| - 2..] == Crlf()
  {
    var p := Part(frame);
    assert p[..7] == Header()[..7];
    assert p[|p| - 2..] == Crlf();
  }

  /** The frame held by the slot after a sequence of writes into it. */
  function SlotAfterWrites(slot: Option<seq<byte>>, bufs: seq<seq<byte>>): Option<seq<byte>>
    decreases |bufs|
  {
    if bufs == [] then slot else SlotAfterWrites(Some(bufs[0]), bufs[1..])
  }

  /** Latest wins: after any non-empty sequence of writes the slot holds the last buffer. */
  lemma {:induction false} LatestWins(slot: Option<seq<byte>>, bufs: seq<seq<byte>>)
    requires bufs != []
    ensures SlotAfterWrites(slot, bufs) == Some(bufs[|bufs| - 1])
    decreases |bufs|
  {
    if |bufs| > 1 {
      LatestWins(Some(bufs[0]), bufs[1..]);
    }
  }

  /** `StreamingOutput`: the single frame slot the encoder writes and the HTTP generator reads. */
  class StreamingOutput {
    var frame: Option<seq<byte>>
    /** Every buffer written so far, oldest first. */
    ghost var written: seq<seq<byte>>

    ghost predicate Valid()
      reads this
    {
      frame == SlotAfterWrites(None, written)
    }

    constructor ()
      ensures Valid() && frame == None && written == []
    {
      frame := None;
      written := [];
    }

    /** `write`: replaces the slot; earlier frames are gone. */
    method Write(buf: seq<byte>)
      requires Valid()
      modifies this
      ensures Valid() && written == old(written) + [buf] && frame == Some(buf)
    {
      frame := Some(buf);
      written := written + [buf];
      LatestWins(None, written);
    }

    /**
     * The part `generate_frames` yields once a write has woken it: the
     * current frame, framed so that a reader recovers exactly that frame.
     */
    function NextPart(): (p: seq<byte>)
      reads this
      requires frame.Some?
      ensures ParsePart(p) == Some((frame.value, []))
    {
      PartRoundTrip(frame.value, []);
      assert Part(frame.value) + [] == Part(frame.value);
      Part(frame.value)
    }
  }

  /** A JPEG encoder started on a named camera stream; `id` tells encoder objects apart. */
  datatype StreamEncoder = StreamEncoder(id: nat, stream: string)

  /** A started `threading.Timer` that calls `stop_capture_stream` after `seconds`. */
  datatype StreamTimer = StreamTimer(id: nat, seconds: int)

  /** `Streaming`: the stream encoder and its inactivity timer. */
  class Streaming {
    const output: StreamingOutput
    var encoder: Option<StreamEncoder>
    var timer: Option<StreamTimer>
    /** Encoders and timers created so far. */
    var encodersAllocated: nat
    var timersArmed: nat
    /** Timers started and not cancelled: each will fire unless cancelled. */
    ghost var liveTimers: set<nat>

    ghost predicate Valid()
      reads this
    {
      && liveTimers == (if timer.Some? then {timer.value.id} else {})
      && (timer.Some? ==> timer.value.id < timersArmed)
      && (encoder.Some? ==> encoder.value.id < encodersAllocated)
    }

    constructor ()
      ensures Valid() && fresh(output) && output.Valid() && output.frame == None
      ensures encoder == None && timer == None && encodersAllocated == 0 && timersArmed == 0
    {
      output := new StreamingOutput();
      encoder, timer := None, None;
      encodersAllocated, timersArmed := 0, 0;
      liveTimers := {};
    }

    /** `is_streaming`: a streaming encoder is held. */
    predicate IsStreaming()
      reads this
    {
      encoder.Some?
    }

    /**
     * `start_capture_stream`: cancels the pending timer, starts an encoder
     * only if none is held, arms a fresh timer and hands out the one output.
     */
    method StartCaptureStream(stream: string) returns (out: StreamingOutput)
      requires Valid()
      modifies this
      ensures Valid() && out == output && IsStreaming()
      ensures old(encoder).Some? ==> encoder == old(encoder) && encodersAllocated == old(encodersAllocated)
      ensures old(encoder).None? ==> encoder == Some(StreamEncoder(old(encodersAllocated), stream))
                                     && encodersAllocated == old(encodersAllocated) + 1
      ensures timer == Some(StreamTimer(old(timersArmed), STREAM_TIMEOUT)) && timersArmed == old(timersArmed) + 1
      ensures liveTimers == {old(timersArmed)}
    {
      if timer.Some? {
        liveTimers := liveTimers - {timer.value.id};
      }
      if encoder.None? {
        encoder := Some(StreamEncoder(encodersAllocated, stream));
        encodersAllocated := encodersAllocated + 1;
      }
      timer := Some(StreamTimer(timersArmed, STREAM_TIMEOUT));
      liveTimers := liveTimers + {timersArmed};
      timersArmed := timersArmed + 1;
      out := output;
    }

    /** `stop_capture_stream` (also what a firing timer runs): no timer and no encoder afterwards. */
    method StopCaptureStream()
      requires Valid()
      modifies this
      ensures Valid() && timer == None && encoder == None && liveTimers == {}
      ensures encodersAllocated == old(encodersAllocated) && timersArmed == old(timersArmed)
      ensures !IsStreaming()
    {
      if timer.Some? {
        liveTimers := liveTimers - {timer.value.id};
        timer := None;
      }
      if encoder.Some? {
        encoder := None;
      }
    }
  }

  /** Two starts in a row: one encoder, two timers armed, only the second still live. */
  method StartTwice(s: Streaming)
    requires s.Valid() && !s.IsStreaming()
    modifies s
    ensures s.Valid() && s.encodersAllocated == old(s.encodersAllocated) + 1
    ensures s.timersArmed == old(s.timersArmed) + 2 && s.liveTimers == {old(s.timersArmed) + 1}
  {
    var out1 := s.StartCaptureStream("lores");
    var out2 := s.StartCaptureStream("lores");
    assert out1 == out2;
  }
}
