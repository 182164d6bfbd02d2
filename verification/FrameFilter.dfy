/** The browser terminal's front door: a streaming filter over client frames that saves clipboard
    frames and forwards every other byte, whatever way the socket cuts the stream into chunks. */
module FrameFilter {
  import opened Frames
  import opened Wrappers

  /** Everything the filter does to the outside, in order: one forwarded byte, or one saved image.
      Bytes are logged singly, so two logs are equal exactly when the forwarded streams are and every
      image is saved at the same place in them. */
  datatype Event = Forward(b: Byte) | Save(image: Bytes)

  function Forwards(s: Bytes): (log: seq<Event>)
    ensures |log| == |s|
  {
    seq(|s|, i requires 0 <= i < |s| => Forward(s[i]))
  }

  /** `pending` is None once filtering has stopped for the socket. */
  datatype State = State(log: seq<Event>, pending: Option<Bytes>)

  // ----- one round of the loop, as a function of the buffered bytes -----

  datatype Round = Wait | GiveUp | Take(frame: Frame, size: nat)

  /** The frame the buffer starts with, read off its header; Wait when a byte of it is missing. */
  function ReadRound(buf: Bytes): (r: Round)
    ensures r.Take? ==> 2 <= r.size <= |buf|
  {
    if |buf| < 2 then Wait else
    var width := ExtendedWidth(buf[1]);
    if |buf| < 2 + width then Wait else
    var extended := buf[2..2 + width];
    var len := AnnouncedLength(buf[1], extended);
    if len > MAX_CLIP then GiveUp else
    var hdr := 2 + width + if MaskBit(buf[1]) then 4 else 0;
    if |buf| < hdr + len then Wait else
    var key := buf[2 + width..hdr];
    Take(Frame(buf[0], buf[1], extended, key, Mask(key, buf[hdr..hdr + len])), hdr + len)
  }

  /** What one complete frame does. */
  function Deliver(f: Frame): seq<Event> {
    if IsClip(f) then [Save(f.payload[1..])] else Forwards(Wire(f))
  }

  function DeliverAll(frames: seq<Frame>): seq<Event> {
    if frames == [] then [] else Deliver(frames[0]) + DeliverAll(frames[1..])
  }

  /** The whole loop over one buffer. */
  function Drain(buf: Bytes): State
    decreases |buf|
  {
    match ReadRound(buf)
    case Wait => State([], Some(buf))
    case GiveUp => State(Forwards(buf), None)
    case Take(f, size) =>
      var rest := Drain(buf[size..]);
      State(Deliver(f) + rest.log, rest.pending)
  }

  /** One socket chunk arriving in state `s`. */
  function Fed(s: State, chunk: Bytes): State {
    if s.pending.None? then State(s.log + Forwards(chunk), None)
    else
      var d := Drain(s.pending.value + chunk);
      State(s.log + d.log, d.pending)
  }

  function FedAll(s: State, chunks: seq<Bytes>): State
    decreases |chunks|
  {
    if chunks == [] then s else FedAll(Fed(s, chunks[0]), chunks[1..])
  }

  function Concat(chunks: seq<Bytes>): Bytes {
    if chunks == [] then [] else chunks[0] + Concat(chunks[1..])
  }

  const FRESH := State([], Some([]))

  // ----- reading a round and writing a frame are inverse -----

  /** Only the 64-bit length form can announce more than MAX_CLIP. */
  lemma ShortForms(second: Byte, extended: Bytes)
    requires |extended| == ExtendedWidth(second)
    ensures |extended| != 8 ==> AnnouncedLength(second, extended) < 65536
  {
    if |extended| == 2 {
      assert extended[..1][..0] == [];
      assert BigEndian(extended[..1]) == extended[0];
    }
  }

  lemma RoundIsFrame(buf: Bytes)
    ensures ReadRound(buf).GiveUp? <==> Oversized(buf)
    ensures ReadRound(buf).Take? ==>
              WellFormed(ReadRound(buf).frame) && Wire(ReadRound(buf).frame) == buf[..ReadRound(buf).size]
  {
    hide BigEndian, Mask;
    if |buf| >= 2 && |buf| >= 2 + ExtendedWidth(buf[1]) {
      var width := ExtendedWidth(buf[1]);
      ShortForms(buf[1], buf[2..2 + width]);
      if ReadRound(buf).Take? {
        var hdr, size := 2 + width + if MaskBit(buf[1]) then 4 else 0, ReadRound(buf).size;
        MaskTwice(buf[2 + width..hdr], buf[hdr..size]);
        assert Header(ReadRound(buf).frame) == buf[..hdr];
        assert buf[..hdr] + buf[hdr..size] == buf[..size];
      }
    }
  }

  /** Reading back the wire form of a frame gives that frame, whatever follows. */
  lemma ReadsWire(f: Frame, rest: Bytes)
    requires WellFormed(f)
    ensures ReadRound(Wire(f) + rest) == Take(f, |Wire(f)|)
    ensures (Wire(f) + rest)[|Wire(f)|..] == rest
  {
    var buf := Wire(f) + rest;
    var width := |f.extended|;
    var hdr := 2 + width + |f.key|;
    assert buf[1] == f.second;
    assert buf[2..2 + width] == f.extended;
    assert buf[2 + width..hdr] == f.key;
    assert buf[hdr..hdr + |f.payload|] == Mask(f.key, f.payload);
    MaskTwice(f.key, f.payload);
  }

  lemma WaitIsIncomplete(s: Bytes)
    ensures ReadRound(s).Wait? <==> Incomplete(s)
  {
    RoundIsFrame(s);
    if ReadRound(s).Wait? {
      forall f | WellFormed(f) ensures !(Wire(f) <= s) {
        if Wire(f) <= s {
          var rest := s[|Wire(f)|..];
          assert s == Wire(f) + rest;
          ReadsWire(f, rest);
          assert false;
        }
      }
    }
  }

  lemma DrainStep(buf: Bytes)
    ensures ReadRound(buf).Wait? ==> Drain(buf) == State([], Some(buf))
    ensures ReadRound(buf).GiveUp? ==> Drain(buf) == State(Forwards(buf), None)
    ensures ReadRound(buf).Take? ==>
              var f, rest := ReadRound(buf).frame, Drain(buf[ReadRound(buf).size..]);
              Drain(buf) == State(Deliver(f) + rest.log, rest.pending)
  {
    hide ReadRound, Deliver, Forwards;
  }

  // ----- the code: an updating loop, an in-place unmasking, a field between chunks -----

  class Filter {
    /** What has been written to ttyd and to the clip file so far. */
    var log: seq<Event>
    /** The bytes that do not yet make a whole frame. */
    var pending: Option<Bytes>
    /** Every byte the browser has sent, in order. */
    ghost var received: Bytes

    /** The state is a function of the bytes received alone: no trace of the chunks is left. */
    ghost predicate Valid()
      reads this
    {
      State(log, pending) == Drain(received)
    }

    constructor ()
      ensures Valid() && received == [] && log == [] && pending == Some([])
    {
      log, pending, received := [], Some([]), [];
    }

    method FilterFrames(start: Bytes) returns (rest: Option<Bytes>)
      modifies this`log
      ensures State(log, rest) == State(old(log) + Drain(start).log, Drain(start).pending)
    {
      hide Drain, BigEndian, Mask, Forwards, WellFormed, Wire, Oversized, Low7;
      var buf := start;
      while true
        invariant old(log) + Drain(start).log == log + Drain(buf).log
        invariant Drain(start).pending == Drain(buf).pending
        decreases |buf|
      {
        DrainStep(buf);
        var short, len, off := ReadLength(buf);
        if short {
          return Some(buf);
        }
        var masked := buf[1] >= 128;
        var hdr := off + if masked then 4 else 0;
        if len > MAX_CLIP {
          log := log + Forwards(buf);
          return None;
        }
        if |buf| < hdr + len {
          return Some(buf);
        }
        RoundIsFrame(buf);
        ghost var f := ReadRound(buf).frame;
        var frame := buf[..hdr + len];
        assert frame[hdr..] == buf[hdr..hdr + len] && frame[off..hdr] == buf[off..hdr];
        buf := buf[hdr + len..];
        assert old(log) + Drain(start).log == (log + Deliver(f)) + Drain(buf).log;
        var binaryFin := frame[0] >= 128 && frame[0] % 16 == 2;
        if binaryFin && len > 0 {
          var payload := Unmasked(frame, off, hdr);
          if payload[0] == CLIP_TAG {
            log := log + [Save(payload[1..])];
            continue;
          }
        }
        log := log + Forwards(frame);
      }
    }

    /** The payload length the header announces and where it ends, or `short` when a byte of it is
        missing. */
    method ReadLength(buf: Bytes) returns (short: bool, len: nat, off: nat)
      ensures short <==> |buf| < 2 || |buf| < 2 + ExtendedWidth(buf[1])
      ensures !short ==> off == 2 + ExtendedWidth(buf[1])
      ensures !short && AnnouncedLength(buf[1], buf[2..off]) <= MAX_CLIP ==> len == AnnouncedLength(buf[1], buf[2..off])
      ensures !short && AnnouncedLength(buf[1], buf[2..off]) > MAX_CLIP ==> len == MAX_CLIP + 1
    {
      hide BigEndian;
      short, len, off := false, 0, 2;
      if |buf| < 2 {
        return true, len, off;
      }
      len := buf[1] % 128;
      if len == 126 {
        if |buf| < 4 {
          return true, len, off;
        }
        len := BigEndian(buf[2..4]);
        off := 4;
      } else if len == 127 {
        if |buf| < 10 {
          return true, len, off;
        }
        var big := BigEndian(buf[2..10]);
        len := if big > MAX_CLIP then MAX_CLIP + 1 else big;
        off := 10;
      }
      if |buf| >= off {
        ShortForms(buf[1], buf[2..off]);
      }
    }

    /** A chunk arriving on the socket. */
    method Feed(chunk: Bytes)
      requires Valid()
      modifies this
      ensures Valid() && received == old(received) + chunk
    {
      received := received + chunk;
      Continue(old(received), chunk);
      if pending == None {
        log := log + Forwards(chunk);
        return;
      }
      pending := FilterFrames(pending.value + chunk);
    }
  }

  method Unmasked(frame: Bytes, off: nat, hdr: nat) returns (payload: array<Byte>)
    requires off <= hdr <= |frame| && (hdr - off == 0 || hdr - off == 4)
    ensures fresh(payload) && payload[..] == Mask(frame[off..hdr], frame[hdr..])
  {
    payload := new Byte[|frame| - hdr](i requires 0 <= i < |frame| - hdr => frame[hdr + i]);
    assert payload[..] == frame[hdr..];
    if hdr - off == 4 {
      Unmask(payload, frame[off..hdr]);
    }
  }

  method Unmask(payload: array<Byte>, key: Bytes)
    requires |key| == 4
    modifies payload
    ensures payload[..] == Mask(key, old(payload[..]))
  {
    for i := 0 to payload.Length
      invariant forall j :: 0 <= j < i ==> payload[j] == Xor(old(payload[j]), key[j % 4])
      invariant forall j :: i <= j < payload.Length ==> payload[j] == old(payload[j])
    {
      payload[i] := Xor(payload[i], key[i % 4]);
    }
  }

  // ----- chunking invariance -----

  lemma ForwardsConcat(a: Bytes, b: Bytes)
    ensures Forwards(a + b) == Forwards(a) + Forwards(b)
  {
  }

  /** A decision read off a buffer stands when more bytes follow it. */
  lemma RoundStable(a: Bytes, b: Bytes)
    requires !ReadRound(a).Wait?
    ensures ReadRound(a + b) == ReadRound(a)
  {
    RoundOfLonger(a, a + b);
  }

  lemma RoundOfLonger(a: Bytes, c: Bytes)
    requires !ReadRound(a).Wait? && a <= c
    ensures ReadRound(c) == ReadRound(a)
  {
    hide Mask, BigEndian, Low7;
    var width := ExtendedWidth(a[1]);
    assert c[0] == a[0] && c[1] == a[1];
    SliceOfFront(a, c, 2, 2 + width);
    if ReadRound(a).Take? {
      var hdr, size := 2 + width + if MaskBit(a[1]) then 4 else 0, ReadRound(a).size;
      SliceOfFront(a, c, 2 + width, hdr);
      SliceOfFront(a, c, hdr, size);
    }
  }

  lemma SliceOfFront(a: Bytes, c: Bytes, i: nat, j: nat)
    requires i <= j <= |a| && a <= c
    ensures c[i..j] == a[i..j]
  {
  }

  lemma {:induction false} Continue(a: Bytes, b: Bytes)
    ensures Drain(a + b) == Fed(Drain(a), b)
    decreases |a|
  {
    hide ReadRound, Deliver, Forwards, Drain;
    DrainStep(a);
    DrainStep(a + b);
    match ReadRound(a)
    case Wait =>
    case GiveUp =>
      RoundStable(a, b);
      ForwardsConcat(a, b);
    case Take(f, size) =>
      RoundStable(a, b);
      Continue(a[size..], b);
      assert (a + b)[size..] == a[size..] + b;
      var rest := Drain(a[size..]);
      assert rest.pending.Some? ==> (Deliver(f) + rest.log) + Drain(rest.pending.value + b).log ==
                                    Deliver(f) + (rest.log + Drain(rest.pending.value + b).log);
      assert (Deliver(f) + rest.log) + Forwards(b) == Deliver(f) + (rest.log + Forwards(b));
  }

  lemma {:induction false} FedAllFrom(a: Bytes, chunks: seq<Bytes>)
    ensures FedAll(Drain(a), chunks) == Drain(a + Concat(chunks))
    decreases |chunks|
  {
    hide Drain;
    if chunks == [] {
      assert a + [] == a;
    } else {
      Continue(a, chunks[0]);
      FedAllFrom(a + chunks[0], chunks[1..]);
      assert a + chunks[0] + Concat(chunks[1..]) == a + Concat(chunks);
    }
  }

  /** Two splits of one stream leave the same bytes forwarded, the same images saved at the same
      places, and the same state, the switch to pass-through included. */
  lemma {:induction false} ChunkingInvariance(chunks: seq<Bytes>, others: seq<Bytes>)
    requires Concat(chunks) == Concat(others)
    ensures FedAll(FRESH, chunks) == FedAll(FRESH, others) == Fed(FRESH, Concat(chunks))
  {
    assert Drain([]) == FRESH;
    FedAllFrom([], chunks);
    FedAllFrom([], others);
    assert [] + Concat(chunks) == Concat(chunks) && [] + Concat(others) == Concat(others);
    Continue([], Concat(chunks));
  }

  // ----- conservation, against the frames of RFC 6455 -----

  /** Complete frames at the front of a stream are delivered in order, then the rest is read. */
  lemma {:induction false} DrainFrames(frames: seq<Frame>, rest: Bytes)
    requires WellFormedAll(frames)
    ensures Drain(WireAll(frames) + rest) == State(DeliverAll(frames) + Drain(rest).log, Drain(rest).pending)
  {
    hide ReadRound, Deliver, Forwards, Wire, WellFormed;
    if frames == [] {
      assert WireAll(frames) + rest == rest;
    } else {
      var f, more := frames[0], WireAll(frames[1..]) + rest;
      assert WireAll(frames) + rest == Wire(f) + more;
      ReadsWire(f, more);
      DrainFrames(frames[1..], rest);
    }
  }

  /** However the stream is written as complete frames and a remainder, exactly those frames are
      delivered in order: a clip is saved and dropped, every other frame is forwarded byte for byte;
      the remainder is held, or forwarded raw once it announces too long a frame. */
  lemma {:induction false} FrameConservation(frames: seq<Frame>, tail: Bytes)
    requires WellFormedAll(frames) && (Oversized(tail) || Incomplete(tail))
    ensures Drain(WireAll(frames) + tail) ==
            if Oversized(tail) then State(DeliverAll(frames) + Forwards(tail), None)
            else State(DeliverAll(frames), Some(tail))
  {
    hide ReadRound, Wire, Incomplete, Oversized;
    DrainFrames(frames, tail);
    RoundIsFrame(tail);
    WaitIsIncomplete(tail);
  }

  /** The frames a stream starts with, and what is left. */
  function Parse(input: Bytes): (r: (seq<Frame>, Bytes))
    decreases |input|
  {
    match ReadRound(input)
    case Take(f, size) => var (more, tail) := Parse(input[size..]); ([f] + more, tail)
    case _ => ([], input)
  }

  /** Every stream is complete frames and a remainder, so FrameConservation speaks of every stream. */
  lemma {:induction false} ParseCovers(input: Bytes)
    ensures var (frames, tail) := Parse(input);
            WellFormedAll(frames) && (Oversized(tail) || Incomplete(tail)) && input == WireAll(frames) + tail
    decreases |input|
  {
    hide ReadRound, Wire, WellFormed, Incomplete, Oversized;
    RoundIsFrame(input);
    WaitIsIncomplete(input);
    match ReadRound(input)
    case Take(f, size) =>
      ParseCovers(input[size..]);
      var (more, tail) := Parse(input[size..]);
      assert ([f] + more)[1..] == more;
      assert input == Wire(f) + (WireAll(more) + tail);
    case _ =>
  }

  /** There is only one way to write a stream so. */
  lemma {:induction false} ParseUnique(frames: seq<Frame>, tail: Bytes)
    requires WellFormedAll(frames) && (Oversized(tail) || Incomplete(tail))
    ensures Parse(WireAll(frames) + tail) == (frames, tail)
  {
    hide ReadRound, Wire, WellFormed, Incomplete, Oversized;
    if frames == [] {
      RoundIsFrame(tail);
      WaitIsIncomplete(tail);
      assert WireAll(frames) + tail == tail;
    } else {
      var more := WireAll(frames[1..]) + tail;
      assert WireAll(frames) + tail == Wire(frames[0]) + more;
      ReadsWire(frames[0], more);
      ParseUnique(frames[1..], tail);
      assert frames == [frames[0]] + frames[1..];
    }
  }

  /** An image within the sender's limit, under any mask key and at any place in the stream, is saved
      as exactly itself before any byte that follows it is forwarded. */
  lemma {:induction false} ClipRoundTrip(before: seq<Frame>, key: Bytes, image: Bytes, after: Bytes)
    requires WellFormedAll(before) && |key| == 4 && |image| <= MAX_IMAGE
    ensures var f := ClientBinary(key, [CLIP_TAG] + image);
            Drain(WireAll(before) + (Wire(f) + after)) ==
            State(DeliverAll(before) + ([Save(image)] + Drain(after).log), Drain(after).pending)
  {
    hide ReadRound, Wire, WellFormed;
    var f := ClientBinary(key, [CLIP_TAG] + image);
    ClientBinaryWellFormed(key, [CLIP_TAG] + image);
    assert f.payload[1..] == image;
    ReadsWire(f, after);
    DrainFrames(before, Wire(f) + after);
  }

  /** What is taken for a clip, bit by bit: the first byte's top bit (FIN) set and its low four (the opcode)
      0010, and a payload that starts with the letter K. */
  lemma ClipMeans(f: Frame)
    ensures IsClip(f) <==>
              && Bit(f.first, 7) && !Bit(f.first, 3) && !Bit(f.first, 2) && Bit(f.first, 1) && !Bit(f.first, 0)
              && f.payload != [] && f.payload[0] == 75
  {
    LowBits(f.first);
    TopBit(f.first);
    hide Bit;
  }

  lemma LowBits(a: Byte)
    ensures (a % 16 == 2) <==> !Bit(a, 3) && !Bit(a, 2) && Bit(a, 1) && !Bit(a, 0)
  {
    var b := a / 2;
    var c := b / 2;
    Halves(a);
    Halves(b);
    Halves(c);
    BitZero(a);
    BitZero(b);
    BitZero(c);
    BitZero(c / 2);
    NextBit(a, 0);
    NextBit(a, 1);
    NextBit(b, 0);
    NextBit(a, 2);
    NextBit(b, 1);
    NextBit(c, 0);
    hide Bit;
  }

  lemma Halves(x: nat)
    ensures x % 16 == 2 * (x / 2 % 8) + x % 2 && x % 8 == 2 * (x / 2 % 4) + x % 2 && x % 4 == 2 * (x / 2 % 2) + x % 2
  {
    Half16(x);
    Half8(x);
    Half4(x);
  }

  lemma Half16(x: nat)
    ensures x % 16 == 2 * (x / 2 % 8) + x % 2
  {
    var half, low := x / 2, x % 2;
    var q, r := half / 8, half % 8;
    assert half == 8 * q + r && x == 16 * q + (2 * r + low);
    Rest16(q, 2 * r + low);
  }

  lemma Rest16(q: nat, r: nat)
    requires r < 16
    ensures (16 * q + r) % 16 == r
  {
  }

  lemma Half8(x: nat)
    ensures x % 8 == 2 * (x / 2 % 4) + x % 2
  {
    var half, low := x / 2, x % 2;
    var q, r := half / 4, half % 4;
    assert half == 4 * q + r && x == 8 * q + (2 * r + low);
    Rest8(q, 2 * r + low);
  }

  lemma Rest8(q: nat, r: nat)
    requires r < 8
    ensures (8 * q + r) % 8 == r
  {
  }

  lemma Half4(x: nat)
    ensures x % 4 == 2 * (x / 2 % 2) + x % 2
  {
    var half, low := x / 2, x % 2;
    var q, r := half / 2, half % 2;
    assert half == 2 * q + r && x == 4 * q + (2 * r + low);
    Rest4(q, 2 * r + low);
  }

  lemma Rest4(q: nat, r: nat)
    requires r < 4
    ensures (4 * q + r) % 4 == r
  {
  }

  lemma BitZero(x: nat)
    ensures Bit(x, 0) <==> x % 2 == 1
  {
  }

  lemma NextBit(x: nat, k: nat)
    ensures Bit(x, k + 1) == Bit(x / 2, k)
  {
  }

  lemma TopBit(a: Byte)
    ensures Bit(a, 7) == (a >= 128)
  {
    var b := a / 2 / 2 / 2;
    assert Bit(a, 7) == Bit(a / 2, 6) == Bit(a / 2 / 2, 5) == Bit(b, 4);
    var c := b / 2 / 2 / 2;
    assert Bit(b, 4) == Bit(b / 2, 3) == Bit(b / 2 / 2, 2) == Bit(c, 1) == Bit(c / 2, 0);
  }

  // ----- what a log says, whoever wrote it -----

  /** The bytes forwarded, in order. */
  function Forwarded(log: seq<Event>): Bytes {
    if log == [] then [] else (if log[0].Forward? then [log[0].b] else []) + Forwarded(log[1..])
  }

  /** The images saved, in order. */
  function Saved(log: seq<Event>): seq<Bytes> {
    if log == [] then [] else (if log[0].Save? then [log[0].image] else []) + Saved(log[1..])
  }

  /** The frames that are no clip, in order. */
  function Others(frames: seq<Frame>): seq<Frame> {
    if frames == [] then [] else (if IsClip(frames[0]) then [] else [frames[0]]) + Others(frames[1..])
  }

  /** The payloads of the clips, without their tag, in order. */
  function Images(frames: seq<Frame>): seq<Bytes> {
    if frames == [] then [] else (if IsClip(frames[0]) then [frames[0].payload[1..]] else []) + Images(frames[1..])
  }

  lemma {:induction false} LogConcat(a: seq<Event>, b: seq<Event>)
    ensures Forwarded(a + b) == Forwarded(a) + Forwarded(b) && Saved(a + b) == Saved(a) + Saved(b)
  {
    if a == [] {
      assert a + b == b;
    } else {
      var e, rest, c := a[0], a[1..], a + b;
      assert c[0] == e && c[1..] == rest + b;
      LogConcat(rest, b);
      hide Forwarded, Saved;
      LogStep(a);
      LogStep(c);
      Regroup(if e.Forward? then [e.b] else [], Forwarded(rest), Forwarded(b));
      Regroup(if e.Save? then [e.image] else [], Saved(rest), Saved(b));
    }
  }

  lemma Regroup<T>(x: seq<T>, y: seq<T>, z: seq<T>)
    ensures (x + y) + z == x + (y + z)
  {
  }

  lemma LogStep(log: seq<Event>)
    requires log != []
    ensures Forwarded(log) == (if log[0].Forward? then [log[0].b] else []) + Forwarded(log[1..])
    ensures Saved(log) == (if log[0].Save? then [log[0].image] else []) + Saved(log[1..])
  {
  }

  lemma {:induction false} ForwardsLog(s: Bytes)
    ensures Forwarded(Forwards(s)) == s && Saved(Forwards(s)) == []
  {
    if s != [] {
      ForwardsLog(s[1..]);
      assert Forwards(s)[1..] == Forwards(s[1..]);
    }
  }

  lemma {:induction false} FramesLog(frames: seq<Frame>)
    ensures Forwarded(DeliverAll(frames)) == WireAll(Others(frames)) && Saved(DeliverAll(frames)) == Images(frames)
  {
    hide Forwards, Wire, IsClip;
    if frames != [] {
      var f, rest := frames[0], frames[1..];
      FramesLog(rest);
      LogConcat(Deliver(f), DeliverAll(rest));
      if IsClip(f) {
        assert Deliver(f)[1..] == [];
        assert Others(frames) == Others(rest);
      } else {
        ForwardsLog(Wire(f));
        assert Others(frames) == [f] + Others(rest) && ([f] + Others(rest))[1..] == Others(rest);
        assert Images(frames) == Images(rest);
      }
    }
  }

  /** What leaves the filter: of any stream, exactly the bytes of the frames that are no clip, in order,
      and of a tail that announces too long a frame every byte; and exactly the clips' images are saved,
      in order. */
  lemma {:induction false} ForwardedExactly(frames: seq<Frame>, tail: Bytes)
    requires WellFormedAll(frames) && (Oversized(tail) || Incomplete(tail))
    ensures var log := Drain(WireAll(frames) + tail).log;
            && Forwarded(log) == WireAll(Others(frames)) + (if Oversized(tail) then tail else [])
            && Saved(log) == Images(frames)
  {
    FrameConservation(frames, tail);
    FramesLog(frames);
    hide Wire, Incomplete, Oversized, Drain;
    ForwardsLog(tail);
    LogConcat(DeliverAll(frames), Forwards(tail));
  }

  /** And each save has its place: what was forwarded and saved before it is that of the frames before. */
  lemma SavedInPlace(before: seq<Frame>, f: Frame, rest: Bytes) returns (k: nat)
    requires WellFormedAll(before) && WellFormed(f) && IsClip(f)
    ensures var log := Drain(WireAll(before) + (Wire(f) + rest)).log;
            && k < |log| && log[k] == Save(f.payload[1..])
            && Forwarded(log[..k]) == WireAll(Others(before)) && Saved(log[..k]) == Images(before)
  {
    DrainFrames(before, Wire(f) + rest);
    ReadsWire(f, rest);
    FramesLog(before);
    hide Wire, WellFormed, ReadRound, IsClip;
    k := |DeliverAll(before)|;
    assert Deliver(f) == [Save(f.payload[1..])] by {
      ClipSaves(f);
    }
  }

  lemma ClipSaves(f: Frame)
    requires IsClip(f)
    ensures Deliver(f) == [Save(f.payload[1..])]
  {
  }
}
