// WebSocket frames (sections 5.2 to 5.4 of RFC 6455): the writer, the reader,
// and the loop that reassembles fragmented messages.
module WebSocket {
  import opened Common

  const MAX_FRAME_SIZE := 0x100_0000

  const CONTINUATION := 0
  const TEXT := 1
  const BINARY := 2
  const CLOSE := 8
  const PING := 9
  const PONG := 10

  type Opcode = x: int | 0 <= x < 16

  datatype Frame = Frame(fin: bool, opcode: Opcode, payload: Bytes)

  type MaskKey = k: Bytes | |k| == 4 witness [0, 0, 0, 0]

  datatype Error = UnexpectedEnd | MaskedServerFrame | UnmaskedClientFrame | FrameTooLarge

  // ---------------------------------------------------------------------
  // Exclusive or

  // The low n bits of a ^ b.
  function XorBits(a: nat, b: nat, n: nat): nat {
    if n == 0 then 0 else XorBit(a, b) + 2 * XorBits(a / 2, b / 2, n - 1)
  }

  function Pow2(n: nat): nat {
    if n == 0 then 1 else 2 * Pow2(n - 1)
  }

  lemma {:induction false} XorBitsBound(a: nat, b: nat, n: nat)
    ensures XorBits(a, b, n) < Pow2(n)
  {
    if n > 0 {
      XorBitsBound(a / 2, b / 2, n - 1);
    }
  }

  function XorBit(a: nat, b: nat): nat {
    if a % 2 == b % 2 then 0 else 1
  }

  lemma OneBit(a: nat, b: nat, x: nat)
    ensures var y := XorBit(a, b) + 2 * x; y / 2 == x && XorBit(y, b) == a % 2
  {
    assert (XorBit(a, b) + 2 * x) % 2 == XorBit(a, b);
  }

  lemma {:induction false} XorBitsTwice(a: nat, b: nat, n: nat)
    requires a < Pow2(n)
    ensures XorBits(XorBits(a, b, n), b, n) == a
  {
    hide XorBit;
    if n > 0 {
      XorBitsTwice(a / 2, b / 2, n - 1);
      OneBit(a, b, XorBits(a / 2, b / 2, n - 1));
    }
  }

  lemma Pow2Of8()
    ensures Pow2(8) == 256
  {
  }

  function Xor(a: Byte, b: Byte): Byte {
    Pow2Of8();
    XorBitsBound(a, b, 8);
    XorBits(a, b, 8)
  }

  lemma XorTwice(a: Byte, b: Byte)
    ensures Xor(Xor(a, b), b) == a
  {
    Pow2Of8();
    XorBitsTwice(a, b, 8);
  }

  // Bit k of a number.
  predicate Bit(x: nat, k: nat) {
    if k == 0 then x % 2 == 1 else Bit(x / 2, k - 1)
  }

  lemma {:induction false} XorBitsAt(a: nat, b: nat, n: nat, k: nat)
    requires k < n
    ensures Bit(XorBits(a, b, n), k) <==> Bit(a, k) != Bit(b, k)
    decreases k
  {
    var x := XorBits(a / 2, b / 2, n - 1);
    LowBit(a, b, x);
    hide XorBit;
    if k > 0 {
      XorBitsAt(a / 2, b / 2, n - 1, k - 1);
    }
  }

  lemma LowBit(a: nat, b: nat, x: nat)
    ensures var y := XorBit(a, b) + 2 * x; y / 2 == x && (y % 2 == 1 <==> a % 2 != b % 2)
  {
  }

  // Each bit of the result is set exactly if the two bytes differ there.
  lemma XorAt(a: Byte, b: Byte, k: nat)
    requires k < 8
    ensures Bit(Xor(a, b), k) <==> Bit(a, k) != Bit(b, k)
  {
    XorBitsAt(a, b, 8, k);
  }

  // A number of n bits is determined by its bits.
  lemma {:induction false} BitsDetermine(x: nat, y: nat, n: nat)
    requires x < Pow2(n) && y < Pow2(n) && forall k :: 0 <= k < n ==> (Bit(x, k) <==> Bit(y, k))
    ensures x == y
    decreases n
  {
    if n > 0 {
      assert Bit(x, 0) <==> Bit(y, 0);
      forall k | 0 <= k < n - 1
        ensures Bit(x / 2, k) <==> Bit(y / 2, k)
      {
        assert Bit(x, k + 1) <==> Bit(y, k + 1);
      }
      BitsDetermine(x / 2, y / 2, n - 1);
    }
  }

  // So the laws of single bits leave only one function: exclusive or.
  lemma XorIsUnique(a: Byte, b: Byte, c: Byte)
    requires forall k :: 0 <= k < 8 ==> (Bit(c, k) <==> Bit(a, k) != Bit(b, k))
    ensures c == Xor(a, b)
  {
    hide Bit, Xor;
    forall k | 0 <= k < 8
      ensures Bit(c, k) <==> Bit(Xor(a, b), k)
    {
      XorAt(a, b, k);
    }
    Pow2Of8();
    BitsDetermine(c, Xor(a, b), 8);
  }

  // A masked byte differs from the payload byte in exactly the bits of the key
  // byte at its index modulo 4.
  lemma MaskAt(payload: Bytes, key: MaskKey, i: nat, k: nat)
    requires i < |payload| && k < 8
    ensures |Mask(payload, key)| == |payload|
    ensures Bit(Mask(payload, key)[i], k) <==> Bit(payload[i], k) != Bit(key[i % 4], k)
  {
    hide Bit, Xor;
    XorAt(payload[i], key[i % 4], k);
  }

  function Mask(payload: Bytes, key: MaskKey): (m: Bytes)
    ensures |m| == |payload|
  {
    seq(|payload|, i requires 0 <= i < |payload| => Xor(payload[i], key[i % 4]))
  }

  lemma MaskTwice(payload: Bytes, key: MaskKey)
    ensures Mask(Mask(payload, key), key) == payload
  {
    hide Xor;
    forall i | 0 <= i < |payload|
      ensures Mask(Mask(payload, key), key)[i] == payload[i]
    {
      XorTwice(payload[i], key[i % 4]);
    }
  }

  // ---------------------------------------------------------------------
  // One frame

  // The second header byte and the extended length.
  function LengthBytes(n: nat, masked: bool): Bytes {
    var bit := if masked then 0x80 else 0;
    if n < 126 then [bit + n]
    else if n <= 0xFFFF then [bit + 126] + BigEndian(n, 2)
    else [bit + 127] + BigEndian(n, 8)
  }

  // A client masks with a key, a server does not.
  function BodyBytes(payload: Bytes, key: Option<MaskKey>): Bytes {
    if key.Some? then key.value + Mask(payload, key.value) else payload
  }

  function FrameBytes(f: Frame, key: Option<MaskKey>): Bytes {
    [(if f.fin then 0x80 else 0) + f.opcode] + LengthBytes(|f.payload|, key.Some?) + BodyBytes(f.payload, key)
  }

  function ReadLength(short: nat, s: Bytes): (r: Option<(nat, Bytes)>)
    ensures r.Some? ==> |r.value.1| <= |s|
  {
    var size := if short == 126 then 2 else if short == 127 then 8 else 0;
    if |s| < size then None
    else Some((if size == 0 then short else FromBigEndian(s[..size]), s[size..]))
  }

  function ReadBody(client: bool, n: nat, s: Bytes): (r: Result<(Bytes, Bytes), Error>)
    ensures r.Ok? ==> |r.value.1| <= |s|
  {
    if client then
      if |s| < n then Err(UnexpectedEnd) else Ok((s[..n], s[n..]))
    else if |s| < 4 + n then Err(UnexpectedEnd)
    else Ok((Mask(s[4..4 + n], s[..4]), s[4 + n..]))
  }

  // A frame read by a client (from a server) or by a server (from a client).
  function ReadFrame(client: bool, s: Bytes): (r: Result<(Frame, Bytes), Error>)
    ensures r.Ok? ==> |r.value.1| < |s|
  {
    if |s| < 2 then Err(UnexpectedEnd)
    else if client && s[1] >= 0x80 then Err(MaskedServerFrame)
    else if !client && s[1] < 0x80 then Err(UnmaskedClientFrame)
    else match ReadLength(s[1] % 0x80, s[2..])
      case None => Err(UnexpectedEnd)
      case Some((n, rest)) =>
        if n > MAX_FRAME_SIZE then Err(FrameTooLarge)
        else match ReadBody(client, n, rest)
          case Err(e) => Err(e)
          case Ok((payload, after)) => Ok((Frame(s[0] >= 0x80, s[0] % 16, payload), after))
  }

  lemma LengthReads(n: nat, masked: bool, rest: Bytes)
    requires n < 0x1_0000_0000_0000_0000
    ensures var s := LengthBytes(n, masked) + rest;
            && s != [] && (s[0] >= 0x80 <==> masked)
            && ReadLength(s[0] % 0x80, s[1..]) == Some((n, rest))
  {
    PowValues();
    hide Pow256, FromBigEndian, BigEndian;
    var s := LengthBytes(n, masked) + rest;
    if n >= 126 {
      var size := if n <= 0xFFFF then 2 else 8;
      BigEndianInverts(n, size);
      assert s[1..] == BigEndian(n, size) + rest;
      assert s[1..][..size] == BigEndian(n, size) && s[1..][size..] == rest;
    } else {
      assert s[1..] == rest && rest[0..] == rest;
    }
  }

  lemma BodyReads(payload: Bytes, key: Option<MaskKey>, rest: Bytes)
    ensures ReadBody(key.None?, |payload|, BodyBytes(payload, key) + rest) == Ok((payload, rest))
  {
    var s := BodyBytes(payload, key) + rest;
    if key.Some? {
      MaskTwice(payload, key.value);
      hide Mask;
      var n := |payload|;
      assert s[..4] == key.value && s[4..4 + n] == Mask(payload, key.value) && s[4 + n..] == rest;
    } else {
      assert s[..|payload|] == payload && s[|payload|..] == rest;
    }
  }

  // Whatever the mask key, a written frame reads back as itself, through all
  // three length forms, with what follows untouched, exactly when its payload
  // is at most 16 MiB; a larger one is refused.
  lemma FrameReads(f: Frame, key: Option<MaskKey>, rest: Bytes)
    requires |f.payload| < 0x1_0000_0000_0000_0000
    ensures ReadFrame(key.None?, FrameBytes(f, key) + rest)
            == if |f.payload| <= MAX_FRAME_SIZE then Ok((f, rest)) else Err(FrameTooLarge)
  {
    hide LengthBytes, BodyBytes, ReadLength, ReadBody;
    var n := |f.payload|;
    var body := BodyBytes(f.payload, key) + rest;
    var tail := LengthBytes(n, key.Some?) + body;
    var s := FrameBytes(f, key) + rest;
    LengthReads(n, key.Some?, body);
    BodyReads(f.payload, key, rest);
    assert s == [(if f.fin then 0x80 else 0) + f.opcode] + tail;
    assert s[1] == tail[0] && s[2..] == tail[1..];
  }

  lemma HeaderBits(x: nat, top: bool)
    requires x < 0x80
    ensures var y := (if top then 0x80 else 0) + x;
            (Bit(y, 7) <==> top) && y % 0x80 == x && (x < 16 ==> !Bit(y, 4) && !Bit(y, 5) && !Bit(y, 6) && y % 16 == x)
  {
    var y := (if top then 0x80 else 0) + x;
    var y4 := y / 2 / 2 / 2 / 2;
    var y7 := y4 / 2 / 2 / 2;
    assert y7 == if top then 1 else 0;
    assert Bit(y, 4) == Bit(y / 2, 3) == Bit(y / 2 / 2, 2) == Bit(y / 2 / 2 / 2, 1) == Bit(y4, 0);
    assert Bit(y, 5) == Bit(y / 2, 4) == Bit(y / 2 / 2, 3) == Bit(y / 2 / 2 / 2, 2) == Bit(y4, 1) == Bit(y4 / 2, 0);
    assert Bit(y, 6) == Bit(y / 2, 5) == Bit(y / 2 / 2, 4) == Bit(y / 2 / 2 / 2, 3) == Bit(y4, 2) == Bit(y4 / 2 / 2, 0);
    assert Bit(y, 7) == Bit(y / 2, 6) == Bit(y / 2 / 2, 5) == Bit(y / 2 / 2 / 2, 4) == Bit(y4, 3) == Bit(y7, 0);
  }

  // The layout of section 5.2 of RFC 6455: the first byte holds the final bit, three
  // zero bits and the opcode; the second the mask bit and the length or the code
  // of its form, with two or eight bytes in network order after it; then the mask
  // key, if any, and the payload.
  lemma FrameLayout(f: Frame, key: Option<MaskKey>)
    requires |f.payload| < 0x1_0000_0000_0000_0000
    ensures var s, n := FrameBytes(f, key), |f.payload|;
            var size := if n < 126 then 0 else if n <= 0xFFFF then 2 else 8;
            && |s| == 2 + size + (if key.Some? then 4 else 0) + n
            && (Bit(s[0], 7) <==> f.fin) && !Bit(s[0], 6) && !Bit(s[0], 5) && !Bit(s[0], 4) && s[0] % 16 == f.opcode
            && (Bit(s[1], 7) <==> key.Some?)
            && s[1] % 0x80 == (if size == 0 then n else if size == 2 then 126 else 127)
            && (size > 0 ==> FromBigEndian(s[2..2 + size]) == n)
            && s[2 + size..] == BodyBytes(f.payload, key)
  {
    var n := |f.payload|;
    var size := if n < 126 then 0 else if n <= 0xFFFF then 2 else 8;
    HeaderBits(f.opcode, f.fin);
    HeaderBits(if size == 0 then n else if size == 2 then 126 else 127, key.Some?);
    PowValues();
    hide Bit, Pow256, FromBigEndian, BigEndian, Mask;
    var s := FrameBytes(f, key);
    if size > 0 {
      BigEndianInverts(n, size);
      assert s[2..2 + size] == BigEndian(n, size);
    }
    assert s[2 + size..] == BodyBytes(f.payload, key);
  }

  // ---------------------------------------------------------------------
  // A sequence of frames

  function StreamBytes(frames: seq<(Frame, Option<MaskKey>)>): Bytes {
    if frames == [] then [] else FrameBytes(frames[0].0, frames[0].1) + StreamBytes(frames[1..])
  }

  // Every frame up to the first that cannot be read, and why reading ended.
  function ReadStream(client: bool, s: Bytes): (seq<Frame>, Error)
    decreases |s|
  {
    match ReadFrame(client, s)
    case Err(e) => ([], e)
    case Ok((f, rest)) =>
      var (fs, e) := ReadStream(client, rest);
      ([f] + fs, e)
  }

  function FramesOf(frames: seq<(Frame, Option<MaskKey>)>): (fs: seq<Frame>)
    ensures |fs| == |frames| && forall i :: 0 <= i < |frames| ==> fs[i] == frames[i].0
  {
    seq(|frames|, i requires 0 <= i < |frames| => frames[i].0)
  }

  // Frames of at most 16 MiB written by one side, each with its own mask key
  // if that side is a client, read back as the same sequence.
  lemma {:induction false} StreamReads(client: bool, frames: seq<(Frame, Option<MaskKey>)>)
    requires forall i :: 0 <= i < |frames| ==> frames[i].1.None? == client && |frames[i].0.payload| <= MAX_FRAME_SIZE
    ensures ReadStream(client, StreamBytes(frames)) == (FramesOf(frames), UnexpectedEnd)
  {
    if frames == [] {
      assert FramesOf(frames) == [];
    } else {
      hide ReadFrame, FrameBytes, FramesOf;
      var rest := StreamBytes(frames[1..]);
      assert frames[0].1.None? == client && |frames[0].0.payload| <= MAX_FRAME_SIZE;
      FrameReads(frames[0].0, frames[0].1, rest);
      StreamReads(client, frames[1..]);
      FramesOfTail(frames);
    }
  }

  lemma FramesOfTail(frames: seq<(Frame, Option<MaskKey>)>)
    requires frames != []
    ensures FramesOf(frames) == [frames[0].0] + FramesOf(frames[1..])
  {
  }

  // ---------------------------------------------------------------------
  // Reassembly

  datatype Status = Running | Closed | ProtocolError

  // What the read loop has done: the partial message, the messages delivered,
  // the pongs sent, and whether it still runs.
  datatype Loop = Loop(partial: Bytes, delivered: seq<Bytes>, pongs: seq<Bytes>, status: Status)

  // accumulate: the new partial message, and the message to deliver if any.
  datatype Merge = Merge(partial: Bytes, message: Option<Bytes>, ok: bool)

  function Accumulate(partial: Bytes, f: Frame): Merge {
    if f.opcode != CONTINUATION then
      if f.fin then Merge(partial, Some(f.payload), true) else Merge(f.payload, None, true)
    else if partial == [] then Merge(partial, None, false)
    else if f.fin then Merge([], Some(partial + f.payload), true)
    else Merge(partial + f.payload, None, true)
  }

  function Route(l: Loop, f: Frame): Loop {
    if !l.status.Running? then l
    else if f.opcode == CLOSE then l.(status := Closed)
    else if f.opcode == PING then l.(pongs := l.pongs + [f.payload])
    else if f.opcode == PONG then l
    else if f.opcode == CONTINUATION || f.opcode == TEXT || f.opcode == BINARY then
      var m := Accumulate(l.partial, f);
      if !m.ok then l.(status := ProtocolError)
      else l.(partial := m.partial, delivered := if m.message.Some? then l.delivered + [m.message.value] else l.delivered)
    else l.(status := ProtocolError)
  }

  function RouteAll(l: Loop, frames: seq<Frame>): Loop
    decreases |frames|
  {
    if frames == [] then l else RouteAll(Route(l, frames[0]), frames[1..])
  }

  lemma {:induction false} RouteJoins(l: Loop, a: seq<Frame>, b: seq<Frame>)
    ensures RouteAll(l, a + b) == RouteAll(RouteAll(l, a), b)
    decreases |a|
  {
    if a == [] {
      assert a + b == b;
    } else {
      assert (a + b)[1..] == a[1..] + b;
      RouteJoins(Route(l, a[0]), a[1..], b);
    }
  }

  lemma RouteOne(l: Loop, f: Frame)
    ensures RouteAll(l, [f]) == Route(l, f)
  {
  }

  lemma {:induction false} StoppedStays(l: Loop, frames: seq<Frame>)
    requires !l.status.Running?
    ensures RouteAll(l, frames) == l
    decreases |frames|
  {
    if frames != [] {
      StoppedStays(l, frames[1..]);
    }
  }

  // A message on the wire: whole, or split into a first fragment, further
  // pieces with pings and pongs between them, and a last fragment. Pings and
  // pongs may also stand between messages.
  datatype Piece = Fragment(payload: Bytes) | PingPiece(ping: Bytes) | PongPiece(pong: Bytes)

  datatype Message =
    | Whole(text: bool, payload: Bytes)
    | Split(text: bool, first: Bytes, pieces: seq<Piece>, last: Bytes)
    | Control(piece: Piece)

  function DataOpcode(text: bool): Opcode {
    if text then TEXT else BINARY
  }

  function PieceFrame(p: Piece): Frame {
    match p
    case Fragment(payload) => Frame(false, CONTINUATION, payload)
    case PingPiece(ping) => Frame(true, PING, ping)
    case PongPiece(pong) => Frame(true, PONG, pong)
  }

  function PieceFrames(ps: seq<Piece>): (fs: seq<Frame>)
    ensures |fs| == |ps| && forall i :: 0 <= i < |ps| ==> fs[i] == PieceFrame(ps[i])
  {
    seq(|ps|, i requires 0 <= i < |ps| => PieceFrame(ps[i]))
  }

  function MessageFrames(m: Message): seq<Frame> {
    match m
    case Whole(text, payload) => [Frame(true, DataOpcode(text), payload)]
    case Split(text, first, pieces, last) =>
      [Frame(false, DataOpcode(text), first)] + PieceFrames(pieces) + [Frame(true, CONTINUATION, last)]
    case Control(piece) => [PieceFrame(piece)]
  }

  // The payloads of the fragments, and of the pings, in order.
  function Joined(ps: seq<Piece>): Bytes {
    if ps == [] then [] else Data(ps[0]) + Joined(ps[1..])
  }

  function Pings(ps: seq<Piece>): seq<Bytes> {
    if ps == [] then [] else Ping(ps[0]) + Pings(ps[1..])
  }

  function Data(p: Piece): Bytes {
    if p.Fragment? then p.payload else []
  }

  function Ping(p: Piece): seq<Bytes> {
    if p.PingPiece? then [p.ping] else []
  }

  // What the message says.
  function Content(m: Message): seq<Bytes> {
    match m
    case Whole(_, payload) => [payload]
    case Split(_, first, pieces, last) => [first + Joined(pieces) + last]
    case Control(_) => []
  }

  function MessagePings(m: Message): seq<Bytes> {
    match m
    case Whole(_, _) => []
    case Split(_, _, pieces, _) => Pings(pieces)
    case Control(piece) => Ping(piece)
  }

  // A continuation needs something to continue.
  predicate Continuable(m: Message) {
    match m
    case Whole(_, _) => true
    case Split(_, first, _, _) => first != []
    case Control(piece) => !piece.Fragment?
  }

  lemma PieceRoutes(l: Loop, p: Piece)
    requires l.status.Running? && (l.partial != [] || !p.Fragment?)
    ensures Route(l, PieceFrame(p)) == l.(partial := l.partial + Data(p), pongs := l.pongs + Ping(p))
  {
  }

  lemma {:induction false} PiecesAccumulate(l: Loop, ps: seq<Piece>)
    requires l.status.Running? && l.partial != []
    ensures RouteAll(l, PieceFrames(ps)) == l.(partial := l.partial + Joined(ps), pongs := l.pongs + Pings(ps))
    decreases |ps|
  {
    hide Route, PieceFrame, Data, Ping;
    if ps == [] {
      assert l.partial + [] == l.partial && l.pongs + [] == l.pongs;
    } else {
      PieceRoutes(l, ps[0]);
      var next := Route(l, PieceFrame(ps[0]));
      PiecesAccumulate(next, ps[1..]);
      assert PieceFrames(ps)[1..] == PieceFrames(ps[1..]);
      assert l.partial + Data(ps[0]) + Joined(ps[1..]) == l.partial + (Data(ps[0]) + Joined(ps[1..]));
      assert l.pongs + Ping(ps[0]) + Pings(ps[1..]) == l.pongs + (Ping(ps[0]) + Pings(ps[1..]));
    }
  }

  // Continuing an empty first fragment fails, now or at the last fragment.
  lemma {:induction false} EmptyStartFails(l: Loop, ps: seq<Piece>, last: Bytes)
    requires l.status.Running? && l.partial == []
    ensures var r := RouteAll(l, PieceFrames(ps) + [Frame(true, CONTINUATION, last)]);
            r.status.ProtocolError? && r.delivered == l.delivered
    decreases |ps|
  {
    var end := [Frame(true, CONTINUATION, last)];
    var frames := PieceFrames(ps) + end;
    if ps == [] {
      assert frames == end;
      RouteOne(l, end[0]);
    } else {
      assert frames[1..] == PieceFrames(ps[1..]) + end;
      var next := Route(l, PieceFrame(ps[0]));
      if ps[0].Fragment? {
        StoppedStays(next, frames[1..]);
      } else {
        EmptyStartFails(next, ps[1..], last);
      }
    }
  }

  lemma SplitDelivers(l: Loop, m: Message)
    requires l.status.Running? && m.Split?
    ensures var r := RouteAll(l, MessageFrames(m));
            if m.first != []
            then r == Loop([], l.delivered + Content(m), l.pongs + MessagePings(m), Running)
            else r.status.ProtocolError? && r.delivered == l.delivered
  {
    var start, end := Frame(false, DataOpcode(m.text), m.first), [Frame(true, CONTINUATION, m.last)];
    var begun := Route(l, start);
    var tail := PieceFrames(m.pieces) + end;
    assert MessageFrames(m) == [start] + tail;
    RouteJoins(l, [start], tail);
    RouteOne(l, start);
    if m.first == [] {
      EmptyStartFails(begun, m.pieces, m.last);
    } else {
      RouteJoins(begun, PieceFrames(m.pieces), end);
      PiecesAccumulate(begun, m.pieces);
      RouteOne(RouteAll(begun, PieceFrames(m.pieces)), end[0]);
    }
  }

  // A loop that has delivered what it should, still runs, and keeps no part.
  ghost predicate Delivers(l: Loop, m: Message, r: Loop) {
    r == l.(delivered := l.delivered + Content(m), pongs := l.pongs + MessagePings(m))
  }

  // Starting with no partial message, one message is delivered once, as the
  // concatenation of its fragments, and its pings are answered, exactly when it
  // is continuable.
  lemma MessageDelivers(l: Loop, m: Message)
    requires l.status.Running? && l.partial == []
    ensures var r := RouteAll(l, MessageFrames(m));
            && (Continuable(m) ==> Delivers(l, m, r))
            && (!Continuable(m) ==> r.status.ProtocolError? && r.delivered == l.delivered)
  {
    hide RouteAll, MessageFrames;
    match m
    case Split(_, _, _, _) => SplitDelivers(l, m);
    case Whole(_, _) => WholeDelivers(l, m);
    case Control(_) => ControlDelivers(l, m);
  }

  lemma WholeDelivers(l: Loop, m: Message)
    requires l.status.Running? && l.partial == [] && m.Whole?
    ensures Delivers(l, m, RouteAll(l, MessageFrames(m)))
  {
  }

  lemma ControlDelivers(l: Loop, m: Message)
    requires l.status.Running? && l.partial == [] && m.Control?
    ensures var r := RouteAll(l, MessageFrames(m));
            && (Continuable(m) ==> Delivers(l, m, r))
            && (!Continuable(m) ==> r.status.ProtocolError? && r.delivered == l.delivered)
  {
  }

  function AllFrames(ms: seq<Message>): seq<Frame> {
    if ms == [] then [] else MessageFrames(ms[0]) + AllFrames(ms[1..])
  }

  function Contents(ms: seq<Message>): seq<Bytes> {
    if ms == [] then [] else Content(ms[0]) + Contents(ms[1..])
  }

  function AllPings(ms: seq<Message>): seq<Bytes> {
    if ms == [] then [] else MessagePings(ms[0]) + AllPings(ms[1..])
  }

  predicate AllContinuable(ms: seq<Message>) {
    ms != [] ==> Continuable(ms[0]) && AllContinuable(ms[1..])
  }

  // A loop after delivering some messages and answering some pings.
  function Advance(l: Loop, delivered: seq<Bytes>, pongs: seq<Bytes>): Loop {
    l.(delivered := l.delivered + delivered, pongs := l.pongs + pongs)
  }

  lemma AdvanceTwice(l: Loop, a: seq<Bytes>, p: seq<Bytes>, b: seq<Bytes>, q: seq<Bytes>)
    ensures Advance(Advance(l, a, p), b, q) == Advance(l, a + b, p + q)
  {
  }

  lemma {:induction false} GoodStreamDelivers(l: Loop, ms: seq<Message>)
    requires l.status.Running? && l.partial == [] && AllContinuable(ms)
    ensures RouteAll(l, AllFrames(ms)) == Advance(l, Contents(ms), AllPings(ms))
    decreases |ms|
  {
    if ms == [] {
      assert l.delivered + [] == l.delivered && l.pongs + [] == l.pongs;
    } else {
      hide MessageFrames, Content, MessagePings, Continuable, RouteAll;
      var m, rest := ms[0], ms[1..];
      RouteJoins(l, MessageFrames(m), AllFrames(rest));
      MessageDelivers(l, m);
      var next := Advance(l, Content(m), MessagePings(m));
      assert RouteAll(l, MessageFrames(m)) == next;
      GoodStreamDelivers(next, rest);
      AdvanceTwice(l, Content(m), MessagePings(m), Contents(rest), AllPings(rest));
      hide Advance;
    }
  }

  lemma {:induction false} BadStreamFails(l: Loop, ms: seq<Message>)
    requires l.status.Running? && l.partial == [] && !AllContinuable(ms)
    ensures RouteAll(l, AllFrames(ms)).status.ProtocolError?
    decreases |ms|
  {
    hide MessageFrames, Content, MessagePings, Continuable, RouteAll;
    var m, rest := ms[0], ms[1..];
    RouteJoins(l, MessageFrames(m), AllFrames(rest));
    MessageDelivers(l, m);
    var next := RouteAll(l, MessageFrames(m));
    if Continuable(m) {
      BadStreamFails(next, rest);
    } else {
      StoppedStays(next, AllFrames(rest));
    }
  }

  // A whole stream is delivered, each message once and in order, exactly when
  // every message in it is continuable.
  lemma StreamDelivers(l: Loop, ms: seq<Message>)
    requires l.status.Running? && l.partial == []
    ensures var r := RouteAll(l, AllFrames(ms));
            if AllContinuable(ms)
            then r == Loop([], l.delivered + Contents(ms), l.pongs + AllPings(ms), Running)
            else r.status.ProtocolError?
  {
    hide RouteAll, AllContinuable;
    if AllContinuable(ms) {
      GoodStreamDelivers(l, ms);
    } else {
      BadStreamFails(l, ms);
    }
  }

  const FRESH := Loop([], [], [], Running)

  // End to end: frames of at most 16 MiB written with any mask keys, carrying
  // any messages: the other side's reader keeps running exactly when every
  // message is continuable, and then it has delivered those messages, each
  // once and in order, and answered every ping.
  lemma WireDelivers(client: bool, frames: seq<(Frame, Option<MaskKey>)>, ms: seq<Message>)
    requires FramesOf(frames) == AllFrames(ms)
    requires forall i :: 0 <= i < |frames| ==> frames[i].1.None? == client && |frames[i].0.payload| <= MAX_FRAME_SIZE
    ensures var r := RouteAll(FRESH, ReadStream(client, StreamBytes(frames)).0);
            && (r.status.Running? <==> AllContinuable(ms))
            && (AllContinuable(ms) ==> r.delivered == Contents(ms) && r.pongs == AllPings(ms))
  {
    StreamReads(client, frames);
    StreamDelivers(FRESH, ms);
    assert [] + Contents(ms) == Contents(ms) && [] + AllPings(ms) == AllPings(ms);
  }
}
