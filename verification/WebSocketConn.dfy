// The connection object: writing, reading and the read loop, proved against
// the frame functions.
module WebSocketConn {
  import opened Common
  import opened WebSocket

  class Conn {
    const client: bool
    // Bytes that arrived and are not yet read.
    var input: Bytes
    var partial: Bytes
    var delivered: seq<Bytes>
    var pongs: seq<Bytes>
    var status: Status

    constructor (client: bool, input: Bytes)
      ensures this.client == client && this.input == input && State() == FRESH
    {
      this.client, this.input := client, input;
      partial, delivered, pongs, status := [], [], [], Running;
    }

    function State(): Loop
      reads this
    {
      Loop(partial, delivered, pongs, status)
    }

    // Only the finished frames an endpoint sends; key is the fresh mask key.
    method WriteFrame(opcode: Opcode, payload: Bytes, key: MaskKey) returns (out: Option<Bytes>)
      ensures out == if |payload| > MAX_FRAME_SIZE then None
                     else Some(FrameBytes(Frame(true, opcode, payload), if client then Some(key) else None))
    {
      hide Mask, BigEndian;
      if |payload| > MAX_FRAME_SIZE {
        return None;
      }
      var header: Bytes := [0x80 + opcode];
      var n := |payload|;
      if n < 126 {
        header := header + [n];
      } else if n <= 0xFFFF {
        header := header + [126] + BigEndian(n, 2);
      } else {
        header := header + [127] + BigEndian(n, 8);
      }
      if client {
        header := header[1 := header[1] as int + 0x80];
      }
      assert header == [0x80 + opcode] + LengthBytes(n, client);
      if client {
        var body := MaskLoop(payload, key);
        assert header + key + body == header + (key + body);
        return Some(header + key + body);
      }
      return Some(header + payload);
    }

    method MaskLoop(payload: Bytes, key: MaskKey) returns (body: Bytes)
      ensures body == Mask(payload, key)
    {
      body := [];
      for i := 0 to |payload|
        invariant |body| == i
        invariant forall j :: 0 <= j < i ==> body[j] == Xor(payload[j], key[j % 4])
      {
        body := body + [Xor(payload[i], key[i % 4])];
      }
    }

    method ReadFull(n: nat) returns (b: Option<Bytes>)
      modifies this`input
      ensures b.None? <==> |old(input)| < n
      ensures b.Some? ==> b.value == old(input)[..n] && input == old(input)[n..]
    {
      if |input| < n {
        input := [];
        return None;
      }
      b := Some(input[..n]);
      input := input[n..];
    }

    method Length(b: Bytes) returns (n: nat)
      ensures n == FromBigEndian(b)
    {
      n := 0;
      for i := 0 to |b|
        invariant n == FromBigEndian(b[..i])
      {
        n := n * 256 + b[i];
        assert b[..i + 1][..i] == b[..i];
      }
      assert b[..|b|] == b;
    }

    method ExtendedLength(short: nat) returns (n: Option<nat>)
      modifies this`input
      ensures match ReadLength(short, old(input))
              case None => n == None
              case Some((k, rest)) => n == Some(k) && input == rest
    {
      if short != 126 && short != 127 {
        assert input[0..] == input;
        return Some(short);
      }
      var b := ReadFull(if short == 126 then 2 else 8);
      if b.None? {
        return None;
      }
      var k := Length(b.value);
      return Some(k);
    }

    method Body(n: nat) returns (r: Result<Bytes, Error>)
      modifies this`input
      ensures match ReadBody(client, n, old(input))
              case Err(e) => r == Err(e)
              case Ok((payload, rest)) => r == Ok(payload) && input == rest
    {
      hide Mask;
      ghost var s := input;
      var key: Option<Bytes> := None;
      if !client {
        key := ReadFull(4);
        if key.None? {
          return Err(UnexpectedEnd);
        }
      }
      var payload := ReadFull(n);
      if payload.None? {
        return Err(UnexpectedEnd);
      }
      if !client {
        assert s[4..][..n] == s[4..4 + n] && s[4..][n..] == s[4 + n..];
        var body := MaskLoop(payload.value, key.value);
        return Ok(body);
      }
      return Ok(payload.value);
    }

    method Read() returns (r: Result<Frame, Error>)
      modifies this`input
      ensures match ReadFrame(client, old(input))
              case Err(e) => r == Err(e)
              case Ok((f, rest)) => r == Ok(f) && input == rest
    {
      hide ReadLength, ReadBody;
      var hdr := ReadFull(2);
      if hdr.None? {
        return Err(UnexpectedEnd);
      }
      var first, second := hdr.value[0], hdr.value[1];
      if client {
        if second >= 0x80 {
          return Err(MaskedServerFrame);
        }
      } else if second < 0x80 {
        return Err(UnmaskedClientFrame);
      }
      var n := ExtendedLength(second % 0x80);
      if n.None? {
        return Err(UnexpectedEnd);
      }
      if n.value > MAX_FRAME_SIZE {
        return Err(FrameTooLarge);
      }
      var body := Body(n.value);
      if body.Err? {
        return Err(body.error);
      }
      return Ok(Frame(first >= 0x80, first % 16, body.value));
    }

    method AccumulateFrame(f: Frame) returns (message: Option<Bytes>, ok: bool)
      modifies this`partial
      ensures Merge(partial, message, ok) == Accumulate(old(partial), f)
    {
      if f.opcode != CONTINUATION {
        if !f.fin {
          partial := f.payload;
          return None, true;
        }
        return Some(f.payload), true;
      }
      if |partial| == 0 {
        return None, false;
      }
      partial := partial + f.payload;
      if !f.fin {
        return None, true;
      }
      message := Some(partial);
      partial := [];
      return message, true;
    }

    // Everything the loop does is what routing every readable frame does.
    method ReadLoop()
      requires status.Running?
      modifies this
      ensures State() == RouteAll(old(State()), ReadStream(client, old(input)).0)
    {
      while true
        invariant status.Running?
        invariant RouteAll(old(State()), ReadStream(client, old(input)).0) == RouteAll(State(), ReadStream(client, input).0)
        decreases |input|
      {
        ghost var before, was := State(), input;
        var r := Read();
        RouteNext(before, client, was);
        if r.Err? {
          return;
        }
        RouteFrame(r.value);
        if !status.Running? {
          StoppedStays(State(), ReadStream(client, input).0);
          return;
        }
      }
    }

    method RouteFrame(f: Frame)
      requires status.Running?
      modifies this`partial, this`delivered, this`pongs, this`status
      ensures State() == Route(old(State()), f)
    {
      if f.opcode == CLOSE {
        status := Closed;
      } else if f.opcode == PING {
        pongs := pongs + [f.payload];
      } else if f.opcode == PONG {
      } else if f.opcode == CONTINUATION || f.opcode == TEXT || f.opcode == BINARY {
        var message, ok := AccumulateFrame(f);
        if !ok {
          status := ProtocolError;
        } else if message.Some? {
          delivered := delivered + [message.value];
        }
      } else {
        status := ProtocolError;
      }
    }
  }

  lemma RouteNext(l: Loop, client: bool, s: Bytes)
    ensures var r := ReadFrame(client, s);
            RouteAll(l, ReadStream(client, s).0)
            == if r.Err? then l else RouteAll(Route(l, r.value.0), ReadStream(client, r.value.1).0)
  {
  }
}
