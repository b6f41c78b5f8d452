/** Newline framing over a byte stream that arrives in pieces of any size. */
module Framing {
  import opened Wrappers
  import opened Bytes

  const NEWLINE: byte := 10
  const MAX_CHUNK := 8192

  datatype FrameError = TooLong | Ended | TimedOut

  // ---------------------------------------------------------------- what a stream says

  /** The index of the first newline. */
  function Find(s: seq<byte>): (r: Option<nat>)
    ensures r.Some? ==> r.value < |s| && s[r.value] == NEWLINE && NEWLINE !in s[..r.value]
    ensures r == None ==> NEWLINE !in s
  {
    if s == [] then None
    else if s[0] == NEWLINE then Some(0)
    else
      var rest := Find(s[1..]);
      assert s == [s[0]] + s[1..];
      if rest.Some? then
        assert s[..rest.value + 1] == [s[0]] + s[1..][..rest.value];
        Some(rest.value + 1)
      else None
  }

  lemma FindIsFirst(s: seq<byte>, n: nat)
    requires n < |s| && s[n] == NEWLINE && NEWLINE !in s[..n]
    ensures Find(s) == Some(n)
  {
    assert forall i :: 0 <= i < n ==> s[i] in s[..n];
  }

  /** The first frame is complete and within the limit. */
  predicate Receivable(s: seq<byte>, limit: nat) {
    Find(s).Some? && Find(s).value <= limit
  }

  function Frames(payloads: seq<seq<byte>>): seq<byte> {
    if payloads == [] then [] else payloads[0] + [NEWLINE] + Frames(payloads[1..])
  }

  predicate Framable(payloads: seq<seq<byte>>, limit: nat) {
    forall i :: 0 <= i < |payloads| ==> NEWLINE !in payloads[i] && |payloads[i]| <= limit
  }

  /** Cutting a stream of frames gives back the payloads and what follows them. */
  function Cut(s: seq<byte>, count: nat): Option<(seq<seq<byte>>, seq<byte>)>
    decreases count
  {
    if count == 0 then Some(([], s))
    else if Find(s) == None then None
    else
      var n := Find(s).value;
      var rest := Cut(s[n + 1..], count - 1);
      if rest == None then None else Some(([s[..n]] + rest.value.0, rest.value.1))
  }

  lemma FirstFrame(payload: seq<byte>, rest: seq<byte>)
    requires NEWLINE !in payload
    ensures var s := payload + [NEWLINE] + rest;
            Find(s) == Some(|payload|) && s[..|payload|] == payload && s[|payload| + 1..] == rest
  {
    var s := payload + [NEWLINE] + rest;
    assert s[..|payload|] == payload;
    FindIsFirst(s, |payload|);
  }

  /** Cutting one frame off the front. */
  lemma CutFirst(payload: seq<byte>, tail: seq<byte>, count: nat, payloads: seq<seq<byte>>, rest: seq<byte>)
    requires NEWLINE !in payload && Cut(tail, count) == Some((payloads, rest))
    ensures Cut(payload + [NEWLINE] + tail, count + 1) == Some(([payload] + payloads, rest))
  {
    FirstFrame(payload, tail);
  }

  lemma FramesUnfold(payloads: seq<seq<byte>>, rest: seq<byte>)
    requires payloads != []
    ensures Frames(payloads) + rest == payloads[0] + [NEWLINE] + (Frames(payloads[1..]) + rest)
  {
  }

  lemma FramableTail(payloads: seq<seq<byte>>, limit: nat)
    requires payloads != [] && Framable(payloads, limit)
    ensures NEWLINE !in payloads[0] && |payloads[0]| <= limit && Framable(payloads[1..], limit)
  {
  }

  lemma {:induction false} FramesRoundTrip(payloads: seq<seq<byte>>, limit: nat, rest: seq<byte>)
    requires Framable(payloads, limit)
    ensures Cut(Frames(payloads) + rest, |payloads|) == Some((payloads, rest))
    decreases |payloads|
  {
    if payloads == [] {
      assert Frames(payloads) + rest == rest;
    } else {
      FramableTail(payloads, limit);
      FramesRoundTrip(payloads[1..], limit, rest);
      CutFirst(payloads[0], Frames(payloads[1..]) + rest, |payloads[1..]|, payloads[1..], rest);
      FramesUnfold(payloads, rest);
      assert [payloads[0]] + payloads[1..] == payloads;
    }
  }

  // ---------------------------------------------------------------- receiving

  /** What the peer has sent or will send; empty means that it closes. */
  class Connection {
    var incoming: seq<byte>

    constructor (incoming: seq<byte>)
      ensures this.incoming == incoming
    {
      this.incoming := incoming;
    }

    /** Some of what is there, at most n bytes; nothing only at the end of the stream; or a timeout. */
    method Recv(n: nat) returns (chunk: Option<seq<byte>>)
      requires n > 0
      modifies this
      ensures chunk == None ==> incoming == old(incoming)
      ensures chunk.Some? ==> chunk.value + incoming == old(incoming) && |chunk.value| <= n
      ensures chunk == Some([]) ==> old(incoming) == []
    {
      var timeout: bool, size: int := *, *;
      if timeout { return None; }
      var most := if |incoming| < n then |incoming| else n;
      if most == 0 { return Some([]); }
      if size < 1 || size > most { size := most; }
      chunk := Some(incoming[..size]);
      assert incoming == incoming[..size] + incoming[size..];
      incoming := incoming[size..];
    }
  }

  class FramedSocket {
    const connection: Connection
    var buffer: seq<byte>

    constructor (connection: Connection)
      ensures this.connection == connection && Stream() == connection.incoming && buffer == []
    {
      this.connection, buffer := connection, [];
      new;
      assert buffer + connection.incoming == connection.incoming;
    }

    /** Everything not yet handed out, received or not. */
    ghost function Stream(): seq<byte>
      reads this, connection
    {
      buffer + connection.incoming
    }

    /**
     Hands out the bytes before the first newline, wherever the transport cut the stream.
     Unless it times out it succeeds exactly if that newline is at most limit bytes in; on
     an error no byte is lost; and it never holds more than limit + 1 bytes of its own accord.
     */
    method Receive(limit: nat) returns (r: Result<seq<byte>, FrameError>)
      modifies this, connection
      ensures r.Success? ==>
        && Receivable(old(Stream()), limit)
        && r.value == old(Stream())[..Find(old(Stream())).value]
        && Stream() == old(Stream())[Find(old(Stream())).value + 1..]
      ensures r.Failure? ==> Stream() == old(Stream())
      ensures r.Failure? && r.error != TimedOut ==>
        && !Receivable(old(Stream()), limit)
        && (r.error == Ended <==> |old(Stream())| <= limit && Find(old(Stream())) == None)
      ensures |buffer| <= limit + 1 || |buffer| <= |old(buffer)|
    {
      while true
        invariant Stream() == old(Stream())
        invariant |buffer| <= limit + 1 || buffer == old(buffer)
        decreases |connection.incoming|
      {
        var newline := Find(buffer);
        if newline.Some? {
          assert Stream()[..newline.value] == buffer[..newline.value];
          FindIsFirst(Stream(), newline.value);
          if newline.value > limit { return Failure(TooLong); }
          r := Success(buffer[..newline.value]);
          assert Stream()[newline.value + 1..] == buffer[newline.value + 1..] + connection.incoming;
          buffer := buffer[newline.value + 1..];
          return;
        }
        if |buffer| > limit {
          NotWithin(buffer, connection.incoming, limit);
          return Failure(TooLong);
        }
        var room := limit + 1 - |buffer|;
        var chunk := connection.Recv(if room < MAX_CHUNK then room else MAX_CHUNK);
        if chunk == None { return Failure(TimedOut); }
        if chunk.value == [] {
          assert Stream() == buffer;
          return Failure(Ended);
        }
        assert buffer + chunk.value + connection.incoming == old(Stream());
        buffer := buffer + chunk.value;
      }
    }

    /** One frame off a stream of frames. */
    method ReceiveNext(ghost payloads: seq<seq<byte>>, ghost rest: seq<byte>, limit: nat) returns (r: Result<seq<byte>, FrameError>)
      requires payloads != [] && Framable(payloads, limit) && Stream() == Frames(payloads) + rest
      modifies this, connection
      ensures r.Success? ==> r.value == payloads[0] && Framable(payloads[1..], limit) && Stream() == Frames(payloads[1..]) + rest
      ensures r.Failure? ==> r.error == TimedOut
    {
      FramableTail(payloads, limit);
      FramesUnfold(payloads, rest);
      FirstFrame(payloads[0], Frames(payloads[1..]) + rest);
      r := Receive(limit);
    }

    /** However the bytes arrive, count receives give the first count payloads, in order. */
    method ReceiveAll(ghost payloads: seq<seq<byte>>, ghost rest: seq<byte>, count: nat, limit: nat)
      returns (got: seq<seq<byte>>, timedOut: bool)
      requires Framable(payloads, limit) && |payloads| == count && Stream() == Frames(payloads) + rest
      modifies this, connection
      ensures got <= payloads
      ensures !timedOut ==> got == payloads && Stream() == rest
    {
      got := [];
      ghost var left := payloads;
      for i := 0 to count
        invariant |got| == i && |left| == count - i && payloads == got + left && Framable(left, limit)
        invariant Stream() == Frames(left) + rest
      {
        var r := ReceiveNext(left, rest, limit);
        if r.Failure? { return got, true; }
        got := got + [r.value];
        left := left[1..];
      }
      assert Frames(left) + rest == rest;
      timedOut := false;
    }
  }

  lemma NotWithin(a: seq<byte>, b: seq<byte>, limit: nat)
    requires NEWLINE !in a && |a| > limit
    ensures !Receivable(a + b, limit)
  {
    assert forall i :: 0 <= i < |a| ==> (a + b)[i] in a;
  }
}
