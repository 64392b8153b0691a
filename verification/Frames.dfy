/**
 Length-prefixed frames over a byte stream: encoding, reassembly under any chunking, and the
 write pump under any partial writes (src/protocol.ts:57-97, src/broker/server.ts:47-63).
 A payload is opaque bytes.
 */
module Frames {

  type Byte = x: int | 0 <= x < 256
  type Bytes = seq<Byte>

  const MAX_FRAME_BYTES := 8 * 1024 * 1024

  // ---- One frame -------------------------------------------------------------------------

  /** A 32-bit length, most significant byte first. */
  function Header(n: nat): (h: Bytes)
    requires n < 0x1_0000_0000
    ensures |h| == 4
  {
    [n / 0x100_0000, n / 0x1_0000 % 0x100, n / 0x100 % 0x100, n % 0x100]
  }

  function Length(b: Bytes): nat
    requires |b| >= 4
  {
    b[0] as int * 0x100_0000 + b[1] as int * 0x1_0000 + b[2] as int * 0x100 + b[3] as int
  }

  function Frame(payload: Bytes): Bytes
    requires |payload| <= MAX_FRAME_BYTES
  {
    Header(|payload|) + payload
  }

  lemma Digits(n: nat)
    ensures n / 0x1_0000 == n / 0x100 / 0x100 && n / 0x100_0000 == n / 0x1_0000 / 0x100
  {
  }

  lemma HeaderReadsBack(n: nat, rest: Bytes)
    requires n < 0x1_0000_0000
    ensures Length(Header(n) + rest) == n
  {
    Digits(n);
    var h := Header(n);
    var b := h + rest;
    assert b[0] == h[0] && b[1] == h[1] && b[2] == h[2] && b[3] == h[3];
  }

  lemma LengthOf(a: Bytes, b: Bytes)
    requires |a| >= 4 && |b| >= 4 && a[..4] == b[..4]
    ensures Length(a) == Length(b)
  {
    assert forall i :: 0 <= i < 4 ==> a[i] == a[..4][i] && b[i] == b[..4][i];
  }

  /** Encode one payload into a fresh buffer; an oversized one is refused. */
  method EncodeFrame(payload: Bytes) returns (ok: bool, out: array<Byte>)
    ensures ok <==> |payload| <= MAX_FRAME_BYTES
    ensures ok ==> fresh(out) && out[..] == Frame(payload)
  {
    if |payload| > MAX_FRAME_BYTES {
      out := new Byte[0];
      return false, out;
    }
    var n := |payload|;
    out := new Byte[4 + n];
    var header := Header(n);
    for i := 0 to 4
      invariant out[..i] == header[..i]
    {
      out[i] := header[i];
    }
    for i := 0 to n
      invariant out[..4 + i] == header + payload[..i]
    {
      out[4 + i] := payload[i];
    }
    assert payload[..n] == payload && out[..4 + n] == out[..];
    ok := true;
  }

  // ---- Reassembly ------------------------------------------------------------------------------

  /** What a buffer holds: its complete frames, the bytes left over, and whether a header is oversized. */
  datatype Parsed = Parsed(frames: seq<Bytes>, rest: Bytes, bad: bool)

  function Parse(b: Bytes): Parsed
    decreases |b|
  {
    if |b| < 4 then Parsed([], b, false)
    else if Length(b) > MAX_FRAME_BYTES then Parsed([], b, true)
    else if |b| < 4 + Length(b) then Parsed([], b, false)
    else
      var p := Parse(b[4 + Length(b)..]);
      p.(frames := [b[4..4 + Length(b)]] + p.frames)
  }

  /**
   Chunks do not matter: parsing a stream in two pieces, keeping what was left over, is
   parsing it in one; an oversized header stops the stream wherever it is cut.
   */
  lemma {:induction false} ParseAppend(a: Bytes, b: Bytes)
    ensures var p := Parse(a);
      Parse(a + b) == if p.bad then p.(rest := p.rest + b)
                      else var q := Parse(p.rest + b); q.(frames := p.frames + q.frames)
    decreases |a|, 1
  {
    hide Length;
    var q := Parse(Parse(a).rest + b);
    assert [] + q.frames == q.frames;
    if |a| >= 4 {
      assert (a + b)[..4] == a[..4];
      LengthOf(a + b, a);
      var n := Length(a);
      if n <= MAX_FRAME_BYTES && |a| >= 4 + n { ParseAppendWhole(a, b); }
    }
  }

  /** A whole frame at the front is decoded, and the rest after it. */
  lemma ParseFirst(a: Bytes, n: nat)
    requires |a| >= 4 && n == Length(a) <= MAX_FRAME_BYTES && |a| >= 4 + n
    ensures var p := Parse(a[4 + n..]); Parse(a) == p.(frames := [a[4..4 + n]] + p.frames)
  {
    hide Length;
  }

  lemma {:induction false} ParseAppendWhole(a: Bytes, b: Bytes)
    requires |a| >= 4 && Length(a + b) == Length(a) <= MAX_FRAME_BYTES && |a| >= 4 + Length(a)
    ensures var p := Parse(a);
      Parse(a + b) == if p.bad then p.(rest := p.rest + b)
                      else var q := Parse(p.rest + b); q.(frames := p.frames + q.frames)
    decreases |a|, 0
  {
    hide Length, Parse;
    var n := Length(a);
    var tail := a[4 + n..];
    var f := a[4..4 + n];
    assert (a + b)[4 + n..] == tail + b;
    assert (a + b)[4..4 + n] == f;
    ParseFirst(a, n);
    ParseFirst(a + b, n);
    ParseAppend(tail, b);
    var p := Parse(tail);
    assert !p.bad ==> [f] + (p.frames + Parse(p.rest + b).frames) == ([f] + p.frames) + Parse(p.rest + b).frames;
  }

  /** The stream of some payloads. */
  function Stream(payloads: seq<Bytes>): Bytes
    requires forall p :: p in payloads ==> |p| <= MAX_FRAME_BYTES
  {
    if payloads == [] then [] else Frame(payloads[0]) + Stream(payloads[1..])
  }

  lemma {:induction false} StreamConcat(a: seq<Bytes>, b: seq<Bytes>)
    requires forall p :: p in a + b ==> |p| <= MAX_FRAME_BYTES
    ensures (forall p :: p in a ==> |p| <= MAX_FRAME_BYTES) && (forall p :: p in b ==> |p| <= MAX_FRAME_BYTES)
    ensures Stream(a + b) == Stream(a) + Stream(b)
    decreases |a|
  {
    assert forall p :: p in a ==> p in a + b;
    assert forall p :: p in b ==> p in a + b;
    if a == [] {
      assert a + b == b;
    } else {
      assert (a + b)[1..] == a[1..] + b;
      assert forall p :: p in a[1..] + b ==> p in a + b;
      StreamConcat(a[1..], b);
      assert Frame(a[0]) + (Stream(a[1..]) + Stream(b)) == (Frame(a[0]) + Stream(a[1..])) + Stream(b);
    }
  }

  /** A stream starts with its first payload's header and bytes. */
  lemma StreamFirst(payloads: seq<Bytes>, got: Bytes)
    requires payloads != [] && forall p :: p in payloads ==> |p| <= MAX_FRAME_BYTES
    requires got <= Stream(payloads) && |got| >= 4
    ensures var n := |payloads[0]|;
      && Length(got) == n && |Stream(payloads)| == 4 + n + |Stream(payloads[1..])|
      && (|got| >= 4 + n ==> got[4..4 + n] == payloads[0] && got[4 + n..] <= Stream(payloads[1..]))
  {
    hide Length, Header, Stream;
    var n := |payloads[0]|;
    var rest := Stream(payloads[1..]);
    StreamCons(payloads);
    HeaderReadsBack(n, payloads[0] + rest);
    Slices(Header(n), payloads[0], rest, got);
    LengthOf(got, Header(n) + (payloads[0] + rest));
  }

  lemma StreamCons(payloads: seq<Bytes>)
    requires payloads != [] && forall p :: p in payloads ==> |p| <= MAX_FRAME_BYTES
    ensures |Header(|payloads[0]|)| == 4
    ensures Stream(payloads) == Header(|payloads[0]|) + (payloads[0] + Stream(payloads[1..]))
  {
    hide Header;
    assert Header(|payloads[0]|) + payloads[0] + Stream(payloads[1..])
        == Header(|payloads[0]|) + (payloads[0] + Stream(payloads[1..]));
  }

  /** What a prefix of three joined pieces holds, once it reaches into them. */
  lemma Slices(h: Bytes, b: Bytes, r: Bytes, got: Bytes)
    requires |h| == 4 <= |got| && got <= h + (b + r)
    ensures got[..4] == (h + (b + r))[..4]
    ensures |got| >= 4 + |b| ==> got[4..4 + |b|] == b && got[4 + |b|..] <= r
  {
    var all := h + (b + r);
    assert got == all[..|got|];
    if |got| >= 4 + |b| {
      assert all[4..4 + |b|] == b;
      assert got[4 + |b|..] == r[..|got| - 4 - |b|];
    }
  }

  /** However much of a stream has arrived, what is decoded is a prefix of what was sent; all of it, when all has. */
  lemma {:induction false} ParsePrefix(payloads: seq<Bytes>, got: Bytes)
    requires forall p :: p in payloads ==> |p| <= MAX_FRAME_BYTES
    requires got <= Stream(payloads)
    ensures !Parse(got).bad && Parse(got).frames <= payloads
    ensures |got| == |Stream(payloads)| ==> Parse(got).frames == payloads && Parse(got).rest == []
    decreases |payloads|
  {
    hide Length, Header;
    if payloads != [] && |got| >= 4 {
      var n := |payloads[0]|;
      StreamFirst(payloads, got);
      hide Stream;
      if |got| >= 4 + n {
        ParsePrefix(payloads[1..], got[4 + n..]);
        ParseFirst(got, n);
        hide Parse;
        assert payloads == [payloads[0]] + payloads[1..];
      }
    }
  }

  /** Reassembles frames from a byte stream. */
  class FrameDecoder {
    var buf: Bytes

    constructor ()
      ensures buf == []
    {
      buf := [];
    }

    /** Feed some bytes; get the frames now complete, unless an oversized header poisons the stream. */
    method Push(chunk: Bytes) returns (ok: bool, frames: seq<Bytes>)
      modifies this
      ensures var p := Parse(old(buf) + chunk);
        buf == p.rest && ok == !p.bad && (ok ==> frames == p.frames)
    {
      buf := buf + chunk;
      ghost var whole := buf;
      frames := [];
      while |buf| >= 4
        invariant Parse(whole) == Parsed(frames + Parse(buf).frames, Parse(buf).rest, Parse(buf).bad)
        decreases |buf|
      {
        var len := Length(buf);
        if len > MAX_FRAME_BYTES { return false, []; }
        if |buf| < 4 + len { break; }
        frames := frames + [buf[4..4 + len]];
        buf := buf[4 + len..];
      }
      assert Parse(buf) == Parsed([], buf, false);
      ok := true;
    }
  }

  // ---- The write pump -------------------------------------------------------------------------

  /** A socket: how many bytes it will take at each write (negative when closing), and what it took. */
  class Socket {
    var script: seq<int>
    var sent: Bytes

    constructor (script: seq<int>)
      ensures this.script == script && sent == []
    {
      this.script, sent := script, [];
    }

    predicate Closing()
      reads this
    {
      script != [] && script[0] < 0
    }

    /** Accept some prefix of the data, or nothing more ever. */
    method Write(data: Bytes) returns (n: int)
      modifies this
      ensures n == Offered(old(script), |data|) && n <= |data|
      ensures script == AfterWrite(old(script))
      ensures sent == old(sent) + if n < 0 then [] else data[..n]
    {
      n := Offered(script, |data|);
      if n >= 0 { sent := sent + data[..n]; }
      script := AfterWrite(script);
    }
  }

  /** What a write is offered: -1 from a closing socket, else at most what is left to send. */
  function Offered(script: seq<int>, length: nat): (n: int)
    ensures n <= length
  {
    if script == [] then 0
    else if script[0] < 0 then -1
    else if script[0] < length then script[0] else length
  }

  /** A closing socket stays closing. */
  function AfterWrite(script: seq<int>): seq<int> {
    if script == [] || script[0] < 0 then script else script[1..]
  }

  function Flat(outbox: seq<Bytes>): Bytes {
    if outbox == [] then [] else outbox[0] + Flat(outbox[1..])
  }

  lemma {:induction false} FlatSnoc(outbox: seq<Bytes>, frame: Bytes)
    ensures Flat(outbox + [frame]) == Flat(outbox) + frame
    decreases |outbox|
  {
    if outbox == [] {
      assert [frame][1..] == [];
    } else {
      assert (outbox + [frame])[1..] == outbox[1..] + [frame];
      FlatSnoc(outbox[1..], frame);
    }
  }

  /** One connection's unsent frames. */
  class Connection {
    const socket: Socket
    var outbox: seq<Bytes>

    constructor (socket: Socket)
      ensures this.socket == socket && outbox == []
    {
      this.socket, outbox := socket, [];
    }

    /** Send until the socket pushes back, keeping the unsent tail. */
    method Pump() returns (dropped: bool)
      modifies this, socket
      ensures old(socket.sent) <= socket.sent
      ensures Pumped(old(outbox), old(socket.Closing()), socket.sent[old(|socket.sent|)..], outbox, dropped)
      ensures dropped || old(socket.Closing()) ==> socket.Closing()
    {
      ghost var was, total := socket.sent, Flat(outbox);
      ghost var shut := socket.Closing();
      hide Flat;
      while outbox != []
        invariant socket.sent + Flat(outbox) == was + total && was <= socket.sent
        invariant shut ==> socket.Closing() && socket.sent == was
        decreases |outbox|
      {
        var head := outbox[0];
        var rest := outbox[1..];
        FlatFirst(outbox);
        ghost var before := socket.sent;
        var n := socket.Write(head);
        if n < 0 {
          Leftover(was, socket.sent, Flat(outbox), total);
          outbox := [];
          FlatNone();
          return true;
        }
        Split(before, head, n, Flat(rest));
        if n >= |head| {
          assert head[n..] == [];
          outbox := rest;
        } else {
          outbox := [head[n..]] + rest;
          FlatFirst(outbox);
          Leftover(was, socket.sent, Flat(outbox), total);
          return false;
        }
      }
      Leftover(was, socket.sent, Flat(outbox), total);
      dropped := false;
    }

    /** The client's pump: one write at a time, resumed when the socket drains. */
    method PumpOnce() returns (failed: bool)
      requires |outbox| <= 1
      modifies this, socket
      ensures |outbox| <= 1 && old(socket.sent) <= socket.sent
      ensures failed ==> outbox == old(outbox) && socket.sent == old(socket.sent)
      ensures !failed ==> socket.sent + Flat(outbox) == old(socket.sent + Flat(outbox))
    {
      if outbox == [] { return false; }
      var head := outbox[0];
      assert outbox == [head] && Flat([head]) == head + Flat([]);
      var n := socket.Write(head);
      if n < 0 { return true; }
      assert head == head[..n] + head[n..];
      outbox := if n == |head| then [] else [head[n..]];
      assert n < |head| ==> outbox[1..] == [];
      failed := false;
    }
  }

  /**
   What a pump may do with a queue: bytes taken and bytes left are the bytes there were, in
   order; or the socket is closing, the rest is dropped, and what was taken is a prefix of
   what was due.  A socket that was closing takes nothing.
   */
  predicate Pumped(outbox: seq<Bytes>, closing: bool, taken: Bytes, left: seq<Bytes>, dropped: bool) {
    && (if dropped then left == [] && taken <= Flat(outbox) else taken + Flat(left) == Flat(outbox))
    && (closing ==> taken == [])
  }

  lemma FlatNone()
    ensures Flat([]) == []
  {
  }

  lemma FlatFirst(outbox: seq<Bytes>)
    requires outbox != []
    ensures Flat(outbox) == outbox[0] + Flat(outbox[1..])
    ensures forall b: Bytes, rest :: outbox == [b] + rest ==> Flat(outbox) == b + Flat(rest)
  {
    forall b: Bytes, rest | outbox == [b] + rest ensures Flat(outbox) == b + Flat(rest) { assert outbox[1..] == rest; }
  }

  /** Bytes written move from what waits to what is sent. */
  lemma Split(sent: Bytes, head: Bytes, n: nat, rest: Bytes)
    requires n <= |head|
    ensures sent + head[..n] + (head[n..] + rest) == sent + (head + rest)
    ensures n == |head| ==> sent + head[..n] + rest == sent + (head + rest)
  {
    assert head == head[..n] + head[n..];
  }

  /** What this pump has sent, and what it leaves, make up what there was. */
  lemma Leftover(was: Bytes, sent: Bytes, rest: Bytes, total: Bytes)
    requires was <= sent && sent + rest == was + total
    ensures sent[|was|..] + rest == total && sent[|was|..] <= total
  {
    assert (sent + rest)[|was|..] == sent[|was|..] + rest;
    assert (was + total)[|was|..] == total;
  }
}
