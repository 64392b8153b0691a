/**
 A whole connection: frames queued at one end, pumped through a socket that takes what it
 likes, arriving at the other end in whatever chunks, in any interleaving.
 */
module Wire {
  import opened Frames

  /** Everything about one direction of a connection. */
  datatype Link = Link(
    queued: seq<Bytes>,    // payloads accepted for sending, ever
    outbox: seq<Bytes>,    // unsent frames, the first perhaps in part
    wire: Bytes,           // taken by the socket, not yet read
    dropped: bool,         // a write failed and the queue was dropped
    read: Bytes,           // bytes the reader has been fed, ever
    buf: Bytes,            // the reader's partial frame
    got: seq<Bytes>,       // payloads decoded, ever
    bad: bool)             // the reader saw an oversized header

  const IDLE := Link([], [], [], false, [], [], [], false)

  datatype Action =
    | Queue(payload: Bytes)
    | Pump(taken: Bytes, left: seq<Bytes>, dropped: bool)
    | Receive(size: nat)

  /** A pump does what the write pump's contract allows; a read takes what has arrived. */
  predicate Can(l: Link, a: Action) {
    match a
    case Queue(_) => true
    case Pump(taken, left, dropped) => Pumped(l.outbox, l.dropped, taken, left, dropped)
    case Receive(size) => size <= |l.wire| && !l.bad
  }

  function Do(l: Link, a: Action): Link
    requires Can(l, a)
  {
    match a
    case Queue(payload) =>
      if |payload| > MAX_FRAME_BYTES then l
      else l.(queued := l.queued + [payload], outbox := l.outbox + [Frame(payload)])
    case Pump(taken, left, dropped) =>
      l.(outbox := left, wire := l.wire + taken, dropped := l.dropped || dropped)
    case Receive(size) =>
      var p := Parse(l.buf + l.wire[..size]);
      l.(wire := l.wire[size..], read := l.read + l.wire[..size], buf := p.rest, got := l.got + p.frames, bad := p.bad)
  }

  predicate Possible(l: Link, acts: seq<Action>)
    decreases |acts|
  {
    acts == [] || (Can(l, acts[0]) && Possible(Do(l, acts[0]), acts[1..]))
  }

  function Run(l: Link, acts: seq<Action>): Link
    requires Possible(l, acts)
    decreases |acts|
  {
    if acts == [] then l else Run(Do(l, acts[0]), acts[1..])
  }

  // ---- The invariant -------------------------------------------------------------------------

  predicate Small(payloads: seq<Bytes>) { forall p :: p in payloads ==> |p| <= MAX_FRAME_BYTES }

  /** Every byte is somewhere: read, on the wire, or still queued, in order. */
  predicate Conserved(l: Link)
    requires Small(l.queued)
  {
    if l.dropped then l.read + l.wire <= Stream(l.queued)
    else l.read + l.wire + Flat(l.outbox) == Stream(l.queued)
  }

  /** The reader has decoded exactly what its bytes say. */
  predicate Decoded(l: Link) {
    l.got == Parse(l.read).frames && l.buf == Parse(l.read).rest && !l.bad && !Parse(l.read).bad
  }

  predicate LinkInv(l: Link) { Small(l.queued) && Conserved(l) && Decoded(l) }

  lemma QueueKeeps(l: Link, payload: Bytes)
    requires LinkInv(l)
    ensures LinkInv(Do(l, Queue(payload)))
  {
    if |payload| <= MAX_FRAME_BYTES {
      QueuedStream(l.queued, payload);
      FlatSnoc(l.outbox, Frame(payload));
      hide Stream, Parse, Frame, Flat;
      QueueConserves(l.read + l.wire, Flat(l.outbox), Frame(payload), Stream(l.queued), l.dropped);
    }
  }

  lemma QueuedStream(queued: seq<Bytes>, payload: Bytes)
    requires Small(queued) && |payload| <= MAX_FRAME_BYTES
    ensures Small(queued + [payload]) && Stream(queued + [payload]) == Stream(queued) + Frame(payload)
  {
    StreamConcat(queued, [payload]);
    assert [payload][1..] == [];
    assert Frame(payload) + [] == Frame(payload);
    hide Frame;
  }

  /** Bytes sent and bytes waiting, when one more frame joins both the queue and the stream. */
  lemma QueueConserves(sent: Bytes, waiting: Bytes, more: Bytes, all: Bytes, dropped: bool)
    requires if dropped then sent <= all else sent + waiting == all
    ensures if dropped then sent <= all + more else sent + (waiting + more) == all + more
  {
  }

  lemma PumpKeeps(l: Link, taken: Bytes, left: seq<Bytes>, dropped: bool)
    requires LinkInv(l) && Can(l, Pump(taken, left, dropped))
    ensures LinkInv(Do(l, Pump(taken, left, dropped)))
  {
    hide Stream, Parse, Frame, Flat;
    if l.dropped {
      assert l.wire + taken == l.wire;
    } else {
      assert l.read + (l.wire + taken) == l.read + l.wire + taken;
      if dropped {
        assert l.read + l.wire + taken <= l.read + l.wire + Flat(l.outbox);
      } else {
        assert l.read + l.wire + taken + Flat(left) == l.read + l.wire + (taken + Flat(left));
      }
    }
  }

  lemma ReceiveKeeps(l: Link, size: nat)
    requires LinkInv(l) && Can(l, Receive(size))
    ensures LinkInv(Do(l, Receive(size)))
  {
    var m := Do(l, Receive(size));
    var chunk := l.wire[..size];
    assert l.wire == chunk + l.wire[size..];
    assert m.read + m.wire == l.read + l.wire;
    ParseAppend(l.read, chunk);
    ParsePrefix(l.queued, m.read);
  }

  /**
   The wire is faithful.  Whatever is queued, however the socket takes it and however it
   arrives: no byte is lost, repeated or reordered; what has been decoded is always a prefix
   of what was queued; and once the queue is empty, nothing was dropped and every byte has
   been read, it is all of it.
   */
  lemma {:induction false} WireIsFaithful(l: Link, acts: seq<Action>)
    requires LinkInv(l) && Possible(l, acts)
    ensures var m := Run(l, acts);
      && LinkInv(m) && m.got <= m.queued
      && (!m.dropped && m.outbox == [] && m.wire == [] ==> m.got == m.queued)
    decreases |acts|
  {
    if acts == [] {
      ParsePrefix(l.queued, l.read);
      assert l.read + l.wire + [] == l.read + l.wire;
      assert l.read + [] == l.read;
    } else {
      match acts[0] {
        case Queue(payload) => QueueKeeps(l, payload);
        case Pump(taken, left, dropped) => PumpKeeps(l, taken, left, dropped);
        case Receive(size) => ReceiveKeeps(l, size);
      }
      WireIsFaithful(Do(l, acts[0]), acts[1..]);
    }
  }

  lemma IdleHolds()
    ensures LinkInv(IDLE)
  {
  }

  /** So it is from the moment a connection is opened, whatever is done on it. */
  lemma FreshConnection(acts: seq<Action>)
    requires Possible(IDLE, acts)
    ensures var m := Run(IDLE, acts);
      && Small(m.queued) && !m.bad && m.got <= m.queued
      && (!m.dropped ==> m.read + m.wire + Flat(m.outbox) == Stream(m.queued))
      && (!m.dropped && m.outbox == [] && m.wire == [] ==> m.got == m.queued)
  {
    IdleHolds();
    hide LinkInv, Conserved, Decoded;
    WireIsFaithful(IDLE, acts);
    FaithfulMeans(Run(IDLE, acts));
  }

  lemma FaithfulMeans(l: Link)
    requires LinkInv(l)
    ensures Small(l.queued) && !l.bad && (!l.dropped ==> l.read + l.wire + Flat(l.outbox) == Stream(l.queued))
  {
  }
}
