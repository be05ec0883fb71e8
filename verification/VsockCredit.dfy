/**
 * Transmit credit of a virtio-vsock stream (section 5.10.6.3 of the Virtio 1.1 specification, Buffer
 * Space Management). The counters on the wire are 32-bit and wrap; the free space is computed with the
 * absolute difference of the two counters rather than with wrapping subtraction.
 */
module VsockCredit {
  import opened Basics

  const WRAP: nat := 0x1_0000_0000
  const HALF: nat := 0x8000_0000

  type U32 = x: nat | x <= U32_MAX
  type Byte = x: nat | x < 256

  datatype State = Listen | ReceiveRequest | Connected | Connecting | Shutdown

  datatype Op = OpRequest | OpResponse | OpRw | OpCreditUpdate | OpShutdown | OpOther

  datatype Header = Header(op: Op, stream: bool, srcCid: U32, srcPort: U32, bufAlloc: U32, fwdCnt: U32)

  datatype Socket = Socket(state: State, remoteCid: U32, remotePort: U32, fwdCnt: U32, peerFwdCnt: U32,
                           peerBufAlloc: U32, txCnt: U32, buffer: seq<Byte>)

  function AbsDiff(a: nat, b: nat): nat {
    if a >= b then a - b else b - a
  }

  function WrappingAdd(a: nat, b: nat): (r: U32) {
    (a + b) % WRAP
  }

  // ---- Operations on one socket ----

  /** The effect of a received packet. */
  function Receive(s: Socket, h: Header, data: seq<Byte>): Socket {
    if h.op.OpRequest? && s.state.Listen? && h.stream then
      s.(state := ReceiveRequest, remoteCid := h.srcCid, remotePort := h.srcPort, peerBufAlloc := h.bufAlloc)
    else if (s.state.Connected? || s.state.Shutdown?) && h.stream && h.op.OpRw? then
      if s.remoteCid == h.srcCid
      then s.(buffer := s.buffer + data, fwdCnt := WrappingAdd(s.fwdCnt, |data|), peerFwdCnt := h.fwdCnt)
      else s
    else if h.op.OpCreditUpdate? then
      if s.remoteCid == h.srcCid then s.(peerFwdCnt := h.fwdCnt) else s
    else if h.op.OpShutdown? then
      if s.remoteCid == h.srcCid then s.(state := Shutdown) else s
    else if h.op.OpResponse? && h.stream then
      if s.remoteCid == h.srcCid && s.state.Connecting?
      then s.(state := Connected, peerBufAlloc := h.bufAlloc, peerFwdCnt := h.fwdCnt)
      else s
    else s
  }

  datatype WriteResult = Sent(n: nat) | WouldBlock | IoError

  /** How many bytes a write of `len` bytes transmits, or why it transmits none. */
  function Write(s: Socket, len: nat): (Socket, WriteResult) {
    var diff := AbsDiff(s.txCnt, s.peerFwdCnt);
    if !s.state.Connected? then (s, IoError)
    else if diff >= s.peerBufAlloc then (s, WouldBlock)
    else
      var n := if len < s.peerBufAlloc - diff then len else s.peerBufAlloc - diff;
      (s.(txCnt := WrappingAdd(s.txCnt, n)), Sent(n))
  }

  /** `accept` answers a pending request and connects. */
  function Accept(s: Socket): Socket {
    if s.state.ReceiveRequest? then s.(state := Connected) else s
  }

  /** Does this packet carry a forward count the socket adopts? */
  predicate Adopts(s: Socket, h: Header) {
    && s.remoteCid == h.srcCid
    && !(h.op.OpRequest? && s.state.Listen? && h.stream)
    && (((s.state.Connected? || s.state.Shutdown?) && h.stream && h.op.OpRw?)
        || h.op.OpCreditUpdate?
        || (h.op.OpResponse? && h.stream && s.state.Connecting?))
  }

  /** Does this packet open the stream, and with it announce the peer's buffer? */
  predicate Opens(s: Socket, h: Header) {
    && h.stream
    && ((h.op.OpRequest? && s.state.Listen?)
        || (h.op.OpResponse? && s.state.Connecting? && s.remoteCid == h.srcCid))
  }

  /**
   * What a packet may do to the credit: only the packet that opens the stream sets the buffer size, only
   * packets of the peer move its forward count, and none touches the count of bytes sent.
   */
  predicate CreditAfter(s: Socket, h: Header, s': Socket) {
    && s'.txCnt == s.txCnt
    && s'.peerBufAlloc == (if Opens(s, h) then h.bufAlloc else s.peerBufAlloc)
    && s'.peerFwdCnt == (if Adopts(s, h) then h.fwdCnt else s.peerFwdCnt)
    && (s'.state.Connected? && !s.state.Connected? ==> Opens(s, h))
    && (h.srcCid != s.remoteCid && !Opens(s, h) ==> s' == s)
  }

  /** A request to a listening socket makes its sender the peer; no other packet changes the peer. */
  predicate AddressAfter(s: Socket, h: Header, s': Socket) {
    if h.op == OpRequest && h.stream && s.state == Listen
    then s'.remoteCid == h.srcCid && s'.remotePort == h.srcPort
    else s'.remoteCid == s.remoteCid && s'.remotePort == s.remotePort
  }

  /**
   * A request is noted, the answer to a call connects, and a shutdown of the peer ends the stream in whatever
   * state it is. No other packet changes the state.
   */
  predicate StateAfter(s: Socket, h: Header, s': Socket) {
    && (h.op == OpRequest && h.stream && s.state == Listen ==> s'.state == ReceiveRequest)
    && (h.op == OpResponse && h.stream && h.srcCid == s.remoteCid && s.state == Connecting ==> s'.state == Connected)
    && (h.op == OpShutdown && h.srcCid == s.remoteCid ==> s'.state == Shutdown)
    && (s'.state != s.state ==>
          || (h.op == OpRequest && h.stream && s.state == Listen)
          || (h.op == OpResponse && h.stream && h.srcCid == s.remoteCid && s.state == Connecting)
          || (h.op == OpShutdown && h.srcCid == s.remoteCid))
  }

  /** Is the payload of this packet for the reader? Also after a shutdown. */
  predicate Takes(s: Socket, h: Header) {
    (s.state == Connected || s.state == Shutdown) && h.stream && h.op == OpRw && h.srcCid == s.remoteCid
  }

  datatype AcceptResult = Accepted(cid: U32, port: U32) | Again | BadFile

  class RawSocket {
    var state: State
    var remoteCid: U32
    var remotePort: U32
    var fwdCnt: U32
    var peerFwdCnt: U32
    var peerBufAlloc: U32
    var txCnt: U32
    var buffer: seq<Byte>

    function View(): Socket
      reads this
    {
      Socket(state, remoteCid, remotePort, fwdCnt, peerFwdCnt, peerBufAlloc, txCnt, buffer)
    }

    constructor (state: State, remoteCid: U32, remotePort: U32)
      ensures View() == Socket(state, remoteCid, remotePort, 0, 0, 0, 0, [])
    {
      this.state := state;
      this.remoteCid := remoteCid;
      this.remotePort := remotePort;
      fwdCnt, peerFwdCnt, peerBufAlloc, txCnt, buffer := 0, 0, 0, 0, [];
    }

    method HandlePacket(h: Header, data: seq<Byte>)
      modifies this
      ensures View() == Receive(old(View()), h, data)
      ensures CreditAfter(old(View()), h, View())
      ensures AddressAfter(old(View()), h, View()) && StateAfter(old(View()), h, View())
      ensures buffer == old(buffer) + if old(Takes(View(), h)) then data else []
      ensures fwdCnt == (old(fwdCnt) + |buffer| - |old(buffer)|) % WRAP
    {
      if h.op.OpRequest? && state.Listen? && h.stream {
        state := ReceiveRequest;
        remoteCid := h.srcCid;
        remotePort := h.srcPort;
        peerBufAlloc := h.bufAlloc;
      } else if (state.Connected? || state.Shutdown?) && h.stream && h.op.OpRw? {
        if remoteCid == h.srcCid {
          buffer := buffer + data;
          fwdCnt := WrappingAdd(fwdCnt, |data|);
          peerFwdCnt := h.fwdCnt;
        }
      } else if h.op.OpCreditUpdate? {
        if remoteCid == h.srcCid { peerFwdCnt := h.fwdCnt; }
      } else if h.op.OpShutdown? {
        if remoteCid == h.srcCid { state := Shutdown; }
      } else if h.op.OpResponse? && h.stream {
        if remoteCid == h.srcCid && state.Connecting? {
          state := Connected;
          peerBufAlloc := h.bufAlloc;
          peerFwdCnt := h.fwdCnt;
        }
      }
    }

    method WriteBytes(len: nat) returns (r: WriteResult)
      modifies this
      ensures (View(), r) == Write(old(View()), len)
      ensures r.IoError? <==> !old(state).Connected?
      ensures r.WouldBlock? <==>
        && old(state).Connected?
        && (old(txCnt) - old(peerFwdCnt) >= old(peerBufAlloc) || old(peerFwdCnt) - old(txCnt) >= old(peerBufAlloc))
      ensures r.Sent? ==> r.n <= len && View() == old(View()).(txCnt := (old(txCnt) + r.n) % WRAP)
      ensures !r.Sent? ==> View() == old(View())
    {
      var diff := AbsDiff(txCnt, peerFwdCnt);
      if !state.Connected? { return IoError; }
      if diff >= peerBufAlloc { return WouldBlock; }
      var n := if len < peerBufAlloc - diff then len else peerBufAlloc - diff;
      txCnt := WrappingAdd(txCnt, n);
      r := Sent(n);
    }

    /**
     * Whether `poll` reports the stream writable. A connected one is reported exactly when a write would
     * transmit, one that was shut down or not yet accepted always, and one still to be connected never.
     */
    method PollOut() returns (writable: bool)
      ensures state.Connected? ==>
        (writable <==> forall len: nat :: len > 0 ==> Write(View(), len).1.Sent? && Write(View(), len).1.n > 0)
      ensures !state.Connected? ==> (writable <==> state.Shutdown? || state.ReceiveRequest?)
    {
      match state {
        case Shutdown => writable := true;
        case ReceiveRequest => writable := true;
        case Listen => writable := false;
        case Connecting => writable := false;
        case Connected =>
          writable := AbsDiff(txCnt, peerFwdCnt) < peerBufAlloc;
          assert Write(View(), 1).1.Sent? <==> writable;
      }
    }

    /** Connects exactly if a request is pending, and returns its sender. */
    method AcceptRequest() returns (r: AcceptResult)
      modifies this`state
      ensures r.Accepted? <==> old(state).ReceiveRequest?
      ensures r.Accepted? ==> r == Accepted(remoteCid, remotePort)
      ensures r.Again? <==> old(state).Listen?
      ensures View() == Accept(old(View()))
      ensures state == if r.Accepted? then Connected else old(state)
    {
      match state {
        case Listen => r := Again;
        case ReceiveRequest =>
          state := Connected;
          r := Accepted(remoteCid, remotePort);
        case _ => r := BadFile;
      }
    }
  }

  // ---- Runs against an honest peer ----

  datatype Event =
    | Transmit(len: nat)
    | Packet(h: Header, data: seq<Byte>, consumed: nat)
    | AcceptCall

  /**
   * A stream with its unbounded totals: the bytes transmitted, the bytes the peer has consumed, and
   * the part of those the socket has been told about.
   */
  datatype Stream = Stream(sock: Socket, sent: nat, consumed: nat, known: nat)

  function Fresh(state: State, cid: U32, port: U32): Stream {
    Stream(Socket(state, cid, port, 0, 0, 0, 0, []), 0, 0, 0)
  }

  /** A peer announces, modulo 2^32, a total that never decreases and never exceeds what was sent. */
  predicate Honest(c: Stream, e: Event) {
    e.Packet? ==>
      && c.consumed <= e.consumed <= c.sent
      && (e.h.srcCid == c.sock.remoteCid ==> e.h.fwdCnt == e.consumed % WRAP)
  }

  function Step(c: Stream, e: Event): Stream {
    match e
    case Transmit(len) =>
      var (s, r) := Write(c.sock, len);
      c.(sock := s, sent := if r.Sent? then c.sent + r.n else c.sent)
    case Packet(h, data, consumed) =>
      c.(sock := Receive(c.sock, h, data), consumed := consumed,
         known := if Adopts(c.sock, h) then consumed else c.known)
    case AcceptCall => c.(sock := Accept(c.sock))
  }

  function Run(c: Stream, es: seq<Event>): Stream
    decreases |es|
  {
    if es == [] then c else Run(Step(c, es[0]), es[1..])
  }

  predicate HonestRun(c: Stream, es: seq<Event>)
    decreases |es|
  {
    es == [] || (Honest(c, es[0]) && HonestRun(Step(c, es[0]), es[1..]))
  }

  /** Every buffer size the peer announces during the run satisfies the bound. */
  predicate AnnouncesAtMost(es: seq<Event>, bound: nat) {
    forall i :: 0 <= i < |es| && es[i].Packet? ==> es[i].h.bufAlloc <= bound
  }

  predicate AnnouncesExactly(es: seq<Event>, b: nat) {
    forall i :: 0 <= i < |es| && es[i].Packet? ==> es[i].h.bufAlloc == b
  }

  /** The bytes in flight fit into the peer's buffer. */
  predicate Safe(c: Stream) {
    c.sent - c.consumed <= c.sock.peerBufAlloc
  }

  ghost predicate Inv(c: Stream) {
    && c.sock.txCnt == c.sent % WRAP
    && c.sock.peerFwdCnt == c.known % WRAP
    && c.known <= c.consumed <= c.sent
    && c.sent - c.known <= c.sock.peerBufAlloc <= HALF
    && (c.sock.state.Listen? || c.sock.state.ReceiveRequest? || c.sock.state.Connecting? ==> c.sent == 0)
  }

  /** Below 2^31 the absolute difference is the distance unless the counters straddle a wrap. */
  lemma DifferenceOfCounters(sent: nat, known: nat)
    requires known <= sent && sent - known <= HALF
    ensures sent / WRAP == known / WRAP ==> AbsDiff(sent % WRAP, known % WRAP) == sent - known
    ensures sent / WRAP != known / WRAP ==> AbsDiff(sent % WRAP, known % WRAP) == WRAP - (sent - known)
  {
    assert sent / WRAP == known / WRAP || sent / WRAP == known / WRAP + 1;
  }

  /** Exactly when the writer may transmit: there is credit and no wrap lies between the counters. */
  lemma WritableIff(c: Stream, len: nat)
    requires Inv(c) && c.sock.state.Connected?
    ensures Write(c.sock, len).1.Sent? <==>
      c.sent - c.known < c.sock.peerBufAlloc && c.sent / WRAP == c.known / WRAP
    ensures Write(c.sock, len).1.Sent? ==>
      Write(c.sock, len).1.n == if len < c.sock.peerBufAlloc - (c.sent - c.known)
                                then len else c.sock.peerBufAlloc - (c.sent - c.known)
  {
    DifferenceOfCounters(c.sent, c.known);
  }

  lemma WrapOfSum(total: nat, n: nat)
    ensures WrappingAdd(total % WRAP, n) == (total + n) % WRAP
  {}

  lemma TransmitKeepsInv(c: Stream, len: nat)
    requires Inv(c)
    ensures Inv(Step(c, Transmit(len)))
  {
    if c.sock.state.Connected? {
      WritableIff(c, len);
      WrapOfSum(c.sent, Step(c, Transmit(len)).sent - c.sent);
    }
  }

  lemma StepKeepsInv(c: Stream, e: Event)
    requires Inv(c) && Honest(c, e)
    requires e.Packet? ==> e.h.bufAlloc <= HALF
    ensures Inv(Step(c, e))
  {
    if e.Transmit? { TransmitKeepsInv(c, e.len); }
  }

  lemma {:induction false} RunKeepsInv(c: Stream, es: seq<Event>)
    requires Inv(c) && HonestRun(c, es) && AnnouncesAtMost(es, HALF)
    ensures Inv(Run(c, es))
    decreases |es|
  {
    if es != [] {
      StepKeepsInv(c, es[0]);
      assert forall i :: 0 <= i < |es[1..]| ==> es[1..][i] == es[i + 1];
      RunKeepsInv(Step(c, es[0]), es[1..]);
    }
  }

  /** Against a peer with a buffer of at most 2^31 bytes no run overruns that buffer. */
  lemma CreditIsNeverExceeded(state: State, cid: U32, port: U32, es: seq<Event>)
    requires state.Listen? || state.Connecting?
    requires HonestRun(Fresh(state, cid, port), es) && AnnouncesAtMost(es, HALF)
    ensures Safe(Run(Fresh(state, cid, port), es))
  {
    RunKeepsInv(Fresh(state, cid, port), es);
  }

  // ---- Every buffer size ----

  /** The counters on the wire are the totals modulo 2^32, whatever the buffer size. */
  ghost predicate Exact(c: Stream) {
    && c.sock.txCnt == c.sent % WRAP
    && c.sock.peerFwdCnt == c.known % WRAP
    && c.known <= c.consumed <= c.sent
  }

  lemma StepKeepsExact(c: Stream, e: Event)
    requires Exact(c) && Honest(c, e)
    ensures Exact(Step(c, e))
  {
    if e.Transmit? { WrapOfSum(c.sent, Step(c, e).sent - c.sent); }
  }

  lemma {:induction false} RunKeepsExact(c: Stream, es: seq<Event>)
    requires Exact(c) && HonestRun(c, es)
    ensures Exact(Run(c, es))
    decreases |es|
  {
    if es != [] {
      StepKeepsExact(c, es[0]);
      RunKeepsExact(Step(c, es[0]), es[1..]);
    }
  }

  /**
   * In every run, for every buffer size, a peer that has consumed and reported everything does not leave the
   * writer blocked.
   */
  lemma DrainedPeerUnblocks(state: State, cid: U32, port: U32, es: seq<Event>, len: nat)
    requires HonestRun(Fresh(state, cid, port), es)
    ensures var c := Run(Fresh(state, cid, port), es);
      c.sock.state.Connected? && c.sock.peerBufAlloc > 0 && c.known == c.sent ==>
        Write(c.sock, len).1 == Sent(if len < c.sock.peerBufAlloc then len else c.sock.peerBufAlloc)
  {
    RunKeepsExact(Fresh(state, cid, port), es);
  }

  /** Every run of a connection whose peer announces a buffer of `b` bytes is safe. */
  ghost predicate SafeFor(state: State, b: U32) {
    forall cid: U32, port: U32, es: seq<Event> ::
      HonestRun(Fresh(state, cid, port), es) && AnnouncesExactly(es, b) ==> Safe(Run(Fresh(state, cid, port), es))
  }

  /** The peer as it is seen on the wire. */
  datatype Peer = Peer(cid: U32, port: U32)

  /** A fresh stream that waits for anyone to call, or has called the peer. */
  predicate Awaits(c: Stream, p: Peer) {
    || (exists cid: U32, port: U32 :: c == Fresh(Listen, cid, port))
    || c == Fresh(Connecting, p.cid, p.port)
  }

  /** How a stream gets connected to `p`, as the one that calls or the one that is called. */
  function Opening(state: State, p: Peer, b: U32): seq<Event> {
    if state.Listen? then [Packet(Header(OpRequest, true, p.cid, p.port, b, 0), [], 0)] + [AcceptCall]
    else [Packet(Header(OpResponse, true, p.cid, p.port, b, 0), [], 0)]
  }

  /** Sends past the wrap with more than 2^31 bytes outstanding, then once more. */
  function Overrun(p: Peer, b: U32): seq<Event> {
    [Transmit(HALF)] + ([Packet(Header(OpCreditUpdate, true, p.cid, p.port, b, HALF), [], HALF)]
                        + ([Transmit(HALF)] + ([Transmit(1)] + ([Transmit(b)] + []))))
  }

  /** A stream connected to `p` with an empty receive side. */
  function Mid(p: Peer, b: U32, tx: U32, fwd: U32, sent: nat): Stream {
    Stream(Socket(Connected, p.cid, p.port, 0, fwd, b, tx, []), sent, fwd, fwd)
  }

  lemma RunCons(c: Stream, e: Event, es: seq<Event>)
    ensures Run(c, [e] + es) == Run(Step(c, e), es)
    ensures HonestRun(c, [e] + es) <==> Honest(c, e) && HonestRun(Step(c, e), es)
  {
    assert ([e] + es)[1..] == es;
  }

  /** The tail of the overrun: from 2^31 bytes consumed to more bytes in flight than the peer can hold. */
  lemma OverrunTail(p: Peer, b: U32)
    requires b > HALF
    ensures var es := [Transmit(HALF)] + ([Transmit(1)] + ([Transmit(b)] + []));
      && HonestRun(Mid(p, b, HALF, HALF, HALF), es)
      && Run(Mid(p, b, HALF, HALF, HALF), es) == Mid(p, b, 2 + b - HALF, HALF, WRAP + 2 + b - HALF)
  {
    RunCons(Mid(p, b, HALF, HALF, HALF), Transmit(HALF), [Transmit(1)] + ([Transmit(b)] + []));
    assert Step(Mid(p, b, HALF, HALF, HALF), Transmit(HALF)) == Mid(p, b, 0, HALF, WRAP);
    RunCons(Mid(p, b, 0, HALF, WRAP), Transmit(1), [Transmit(b)] + []);
    assert Step(Mid(p, b, 0, HALF, WRAP), Transmit(1)) == Mid(p, b, 1, HALF, WRAP + 1);
    RunCons(Mid(p, b, 1, HALF, WRAP + 1), Transmit(b), []);
    assert Step(Mid(p, b, 1, HALF, WRAP + 1), Transmit(b)) == Mid(p, b, 2 + b - HALF, HALF, WRAP + 2 + b - HALF);
  }

  lemma OpeningConnects(c: Stream, p: Peer, b: U32, es: seq<Event>)
    requires Awaits(c, p)
    ensures Run(c, Opening(c.sock.state, p, b) + es) == Run(Mid(p, b, 0, 0, 0), es)
    ensures HonestRun(c, Opening(c.sock.state, p, b) + es) <==> HonestRun(Mid(p, b, 0, 0, 0), es)
  {
    if c.sock.state.Listen? {
      var request := Packet(Header(OpRequest, true, p.cid, p.port, b, 0), [], 0);
      assert Opening(c.sock.state, p, b) + es == [request] + ([AcceptCall] + es);
      RunCons(c, request, [AcceptCall] + es);
      RunCons(Step(c, request), AcceptCall, es);
      assert Step(Step(c, request), AcceptCall) == Mid(p, b, 0, 0, 0);
    } else {
      RunCons(c, Packet(Header(OpResponse, true, p.cid, p.port, b, 0), [], 0), es);
    }
  }

  /**
   * A stream that was just accepted or connected belongs to the peer that opened it, has the whole announced
   * buffer to send into, and listens to credit updates of that peer and of no other.
   */
  lemma OpenedStreamHasCredit(c0: Stream, p: Peer, b: U32, len: nat, update: Header)
    requires Awaits(c0, p) && b > 0
    requires update.op.OpCreditUpdate?
    ensures var s := Run(c0, Opening(c0.sock.state, p, b)).sock;
      && s.state == Connected && s.remoteCid == p.cid && s.remotePort == p.port
      && Write(s, len).1 == Sent(if len < b then len else b)
      && Receive(s, update, []).peerFwdCnt == if update.srcCid == p.cid then update.fwdCnt else 0
  {
    OpeningConnects(c0, p, b, []);
    assert Opening(c0.sock.state, p, b) + [] == Opening(c0.sock.state, p, b);
  }

  /** Once a stream no longer listens, its peer never changes. */
  lemma {:induction false} PeerIsFixed(c: Stream, es: seq<Event>)
    requires !c.sock.state.Listen?
    ensures Run(c, es).sock.remoteCid == c.sock.remoteCid && Run(c, es).sock.remotePort == c.sock.remotePort
    ensures !Run(c, es).sock.state.Listen?
    decreases |es|
  {
    if es != [] { PeerIsFixed(Step(c, es[0]), es[1..]); }
  }

  /** The payloads for the reader in a run, in order. */
  function Delivered(c: Stream, es: seq<Event>): seq<Byte>
    decreases |es|
  {
    if es == [] then []
    else
      (if es[0].Packet? && Takes(c.sock, es[0].h) then es[0].data else []) + Delivered(Step(c, es[0]), es[1..])
  }

  /** In every run exactly the payloads of the peer are buffered, in order, and all are counted. */
  lemma {:induction false} BufferIsDelivered(c: Stream, es: seq<Event>)
    requires c.sock.fwdCnt == |c.sock.buffer| % WRAP
    ensures Run(c, es).sock.buffer == c.sock.buffer + Delivered(c, es)
    ensures Run(c, es).sock.fwdCnt == |Run(c, es).sock.buffer| % WRAP
    decreases |es|
  {
    if es != [] {
      var c1 := Step(c, es[0]);
      if es[0].Packet? && Takes(c.sock, es[0].h) { WrapOfSum(|c.sock.buffer|, |es[0].data|); }
      BufferIsDelivered(c1, es[1..]);
    }
  }

  lemma OverrunHappens(c0: Stream, p: Peer, b: U32)
    requires Awaits(c0, p) && b > HALF
    ensures HonestRun(c0, Opening(c0.sock.state, p, b) + Overrun(p, b))
    ensures var c := Run(c0, Opening(c0.sock.state, p, b) + Overrun(p, b)); c.sent - c.consumed == b + 2
  {
    var tail := [Transmit(HALF)] + ([Transmit(1)] + ([Transmit(b)] + []));
    var update := Packet(Header(OpCreditUpdate, true, p.cid, p.port, b, HALF), [], HALF);
    OverrunTail(p, b);
    OpeningConnects(c0, p, b, Overrun(p, b));
    RunCons(Mid(p, b, 0, 0, 0), Transmit(HALF), [update] + tail);
    assert Step(Mid(p, b, 0, 0, 0), Transmit(HALF)) == Mid(p, b, HALF, 0, HALF);
    RunCons(Mid(p, b, HALF, 0, HALF), update, tail);
    assert Step(Mid(p, b, HALF, 0, HALF), update) == Mid(p, b, HALF, HALF, HALF);
  }

  /** The buffer sizes for which the arithmetic is safe are exactly those up to 2^31, whoever connects. */
  lemma SafeExactlyUpToHalf(state: State, b: U32)
    requires state.Listen? || state.Connecting?
    ensures SafeFor(state, b) <==> b <= HALF
  {
    if b <= HALF {
      forall cid: U32, port: U32, es: seq<Event> | HonestRun(Fresh(state, cid, port), es) && AnnouncesExactly(es, b)
        ensures Safe(Run(Fresh(state, cid, port), es))
      {
        CreditIsNeverExceeded(state, cid, port, es);
      }
    } else {
      var c0, p := Fresh(state, 0, 0), Peer(0, 0);
      OverrunHappens(c0, p, b);
      var es := Opening(state, p, b) + Overrun(p, b);
      BufferAfter(c0, es, b);
      assert AnnouncesExactly(es, b) && !Safe(Run(c0, es));
    }
  }

  /** The announced size is the only one the socket can hold. */
  lemma {:induction false} BufferAfter(c: Stream, es: seq<Event>, b: U32)
    requires c.sock.peerBufAlloc <= b
    requires AnnouncesExactly(es, b)
    ensures Run(c, es).sock.peerBufAlloc <= b
    decreases |es|
  {
    if es != [] {
      assert forall i :: 0 <= i < |es[1..]| ==> es[1..][i] == es[i + 1];
      BufferAfter(Step(c, es[0]), es[1..], b);
    }
  }
}
