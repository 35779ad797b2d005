/** internal/infrastructure/transport/noise/conn.go against the TypeScript cipher: rekeying stays in lockstep. */
module Transport {
  import opened Endian
  import opened Octets
  import opened Noise
  import opened Handshake

  const MAX_FRAME_SIZE: nat := 750 * 1024
  const TAG: nat := 16

  /** One direction of a Go connection: key and nonce of the cipher state, and the message counter beside it. */
  datatype Direction = Direction(key: Bytes, n: nat, count: nat)

  function Counted(d: Direction): Direction {
    var count := (d.count + 1) % WORD;
    Direction(if count % REKEY_INTERVAL == 0 then Rekeyed(d.key) else d.key, d.n + 1, count)
  }

  /** None: no frame reaches the wire. An oversized ciphertext has used up its nonce all the same. */
  function Sent(d: Direction, payload: Bytes): (Direction, Option<Bytes>) {
    if d.n >= RESERVED then (d, None)
    else
      var ct := Seal(d.key, Nonce(d.n), [], payload);
      (Counted(d), if |ct| > MAX_FRAME_SIZE then None else Some(ct))
  }

  function Received(d: Direction, frame: Bytes): Option<(Direction, Bytes)> {
    if |frame| == 0 || |frame| > MAX_FRAME_SIZE || d.n >= RESERVED then None
    else match Open(d.key, Nonce(d.n), [], frame)
         case None => None
         case Some(plain) => Some((Counted(d), plain))
  }

  /** The connection object; the frames themselves go through the stream. */
  class Conn {
    var send: Direction
    var recv: Direction

    constructor (send: Bytes, recv: Bytes)
      ensures this.send == Direction(send, 0, 0) && this.recv == Direction(recv, 0, 0)
    {
      this.send, this.recv := Direction(send, 0, 0), Direction(recv, 0, 0);
    }

    method Send(payload: Bytes) returns (frame: Option<Bytes>)
      modifies this`send
      ensures (send, frame) == Sent(old(send), payload)
    {
      if send.n >= RESERVED { return None; }
      var ct := Seal(send.key, Nonce(send.n), [], payload);
      send := send.(n := send.n + 1, count := (send.count + 1) % WORD);
      if send.count % REKEY_INTERVAL == 0 {
        send := send.(key := Rekeyed(send.key));
      }
      if |ct| > MAX_FRAME_SIZE { return None; }
      return Some(ct);
    }

    method Recv(frame: Bytes) returns (payload: Option<Bytes>)
      modifies this`recv
      ensures match Received(old(recv), frame)
              case None => payload == None && recv == old(recv)
              case Some((d, p)) => payload == Some(p) && recv == d
    {
      if |frame| == 0 || |frame| > MAX_FRAME_SIZE || recv.n >= RESERVED { return None; }
      payload := Open(recv.key, Nonce(recv.n), [], frame);
      if payload.Some? {
        recv := recv.(n := recv.n + 1, count := (recv.count + 1) % WORD);
        if recv.count % REKEY_INTERVAL == 0 {
          recv := recv.(key := Rekeyed(recv.key));
        }
      }
    }
  }

  // ---- Both rules against one schedule ---------------------------------------------------------------------------

  function Rekeys(key: Bytes, times: nat): Bytes {
    if times == 0 then key else Rekeyed(Rekeys(key, times - 1))
  }

  /** The key after m messages under a first key. */
  function KeyAt(first: Bytes, m: nat): Bytes { Rekeys(first, m / REKEY_INTERVAL) }

  /** The key changes exactly when the count reaches a multiple of the interval. */
  lemma KeySchedule(first: Bytes, m: nat)
    ensures KeyAt(first, m + 1) == if (m + 1) % REKEY_INTERVAL == 0 then Rekeyed(KeyAt(first, m)) else KeyAt(first, m)
  {
    hide Rekeyed;
    if (m + 1) % REKEY_INTERVAL == 0 {
      assert (m + 1) / REKEY_INTERVAL == m / REKEY_INTERVAL + 1;
    } else {
      assert (m + 1) / REKEY_INTERVAL == m / REKEY_INTERVAL;
    }
  }

  /** What the TypeScript rule (by nonce) and the Go rule (by count) hold after m messages. */
  function BrowserAt(first: Bytes, m: nat): Cipher { Cipher(Some(KeyAt(first, m)), m) }
  function DaemonAt(first: Bytes, m: nat): Direction { Direction(KeyAt(first, m), m, m) }

  lemma BothAdvance(first: Bytes, m: nat)
    requires m < RESERVED
    ensures Advanced(BrowserAt(first, m)) == BrowserAt(first, m + 1)
    ensures Counted(DaemonAt(first, m)) == DaemonAt(first, m + 1)
    ensures BrowserAt(first, m).key == Some(KeyAt(first, m)) && DaemonAt(first, m).key == KeyAt(first, m)
    ensures BrowserAt(first, m).n == m == DaemonAt(first, m).n
  {
    hide KeyAt, Rekeyed;
    KeySchedule(first, m);
  }

  function BrowserSends(c: Cipher, payloads: seq<Bytes>): (Cipher, seq<Bytes>)
    decreases |payloads|
  {
    if payloads == [] then (c, [])
    else
      var (next, ct) := EncryptWithAd(c, [], payloads[0]);
      var (last, frames) := BrowserSends(next, payloads[1..]);
      (last, [ct] + frames)
  }

  function BrowserReceives(c: Cipher, frames: seq<Bytes>): Option<(Cipher, seq<Bytes>)>
    decreases |frames|
  {
    if frames == [] then Some((c, []))
    else
      match DecryptWithAd(c, [], frames[0])
      case None => None
      case Some((next, plain)) =>
        match BrowserReceives(next, frames[1..])
        case None => None
        case Some((last, payloads)) => Some((last, [plain] + payloads))
  }

  /** One frame per payload, None where the send fails. */
  function DaemonSends(d: Direction, payloads: seq<Bytes>): (Direction, seq<Option<Bytes>>)
    decreases |payloads|
  {
    if payloads == [] then (d, [])
    else
      var (next, frame) := Sent(d, payloads[0]);
      var (last, frames) := DaemonSends(next, payloads[1..]);
      (last, [frame] + frames)
  }

  function DaemonReceives(d: Direction, frames: seq<Bytes>): Option<(Direction, seq<Bytes>)>
    decreases |frames|
  {
    if frames == [] then Some((d, []))
    else
      match Received(d, frames[0])
      case None => None
      case Some((next, plain)) =>
        match DaemonReceives(next, frames[1..])
        case None => None
        case Some((last, payloads)) => Some((last, [plain] + payloads))
  }

  /** The frames on the wire, if every send wrote one. */
  function Wire(frames: seq<Option<Bytes>>): Option<seq<Bytes>> {
    if frames == [] then Some([])
    else if frames[0].None? then None
    else match Wire(frames[1..])
         case None => None
         case Some(w) => Some([frames[0].value] + w)
  }

  predicate Sendable(payloads: seq<Bytes>) { forall p | p in payloads :: |p| + TAG <= MAX_FRAME_SIZE }

  /** One message from the browser, both ends at message m. */
  lemma BrowserMessage(first: Bytes, m: nat, p: Bytes)
    requires m < RESERVED && |p| + TAG <= MAX_FRAME_SIZE
    ensures var (c, ct) := EncryptWithAd(BrowserAt(first, m), [], p);
            c == BrowserAt(first, m + 1) && Received(DaemonAt(first, m), ct) == Some((DaemonAt(first, m + 1), p))
  {
    hide KeyAt, Rekeyed, Seal, Open, Nonce, Advanced, Counted;
    BothAdvance(first, m);
    OpenSeal(KeyAt(first, m), Nonce(m), [], KeyAt(first, m), Nonce(m), [], p);
  }

  /** One message from the daemon. */
  lemma DaemonMessage(first: Bytes, m: nat, p: Bytes)
    requires m < RESERVED && |p| + TAG <= MAX_FRAME_SIZE
    ensures var (d, frame) := Sent(DaemonAt(first, m), p);
            && d == DaemonAt(first, m + 1) && frame.Some?
            && DecryptWithAd(BrowserAt(first, m), [], frame.value) == Some((BrowserAt(first, m + 1), p))
  {
    hide KeyAt, Rekeyed, Seal, Open, Nonce, Advanced, Counted;
    BothAdvance(first, m);
    OpenSeal(KeyAt(first, m), Nonce(m), [], KeyAt(first, m), Nonce(m), [], p);
  }

  lemma SendableTail(payloads: seq<Bytes>)
    requires Sendable(payloads) && payloads != []
    ensures |payloads[0]| + TAG <= MAX_FRAME_SIZE && Sendable(payloads[1..])
            && [payloads[0]] + payloads[1..] == payloads
  {
    assert payloads[0] in payloads;
  }

  lemma HeadAndTail<T>(x: T, s: seq<T>)
    ensures [x] + s != [] && ([x] + s)[0] == x && ([x] + s)[1..] == s
  {
  }

  /**
   Browser to daemon: from message m on, the daemon recovers exactly the payloads, and both ends keep the schedule.
   */
  lemma {:induction false} BrowserToDaemon(first: Bytes, m: nat, payloads: seq<Bytes>)
    requires Sendable(payloads) && m + |payloads| < RESERVED
    ensures var (c, frames) := BrowserSends(BrowserAt(first, m), payloads);
            && c == BrowserAt(first, m + |payloads|)
            && DaemonReceives(DaemonAt(first, m), frames) == Some((DaemonAt(first, m + |payloads|), payloads))
    decreases |payloads|
  {
    hide BrowserAt, DaemonAt, EncryptWithAd, Received, Sendable;
    if payloads != [] {
      var p, more := payloads[0], payloads[1..];
      SendableTail(payloads);
      BrowserMessage(first, m, p);
      BrowserToDaemon(first, m + 1, more);
      HeadAndTail(EncryptWithAd(BrowserAt(first, m), [], p).1, BrowserSends(BrowserAt(first, m + 1), more).1);
    }
  }

  /** Daemon to browser: every frame is written, and the browser recovers exactly the payloads. */
  lemma {:induction false} DaemonToBrowser(first: Bytes, m: nat, payloads: seq<Bytes>)
    requires Sendable(payloads) && m + |payloads| < RESERVED
    ensures var (d, frames) := DaemonSends(DaemonAt(first, m), payloads);
            && d == DaemonAt(first, m + |payloads|) && Wire(frames).Some?
            && BrowserReceives(BrowserAt(first, m), Wire(frames).value)
            == Some((BrowserAt(first, m + |payloads|), payloads))
    decreases |payloads|
  {
    hide BrowserAt, DaemonAt, Sent, DecryptWithAd, Sendable;
    if payloads != [] {
      var p, more := payloads[0], payloads[1..];
      SendableTail(payloads);
      DaemonMessage(first, m, p);
      DaemonToBrowser(first, m + 1, more);
      var frame, frames := Sent(DaemonAt(first, m), p).1, DaemonSends(DaemonAt(first, m + 1), more).1;
      HeadAndTail(frame, frames);
      HeadAndTail(frame.value, Wire(frames).value);
    }
  }

  // ---- From the handshake on ----------------------------------------------------------------------------------------

  /** What newConn makes of a cipher state with a key: its own count starts at 0 too. */
  function DirectionOf(c: Cipher): Direction
    requires c.key.Some?
  {
    Direction(c.key.value, c.n, 0)
  }

  lemma SplitStarts(ss: Symmetric)
    ensures var (c1, c2) := Split(ss);
            && c1.key.Some? && c1 == BrowserAt(c1.key.value, 0) && DirectionOf(c1) == DaemonAt(c1.key.value, 0)
            && c2.key.Some? && c2 == BrowserAt(c2.key.value, 0) && DirectionOf(c2) == DaemonAt(c2.key.value, 0)
  {
  }

  /**
   A whole connection: after any honest handshake, with or without a pre-shared key, whatever either end sends is
   recovered by the other exactly and in order, across every change of key.
   */
  lemma HonestConnectionCarriesEverything(x: Inputs, psk: Option<Bytes>, prologue: Bytes, up: seq<Bytes>,
      down: seq<Bytes>)
    requires Sendable(up) && Sendable(down) && |up| < RESERVED && |down| < RESERVED
    ensures HonestRun(x, psk, prologue).Some?
    ensures var (i, r) := HonestRun(x, psk, prologue).value;
            var browser, daemon := InitiatorChannel(i), ResponderChannel(r);
            && daemon.send.key.Some? && daemon.recv.key.Some?
            && var received := DaemonReceives(DirectionOf(daemon.recv), BrowserSends(browser.send, up).1);
            && received.Some? && received.value.1 == up
            && var frames := Wire(DaemonSends(DirectionOf(daemon.send), down).1);
            && frames.Some? && BrowserReceives(browser.recv, frames.value).Some?
            && BrowserReceives(browser.recv, frames.value).value.1 == down
  {
    hide HonestRun, Split, Sendable, DaemonReceives, BrowserSends, DaemonSends, BrowserReceives, Wire, BrowserAt,
         DaemonAt;
    HonestRunFinishes(x, psk, prologue);
    var (i, _) := HonestRun(x, psk, prologue).value;
    SplitStarts(i.ss);
    var (c1, c2) := Split(i.ss);
    BrowserToDaemon(c1.key.value, 0, up);
    DaemonToBrowser(c2.key.value, 0, down);
  }

  /** A frame is received exactly when it is the payload sealed for this place in the direction, within the cap. */
  lemma ReceivedExactly(d: Direction, frame: Bytes, next: Direction, payload: Bytes)
    ensures Received(d, frame) == Some((next, payload)) <==>
            && d.n < RESERVED && frame == Seal(d.key, Nonce(d.n), [], payload) && |frame| <= 768_000
            && next == Counted(d)
  {
    hide Nonce, Counted;
    OpenSeal(d.key, Nonce(d.n), [], d.key, Nonce(d.n), [], payload);
  }

  // ---- Keys ---------------------------------------------------------------------------------------------------------

  lemma RekeyedNames(a: Bytes, b: Bytes)
    ensures Rekeyed(a) == Rekeyed(b) <==> a == b
    ensures |Rekeyed(a)| == 32 && Rekeyed(a)[0] == Part(Box(a, Nonce(RESERVED), [], seq(32, i => Raw(0))), 0)
  {
    hide Nonce;
    var zeros: Bytes := seq(32, i => Raw(0));
    assert Rekeyed(a)[0] == Part(Box(a, Nonce(RESERVED), [], zeros), 0);
    assert Rekeyed(b)[0] == Part(Box(b, Nonce(RESERVED), [], zeros), 0);
  }

  /** How often a key was made by sealing under another. */
  function Depth(key: Bytes): nat
    decreases key
  {
    if key == [] then 0 else OctetDepth(key[0])
  }

  function OctetDepth(o: Octet): nat
    decreases o
  {
    match o case Part(t, _) => TermDepth(t) case _ => 0
  }

  function TermDepth(t: Term): nat
    decreases t
  {
    match t case Box(key, _, _, _) => 1 + Depth(key) case _ => 0
  }

  lemma RekeyedDepth(key: Bytes)
    ensures Depth(Rekeyed(key)) == 1 + Depth(key)
  {
    hide Rekeyed, Nonce;
    RekeyedNames(key, key);
    var box := Box(key, Nonce(RESERVED), [], seq(32, i => Raw(0)));
    assert Rekeyed(key) != [] && OctetDepth(Rekeyed(key)[0]) == TermDepth(box);
  }

  lemma {:induction false} RekeysDeepen(key: Bytes, times: nat)
    ensures Depth(Rekeys(key, times)) == Depth(key) + times
  {
    hide Rekeyed, Depth;
    if times > 0 {
      RekeysDeepen(key, times - 1);
      RekeyedDepth(Rekeys(key, times - 1));
    }
  }

  /** Each rekeying wraps the key before it, so none comes back. */
  lemma RekeysDiffer(key: Bytes, i: nat, j: nat)
    ensures Rekeys(key, i) == Rekeys(key, j) <==> i == j
  {
    RekeysDeepen(key, i);
    RekeysDeepen(key, j);
  }

  /** Keys never come back: two messages of a direction share their key exactly within one interval of 4096. */
  lemma KeysNeverComeBack(first: Bytes, i: nat, j: nat)
    ensures KeyAt(first, i) == KeyAt(first, j) <==> i / 4096 == j / 4096
  {
    RekeysDiffer(first, i / 4096, j / 4096);
  }

  // ---- Nonces ------------------------------------------------------------------------------------------------------

  lemma NoncesDiffer(i: nat, j: nat)
    requires i < WORD && j < WORD
    ensures Nonce(i) == Nonce(j) <==> i == j
  {
    Widths();
    var a, b: seq<byte> := [0, 0, 0, 0] + LittleEndian(i, 8), [0, 0, 0, 0] + LittleEndian(j, 8);
    RawsInjective(a, b);
    if a == b {
      assert a[4..] == LittleEndian(i, 8) && b[4..] == LittleEndian(j, 8);
      LittleEndianRoundTrip(i, 8);
      LittleEndianRoundTrip(j, 8);
    }
  }

  /** Below the reserved value no two messages of a direction share a nonce, and none uses the one rekeying uses. */
  lemma NoNonceRepeats(first: Bytes, i: nat, j: nat)
    requires i < j < RESERVED
    ensures Nonce(DaemonAt(first, i).n) != Nonce(DaemonAt(first, j).n)
    ensures Nonce(BrowserAt(first, i).n) != Nonce(BrowserAt(first, j).n)
    ensures Nonce(BrowserAt(first, j).n) != Nonce(RESERVED)
    ensures forall payload :: Sent(DaemonAt(first, RESERVED), payload) == (DaemonAt(first, RESERVED), None)
  {
    NoncesDiffer(i, j);
    NoncesDiffer(j, RESERVED);
  }

  /**
   An oversized send fails without a frame but uses up a nonce: the next message opens at the other end if and only
   if the send before it was not of that kind.
   */
  lemma OversizedSendBreaksTheChannel(first: Bytes, m: nat, p: Bytes, q: Bytes)
    requires m + 1 < RESERVED && |q| + TAG <= MAX_FRAME_SIZE
    ensures var (d, frame) := Sent(DaemonAt(first, m), p);
            var (_, next) := Sent(d, q);
            var peer := if frame.Some? then BrowserAt(first, m + 1) else BrowserAt(first, m);
            && (frame.None? <==> |p| + TAG > MAX_FRAME_SIZE)
            && next.Some?
            && (DecryptWithAd(peer, [], next.value).Some? <==> |p| + TAG <= MAX_FRAME_SIZE)
            && (|p| + TAG <= MAX_FRAME_SIZE ==> DecryptWithAd(peer, [], next.value).value.1 == q)
  {
    hide KeyAt, Rekeyed, Seal, Open, Nonce;
    BothAdvance(first, m);
    NoncesDiffer(m, m + 1);
    OpenSeal(KeyAt(first, m + 1), Nonce(m + 1), [], KeyAt(first, m + 1), Nonce(m + 1), [], q);
    OpenSeal(KeyAt(first, m + 1), Nonce(m + 1), [], KeyAt(first, m), Nonce(m), [], q);
  }
}
