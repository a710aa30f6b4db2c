/** The secure channel: directional keys and two counters that number the frames. */
module Channel {
  import opened Bytes
  import SM = SecureMessage

  datatype Role = Client | Server

  datatype SessionKeys = SessionKeys(clientEncrypt: seq<U8>, clientHmac: seq<U8>, serverEncrypt: seq<U8>, serverHmac: seq<U8>) {
    /** Encryption key and MAC key for the frames `role` sends. */
    function Send(role: Role): (seq<U8>, seq<U8>) {
      if role.Client? then (clientEncrypt, clientHmac) else (serverEncrypt, serverHmac)
    }

    function Recv(role: Role): (seq<U8>, seq<U8>) {
      if role.Client? then (serverEncrypt, serverHmac) else (clientEncrypt, clientHmac)
    }

    predicate WellSized() {
      |clientEncrypt| == SM.AES_KEY_SIZE && |serverEncrypt| == SM.AES_KEY_SIZE
    }
  }

  function Peer(role: Role): Role { if role.Client? then Server else Client }

  /** Each side reads with what the other writes with, and the client writes with the client's keys. */
  lemma DirectionsMeet(keys: SessionKeys, role: Role)
    ensures keys.Recv(Peer(role)) == keys.Send(role) && Peer(Peer(role)) == role != Peer(role)
    ensures keys.Send(Client) == (keys.clientEncrypt, keys.clientHmac) && keys.Send(Server) == (keys.serverEncrypt, keys.serverHmac)
  {
  }

  datatype Error = NotAuthentic | Sequence(expected: I32, got: I32) | CryptoFailure

  /** `wrapping_add(1)`. */
  function Succ(n: I32): I32 {
    if n == 0x7FFF_FFFF then -0x8000_0000 else n + 1
  }

  /** The counter after `n` increments from zero. */
  function Counter(n: nat): I32 {
    var low := n % TWO_32;
    if low >= 0x8000_0000 then low - TWO_32 else low
  }

  lemma ModSucc(n: nat)
    ensures (n + 1) % TWO_32 == if n % TWO_32 == TWO_32 - 1 then 0 else n % TWO_32 + 1
  {
  }

  lemma CounterSucc(n: nat)
    ensures Counter(0) == 0 && Counter(n + 1) == Succ(Counter(n))
  {
  }

  lemma CounterInjective(i: nat, j: nat)
    ensures Counter(i) == Counter(j) <==> i % TWO_32 == j % TWO_32
  {
  }

  /** Whose turn it is: the next number expected after `k` is that of frame `n`. */
  lemma SameTurn(n: nat, k: nat)
    ensures Counter(n + 1) == Succ(Counter(k)) <==> n % TWO_32 == k % TWO_32
  {
    CounterSucc(k);
    CounterInjective(n + 1, k + 1);
    ModSucc(n);
    ModSucc(k);
  }

  /** What `decrypt` answers, and the counter it leaves. */
  function Accept(c: SM.Crypto, keys: (seq<U8>, seq<U8>), recvSeq: I32, wire: seq<U8>): (I32, Result<seq<U8>, Error>) {
    match SM.VerifyAndDecrypt(c, keys.0, keys.1, wire)
    case Err(_) => (recvSeq, Err(NotAuthentic))
    case Ok(out) =>
      if out.sequenceNumber != Succ(recvSeq) then
        (recvSeq, Err(Sequence(Succ(recvSeq), out.sequenceNumber)))
      else (Succ(recvSeq), Ok(out.payload))
  }

  class SecureChannel {
    const crypto: SM.Crypto
    const keys: SessionKeys
    const role: Role
    var sendSeq: I32
    var recvSeq: I32

    constructor (crypto: SM.Crypto, keys: SessionKeys, role: Role)
      ensures this.crypto == crypto && this.keys == keys && this.role == role
      ensures sendSeq == 0 && recvSeq == 0
    {
      this.crypto := crypto;
      this.keys := keys;
      this.role := role;
      sendSeq := 0;
      recvSeq := 0;
    }

    /** `iv` is what the random source gave, if it gave anything. The counter moves regardless. */
    method Encrypt(payload: seq<U8>, iv: Option<seq<U8>>) returns (r: Result<seq<U8>, Error>)
      modifies this`sendSeq
      ensures sendSeq == Succ(old(sendSeq))
      ensures iv.None? ==> r == Err(CryptoFailure)
      ensures iv.Some? ==>
        match SM.EncryptAndSign(crypto, keys.Send(role).0, keys.Send(role).1, Succ(old(sendSeq)), payload, iv.value)
        case Ok(wire) => r == Ok(wire)
        case Err(_) => r == Err(CryptoFailure)
    {
      sendSeq := Succ(sendSeq);
      var (enc, mac) := keys.Send(role);
      if iv.None? {
        return Err(CryptoFailure);
      }
      var sealed := SM.EncryptAndSign(crypto, enc, mac, sendSeq, payload, iv.value);
      r := if sealed.Ok? then Ok(sealed.value) else Err(CryptoFailure);
    }

    method Decrypt(wire: seq<U8>) returns (r: Result<seq<U8>, Error>)
      modifies this`recvSeq
      ensures (recvSeq, r) == Accept(crypto, keys.Recv(role), old(recvSeq), wire)
      ensures r.Err? ==> recvSeq == old(recvSeq)
    {
      var (enc, mac) := keys.Recv(role);
      var out := SM.VerifyAndDecrypt(crypto, enc, mac, wire);
      if out.Err? {
        return Err(NotAuthentic);
      }
      var expected := Succ(recvSeq);
      if out.value.sequenceNumber != expected {
        return Err(Sequence(expected, out.value.sequenceNumber));
      }
      recvSeq := expected;
      r := Ok(out.value.payload);
    }
  }

  // ------------------------------------------------ one direction, hostile network ---

  /** One call of `encrypt` that produced a frame. */
  datatype Sent = Sent(payload: seq<U8>, iv: seq<U8>)

  /** The signed bytes of the frame that call number `n`, counted from zero, produced. */
  function SignedBytes(c: SM.Crypto, keys: (seq<U8>, seq<U8>), n: nat, s: Sent): seq<U8> {
    SM.P.Encode(SM.HeaderAndBodyFields(c, keys.0, Counter(n + 1), s.payload, s.iv))
  }

  function WireOf(c: SM.Crypto, keys: (seq<U8>, seq<U8>), n: nat, s: Sent): seq<U8> {
    SM.P.Encode(SM.MessageFields(c, keys.1, SignedBytes(c, keys, n, s)))
  }

  /** The frame fits in memory and its IV is the right size. */
  predicate Sendable(c: SM.Crypto, keys: (seq<U8>, seq<U8>), n: nat, s: Sent) {
    && |s.iv| == SM.IV_SIZE
    && |WireOf(c, keys, n, s)| < TWO_64
    && |SM.P.Encode(SM.D2dFields(Counter(n + 1), s.payload))| < TWO_64
  }

  /** `None` is a call that failed for want of randomness; it used up a number. */
  datatype Event = Send(call: Option<Sent>) | Deliver(wire: seq<U8>)

  datatype World = World(calls: seq<Option<Sent>>, recvSeq: I32, accepted: seq<seq<U8>>)

  const START := World([], 0, [])

  function Record(w: World, answer: (I32, Result<seq<U8>, Error>)): World {
    w.(recvSeq := answer.0, accepted := if answer.1.Ok? then w.accepted + [answer.1.value] else w.accepted)
  }

  function Step(c: SM.Crypto, keys: (seq<U8>, seq<U8>), w: World, e: Event): World {
    match e
    case Send(call) => w.(calls := w.calls + [call])
    case Deliver(wire) => Record(w, Accept(c, keys, w.recvSeq, wire))
  }

  function Run(c: SM.Crypto, keys: (seq<U8>, seq<U8>), es: seq<Event>): World {
    if es == [] then START else Step(c, keys, Run(c, keys, es[..|es| - 1]), es[|es| - 1])
  }

  /**
    What the network may do. It may drop, repeat, reorder and invent; it cannot produce bytes
    together with their HMAC unless those bytes are the signed part of a frame already sent.
   */
  ghost predicate Possible(c: SM.Crypto, keys: (seq<U8>, seq<U8>), w: World, e: Event) {
    match e
    case Send(None) => true
    case Send(Some(s)) => Sendable(c, keys, |w.calls|, s)
    case Deliver(wire) =>
      forall hb :: SM.Signs(c, keys.1, wire, hb) ==> exists n: nat :: Carries(c, keys, w.calls, hb, n)
  }

  /** The bytes are the signed part of the frame of call `n`. */
  ghost predicate Carries(c: SM.Crypto, keys: (seq<U8>, seq<U8>), calls: seq<Option<Sent>>, hb: seq<U8>, n: nat) {
    Genuine(c, keys, calls, n) && hb == SignedBytes(c, keys, n, calls[n].value)
  }

  ghost predicate Genuine(c: SM.Crypto, keys: (seq<U8>, seq<U8>), calls: seq<Option<Sent>>, n: nat) {
    n < |calls| && calls[n].Some? && Sendable(c, keys, n, calls[n].value)
  }

  ghost predicate Network(c: SM.Crypto, keys: (seq<U8>, seq<U8>), es: seq<Event>) {
    forall k :: 0 <= k < |es| ==> Possible(c, keys, Run(c, keys, es[..k]), es[k])
  }

  lemma GenuineOpens(c: SM.Crypto, keys: (seq<U8>, seq<U8>), n: nat, s: Sent, wire: seq<U8>)
    requires SM.Inverts(c) && |keys.0| == SM.AES_KEY_SIZE && Sendable(c, keys, n, s)
    requires SM.Signs(c, keys.1, wire, SignedBytes(c, keys, n, s))
    ensures SM.VerifyAndDecrypt(c, keys.0, keys.1, wire) == Ok(SM.Unwrapped(Counter(n + 1), s.payload))
  {
    var hb := SignedBytes(c, keys, n, s);
    SM.GateExactly(c, keys.1, wire, hb);
    SM.P.PartsShorter(SM.MessageFields(c, keys.1, hb), 0);
    SM.OpenRoundTrip(c, keys.0, Counter(n + 1), s.payload, s.iv);
  }

  /** A message that carries the signed bytes of call `n` is accepted exactly at that call's turn. */
  lemma AcceptsExactlyInTurn(c: SM.Crypto, keys: (seq<U8>, seq<U8>), n: nat, s: Sent, k: nat, wire: seq<U8>)
    requires SM.Inverts(c) && |keys.0| == SM.AES_KEY_SIZE && Sendable(c, keys, n, s)
    requires SM.Signs(c, keys.1, wire, SignedBytes(c, keys, n, s))
    ensures Accept(c, keys, Counter(k), wire)
      == if n % TWO_32 == k % TWO_32 then (Counter(k + 1), Ok(s.payload))
         else (Counter(k), Err(Sequence(Counter(k + 1), Counter(n + 1))))
  {
    GenuineOpens(c, keys, n, s, wire);
    CounterSucc(k);
    SameTurn(n, k);
  }

  /** A message without the HMAC of what it carries changes nothing, whatever else it says. */
  lemma ForgeryRejected(c: SM.Crypto, keys: (seq<U8>, seq<U8>), recvSeq: I32, wire: seq<U8>)
    requires forall hb :: !SM.Signs(c, keys.1, wire, hb)
    ensures Accept(c, keys, recvSeq, wire) == (recvSeq, Err(NotAuthentic))
  {
    hide SM.Gate, SM.Signs, SM.Open;
    var gate := SM.Gate(c, keys.1, wire);
    if gate.Ok? {
      SM.GateExactly(c, keys.1, wire, gate.value);
    }
  }

  /** Whatever was accepted, in the order it was sent, with nothing missing. */
  ghost predicate IsPrefix(accepted: seq<seq<U8>>, calls: seq<Option<Sent>>) {
    && |accepted| <= |calls|
    && forall i :: 0 <= i < |accepted| ==> calls[i].Some? && accepted[i] == calls[i].value.payload
  }

  lemma NoWrap(n: nat, k: nat)
    requires n < TWO_32 && k < TWO_32
    ensures n % TWO_32 == k % TWO_32 <==> n == k
  {
  }

  ghost predicate InStep(w: World) {
    IsPrefix(w.accepted, w.calls) && w.recvSeq == Counter(|w.accepted|)
  }

  lemma RecordInStep(w: World, n: nat, answer: (I32, Result<seq<U8>, Error>))
    requires InStep(w) && n < |w.calls| < TWO_32 && w.calls[n].Some?
    requires var k := |w.accepted|;
      if n % TWO_32 == k % TWO_32 then answer == (Counter(k + 1), Ok(w.calls[n].value.payload))
      else answer.0 == Counter(k) && answer.1.Err?
    ensures InStep(Record(w, answer))
  {
    NoWrap(n, |w.accepted|);
  }

  lemma DeliverInStep(c: SM.Crypto, keys: (seq<U8>, seq<U8>), w: World, wire: seq<U8>, n: nat)
    requires SM.Inverts(c) && |keys.0| == SM.AES_KEY_SIZE
    requires InStep(w) && |w.calls| < TWO_32 && Genuine(c, keys, w.calls, n)
    requires SM.Signs(c, keys.1, wire, SignedBytes(c, keys, n, w.calls[n].value))
    ensures InStep(Record(w, Accept(c, keys, w.recvSeq, wire)))
  {
    AcceptsExactlyInTurn(c, keys, n, w.calls[n].value, |w.accepted|, wire);
    RecordInStep(w, n, Accept(c, keys, w.recvSeq, wire));
  }

  lemma StepInStep(c: SM.Crypto, keys: (seq<U8>, seq<U8>), w: World, e: Event)
    requires SM.Inverts(c) && |keys.0| == SM.AES_KEY_SIZE
    requires InStep(w) && |w.calls| < TWO_32 && Possible(c, keys, w, e)
    ensures InStep(Step(c, keys, w, e))
  {
    hide SM.Signs, SignedBytes;
    if e.Deliver? {
      if hb :| SM.Signs(c, keys.1, e.wire, hb) {
        var n: nat :| Carries(c, keys, w.calls, hb, n);
        DeliverInStep(c, keys, w, e.wire, n);
      } else {
        ForgeryRejected(c, keys, w.recvSeq, e.wire);
      }
    }
  }

  /**
    Ordered delivery. With fewer than 2^32 calls, against any network that cannot forge,
    the accepted payloads are at every moment a prefix of those sent.
   */
  lemma {:induction false} OrderedDelivery(c: SM.Crypto, keys: (seq<U8>, seq<U8>), es: seq<Event>)
    requires SM.Inverts(c) && |keys.0| == SM.AES_KEY_SIZE
    requires Network(c, keys, es) && |Run(c, keys, es).calls| < TWO_32
    ensures InStep(Run(c, keys, es))
  {
    if es == [] {
      CounterSucc(0);
    } else {
      var init := es[..|es| - 1];
      forall k | 0 <= k < |init| ensures Possible(c, keys, Run(c, keys, init[..k]), init[k]) {
        assert init[..k] == es[..k] && init[k] == es[k];
      }
      OrderedDelivery(c, keys, init);
      StepInStep(c, keys, Run(c, keys, init), es[|es| - 1]);
    }
  }

  /** A frame delivered as it was sent, at its turn, is accepted: nothing authentic is lost. */
  lemma InOrderAccepted(c: SM.Crypto, keys: (seq<U8>, seq<U8>), n: nat, s: Sent)
    requires SM.Inverts(c) && |keys.0| == SM.AES_KEY_SIZE && Sendable(c, keys, n, s)
    ensures Accept(c, keys, Counter(n), WireOf(c, keys, n, s)) == (Counter(n + 1), Ok(s.payload))
  {
    SM.GateRoundTrip(c, keys.1, SignedBytes(c, keys, n, s));
    SM.GateExactly(c, keys.1, WireOf(c, keys, n, s), SignedBytes(c, keys, n, s));
    AcceptsExactlyInTurn(c, keys, n, s, n, WireOf(c, keys, n, s));
  }

  lemma ReplayAcceptedAt(c: SM.Crypto, keys: (seq<U8>, seq<U8>), n: nat, s: Sent, k: nat)
    requires SM.Inverts(c) && |keys.0| == SM.AES_KEY_SIZE && Sendable(c, keys, n, s)
    requires k % TWO_32 == n % TWO_32
    ensures Accept(c, keys, Counter(k), WireOf(c, keys, n, s)).1 == Ok(s.payload)
  {
    SM.GateRoundTrip(c, keys.1, SignedBytes(c, keys, n, s));
    SM.GateExactly(c, keys.1, WireOf(c, keys, n, s), SignedBytes(c, keys, n, s));
    AcceptsExactlyInTurn(c, keys, n, s, k, WireOf(c, keys, n, s));
  }

  lemma WholeTurn(n: nat)
    ensures (n + TWO_32) % TWO_32 == n % TWO_32
  {
  }

  /**
    The bound is sharp: 2^32 acceptances after a frame's own turn, the network can replay it
    and it is taken for the next one.
   */
  lemma ReplayAcceptedAfterWrap(c: SM.Crypto, keys: (seq<U8>, seq<U8>), n: nat, s: Sent)
    requires SM.Inverts(c) && |keys.0| == SM.AES_KEY_SIZE && Sendable(c, keys, n, s)
    ensures Accept(c, keys, Counter(n + TWO_32), WireOf(c, keys, n, s)).1 == Ok(s.payload)
  {
    WholeTurn(n);
    ReplayAcceptedAt(c, keys, n, s, n + TWO_32);
  }
}
