/**
  How long a discovered peer is listed: leases clamped to five minutes, goodbyes, and silence
  that counts only behind an eviction gate. Times are milliseconds of one monotone clock.
 */
module Mdns {
  import opened Bytes
  import Dns

  type Text = Dns.Text

  const TYPE_TXT := 16
  const TYPE_AAAA := 28
  const TYPE_SRV := 33
  const TYPE_NSEC := 47
  const AIRDROP_PORT: U16 := 8770
  const LOST_UNANSWERED := 3
  const LOST_AFTER := 60_000
  const MAX_LEASE := 300_000

  /** Who we are: the service browsed, the names that are ours, and our link-local address. */
  datatype Us = Us(service: Text, instances: set<Text>, address: Option<seq<U8>>)

  datatype Peer = Peer(
    host: Text, port: U16, addr: Option<seq<U8>>, lastSeen: nat, expiresAt: nat, unanswered: U32, withdrawn: bool)

  /** The table and the gate. */
  datatype Table = Table(peers: map<Text, Peer>, probeEviction: bool, evictionSince: Option<nat>)

  function Fresh(now: nat): Table { Table(map[], true, Some(now)) }

  /** `ttl_of`: a goodbye is a second, any other lease between 30 seconds and 5 minutes. */
  function Lease(ttl: U32): nat {
    if ttl == 0 then 1_000 else if ttl < 30 then 30_000 else if ttl > 300 then MAX_LEASE else ttl * 1_000
  }

  /** Any record heard, other than the service's own, can only lengthen the lease, unless it withdraws. */
  function Heard(p: Peer, ttl: U32, now: nat): Peer {
    p.(lastSeen := now, unanswered := 0,
       expiresAt := if ttl == 0 then now + Lease(ttl) else Max(p.expiresAt, now + Lease(ttl)))
  }

  function AbsorbPtr(t: map<Text, Peer>, name: Text, ttl: U32, now: nat): map<Text, Peer> {
    var p := if name in t then t[name] else Peer([], 0, None, now, now + Lease(ttl), 0, false);
    t[name := p.(lastSeen := now, unanswered := 0, expiresAt := now + Lease(ttl), withdrawn := p.withdrawn || ttl == 0)]
  }

  function AbsorbTxt(t: map<Text, Peer>, r: Dns.Record, now: nat): map<Text, Peer> {
    if r.name in t then t[r.name := Heard(t[r.name], r.ttl, now)] else t
  }

  function AbsorbSrv(t: map<Text, Peer>, packet: seq<U8>, r: Dns.Record, now: nat): map<Text, Peer> {
    if |r.rdata| < 6 || r.name !in t then t
    else
      var target := Dns.Name(packet, r.rdataAt + 6);
      var p := Heard(t[r.name], r.ttl, now);
      var high: int := r.rdata[4];
      t[r.name := p.(port := high * 0x100 + r.rdata[5], host := if target.Some? then target.value.0 else [],
                     withdrawn := p.withdrawn || r.ttl == 0)]
  }

  /** Addresses match by host. Our own drops whatever was collected under that host. */
  function AbsorbAaaa(t: map<Text, Peer>, us: Us, r: Dns.Record, now: nat): map<Text, Peer> {
    if us.address == Some(r.rdata) then map n | n in t && t[n].host != r.name :: t[n]
    else map n | n in t :: if t[n].host != [] && t[n].host == r.name then Heard(t[n], r.ttl, now).(addr := Some(r.rdata)) else t[n]
  }

  function AbsorbOne(t: map<Text, Peer>, us: Us, packet: seq<U8>, r: Dns.Record, now: nat): map<Text, Peer> {
    if r.rtype == Dns.TYPE_PTR && r.name == us.service then
      var instance := Dns.Name(packet, r.rdataAt);
      if instance.None? || instance.value.0 in us.instances then t else AbsorbPtr(t, instance.value.0, r.ttl, now)
    else if r.rtype == TYPE_TXT then AbsorbTxt(t, r, now)
    else if r.rtype == TYPE_SRV then AbsorbSrv(t, packet, r, now)
    else if r.rtype == TYPE_AAAA && |r.rdata| == 16 then AbsorbAaaa(t, us, r, now)
    else t
  }

  function AbsorbAll(t: map<Text, Peer>, us: Us, packet: seq<U8>, rs: seq<Dns.Record>, now: nat): map<Text, Peer>
    decreases |rs|
  {
    if rs == [] then t else AbsorbAll(AbsorbOne(t, us, packet, rs[0], now), us, packet, rs[1..], now)
  }

  function Asked(p: Peer): Peer { if p.unanswered == 0xFFFF_FFFF then p else p.(unanswered := p.unanswered + 1) }

  predicate Ripe(t: Table, now: nat) { t.probeEviction && t.evictionSince.Some? && t.evictionSince.value + LOST_AFTER <= now }

  /** The closure `expire` retains by. */
  predicate Keeps(p: Peer, ripe: bool, now: nat, grace: nat) {
    && !(ripe && p.unanswered >= LOST_UNANSWERED && p.lastSeen + LOST_AFTER <= now)
    && !(p.withdrawn && now >= p.expiresAt)
    && (ripe ==> now < p.expiresAt || now < p.lastSeen + grace)
  }

  datatype Event =
    | Queried(unicast: bool)
    | Probed(reached: set<Text>)
    | Absorbed(us: Us, packet: seq<U8>, records: seq<Dns.Record>)
    | Gated(enabled: bool)
    | Expired(grace: nat)
    | Forgotten

  function After(t: Table, e: Event, now: nat): Table {
    match e
    case Queried(unicast) => if unicast then t.(peers := map n | n in t.peers :: Asked(t.peers[n])) else t
    case Probed(reached) =>
      t.(peers := map n | n in t.peers :: if t.peers[n].addr.Some? && n in reached then Asked(t.peers[n]) else t.peers[n])
    case Absorbed(us, packet, records) => t.(peers := AbsorbAll(t.peers, us, packet, records, now))
    case Gated(enabled) =>
      t.(probeEviction := enabled, evictionSince := if t.probeEviction == enabled then t.evictionSince else if enabled then Some(now) else None)
    case Expired(grace) => t.(peers := map n | n in t.peers && Keeps(t.peers[n], Ripe(t, now), now, grace) :: t.peers[n])
    case Forgotten => t.(peers := map[])
  }

  class Browser {
    var peers: map<Text, Peer>
    var probeEviction: bool
    var evictionSince: Option<nat>

    function View(): Table
      reads this
    {
      Table(peers, probeEviction, evictionSince)
    }

    constructor (now: nat)
      ensures View() == Fresh(now)
    {
      peers := map[];
      probeEviction := true;
      evictionSince := Some(now);
    }

    /** A multicast query that went out; only one that must be answered counts as asking. */
    method Query(unicast: bool, now: nat)
      modifies this
      ensures View() == After(old(View()), Queried(unicast), now)
    {
      if unicast {
        peers := map n | n in peers :: Asked(peers[n]);
      }
    }

    /** `reached` are the peers the socket took a question for. */
    method Probe(reached: set<Text>, now: nat)
      modifies this
      ensures View() == After(old(View()), Probed(reached), now)
    {
      peers := map n | n in peers :: if peers[n].addr.Some? && n in reached then Asked(peers[n]) else peers[n];
    }

    method Absorb(us: Us, packet: seq<U8>, records: seq<Dns.Record>, now: nat)
      modifies this
      ensures View() == After(old(View()), Absorbed(us, packet, records), now)
    {
      hide AbsorbOne;
      for i := 0 to |records|
        invariant AbsorbAll(peers, us, packet, records[i..], now) == AbsorbAll(old(peers), us, packet, records, now)
        invariant probeEviction == old(probeEviction) && evictionSince == old(evictionSince)
      {
        assert records[i..][1..] == records[i + 1..];
        peers := AbsorbOne(peers, us, packet, records[i], now);
      }
      assert records[|records|..] == [];
    }

    /** Only a change of the flag touches the clock: opening sets it, closing clears it. */
    method SetProbeEviction(enabled: bool, now: nat)
      modifies this
      ensures View() == After(old(View()), Gated(enabled), now)
    {
      if probeEviction != enabled {
        evictionSince := if enabled then Some(now) else None;
      }
      probeEviction := enabled;
    }

    method Expire(grace: nat, now: nat)
      modifies this
      ensures View() == After(old(View()), Expired(grace), now)
    {
      var ripe := probeEviction && evictionSince.Some? && evictionSince.value + LOST_AFTER <= now;
      peers := map n | n in peers && Keeps(peers[n], ripe, now, grace) :: peers[n];
    }

    method ForgetPeers(now: nat)
      modifies this
      ensures View() == After(old(View()), Forgotten, now)
    {
      peers := map[];
    }
  }

  // -------------------------------------------------------------------------- runs ---

  datatype Stamped = Stamped(event: Event, at: nat)

  predicate Ordered(start: nat, log: seq<Stamped>) {
    forall i :: 0 <= i < |log| ==> start <= log[i].at && (i > 0 ==> log[i - 1].at <= log[i].at)
  }

  function Last(start: nat, log: seq<Stamped>): nat { if log == [] then start else log[|log| - 1].at }

  function Run(start: nat, log: seq<Stamped>): Table {
    if log == [] then Fresh(start)
    else After(Run(start, log[..|log| - 1]), log[|log| - 1].event, log[|log| - 1].at)
  }

  /** Where the gate stands after a history. */
  predicate Open(log: seq<Stamped>) {
    log == [] || (if log[|log| - 1].event.Gated? then log[|log| - 1].event.enabled else Open(log[..|log| - 1]))
  }

  /** The gate has stood open at every moment after `since`. */
  ghost predicate OpenAfter(log: seq<Stamped>, since: nat) {
    forall k :: 0 <= k <= |log| && (k == |log| || log[k].at > since) ==> Open(log[..k])
  }

  /** A record by which a peer takes back its own name. */
  predicate Withdraws(us: Us, packet: seq<U8>, r: Dns.Record, name: Text) {
    r.ttl == 0
    && ((r.rtype == Dns.TYPE_PTR && r.name == us.service && Dns.Name(packet, r.rdataAt).Some? && Dns.Name(packet, r.rdataAt).value.0 == name)
        || (r.rtype == TYPE_SRV && r.name == name))
  }

  ghost predicate SaidGoodbye(log: seq<Stamped>, name: Text) {
    exists k, j ::
      (0 <= k < |log| && log[k].event.Absorbed? && 0 <= j < |log[k].event.records|
       && Withdraws(log[k].event.us, log[k].event.packet, log[k].event.records[j], name))
  }

  // Leases.

  ghost predicate Leased(t: map<Text, Peer>, now: nat) {
    forall n :: n in t ==> t[n].lastSeen <= now && t[n].expiresAt <= t[n].lastSeen + MAX_LEASE
  }

  lemma LeaseOne(t: map<Text, Peer>, us: Us, packet: seq<U8>, r: Dns.Record, now: nat)
    requires Leased(t, now)
    ensures Leased(AbsorbOne(t, us, packet, r, now), now)
  {
    hide Dns.Name;
  }

  lemma {:induction false} LeaseAll(t: map<Text, Peer>, us: Us, packet: seq<U8>, rs: seq<Dns.Record>, now: nat)
    requires Leased(t, now)
    ensures Leased(AbsorbAll(t, us, packet, rs, now), now)
    decreases |rs|
  {
    hide AbsorbOne, Leased;
    if rs != [] {
      LeaseOne(t, us, packet, rs[0], now);
      LeaseAll(AbsorbOne(t, us, packet, rs[0], now), us, packet, rs[1..], now);
    }
  }

  lemma LeaseAfter(t: Table, e: Event, now: nat)
    requires Leased(t.peers, now)
    ensures Leased(After(t, e, now).peers, now)
  {
    hide AbsorbAll;
    if e.Absorbed? {
      LeaseAll(t.peers, e.us, e.packet, e.records, now);
    }
  }

  /** On a monotone clock no lease ever ends more than five minutes past the peer's last word. The listing may: see `RemovedForCause`. */
  lemma {:induction false} NoLongLease(start: nat, log: seq<Stamped>)
    requires Ordered(start, log)
    ensures Leased(Run(start, log).peers, Last(start, log))
    decreases |log|
  {
    hide After;
    if log != [] {
      NoLongLease(start, log[..|log| - 1]);
      LeaseAfter(Run(start, log[..|log| - 1]), log[|log| - 1].event, log[|log| - 1].at);
    }
  }

  /** A goodbye is a second; any other lease is what was said, between half a minute and five minutes. */
  lemma LeaseMeans(ttl: U32)
    ensures ttl == 0 ==> Lease(ttl) == 1_000
    ensures ttl != 0 ==> 30_000 <= Lease(ttl) <= 300_000 && (30 <= ttl <= 300 ==> Lease(ttl) == ttl * 1_000)
    ensures 0 < ttl <= 30 ==> Lease(ttl) == 30_000
    ensures ttl >= 300 ==> Lease(ttl) == 300_000
  {
  }

  /** Whether a record speaks of a listed peer: for its name, or for the host it gave. */
  predicate Concerns(us: Us, packet: seq<U8>, r: Dns.Record, name: Text, p: Peer) {
    || (r.rtype == 12 && r.name == us.service && name !in us.instances
        && Dns.Name(packet, r.rdataAt).Some? && Dns.Name(packet, r.rdataAt).value.0 == name)
    || (r.rtype == 16 && r.name == name)
    || (r.rtype == 33 && r.name == name && |r.rdata| >= 6)
    || (r.rtype == 28 && r.name == p.host && p.host != [] && |r.rdata| == 16 && us.address != Some(r.rdata))
  }

  /**
    What one record does to one listed peer: one that speaks of it is a sign of life, which only
    a goodbye, or a new announcement of the name itself, can make its lease end sooner for; any
    other leaves it alone, but that our own address takes everyone listed under its host.
   */
  lemma SignOfLife(t: map<Text, Peer>, us: Us, packet: seq<U8>, r: Dns.Record, now: nat, name: Text)
    requires name in t
    ensures var t', p := AbsorbOne(t, us, packet, r, now), t[name];
      var ours := r.rtype == 28 && |r.rdata| == 16 && us.address == Some(r.rdata) && p.host == r.name;
      && (name !in t' <==> ours)
      && (!Concerns(us, packet, r, name, p) && !ours ==> t'[name] == p)
      && (Concerns(us, packet, r, name, p) ==>
            && t'[name].lastSeen == now && t'[name].unanswered == 0
            && t'[name].withdrawn == (p.withdrawn || (r.ttl == 0 && (r.rtype == 12 || r.rtype == 33)))
            && t'[name].expiresAt == (if r.ttl == 0 || r.rtype == 12 then now + Lease(r.ttl) else Max(p.expiresAt, now + Lease(r.ttl))))
  {
    hide Dns.Name, Lease;
  }

  /** What counts as asking a peer in vain: a query that must be answered, or a probe its address took; up to the most that can be counted. */
  lemma AskingCounts(t: Table, e: Event, now: nat, name: Text)
    requires name in t.peers && (e.Queried? || e.Probed?)
    ensures var t', p := After(t, e, now), t.peers[name];
      var asked := (e.Queried? && e.unicast) || (e.Probed? && name in e.reached && p.addr.Some?);
      && t'.peers.Keys == t.peers.Keys && t'.probeEviction == t.probeEviction && t'.evictionSince == t.evictionSince
      && t'.peers[name] == (if asked && p.unanswered < 0xFFFF_FFFF then p.(unanswered := p.unanswered + 1) else p)
  {
  }

  /** Who is dropped by an expiry, and who not, to the millisecond. */
  lemma DroppedExactly(t: Table, now: nat, grace: nat, name: Text)
    requires name in t.peers
    ensures var p := t.peers[name];
      var ripe := t.probeEviction && t.evictionSince.Some? && now - t.evictionSince.value >= 60_000;
      (name !in After(t, Expired(grace), now).peers <==>
        || (p.withdrawn && now >= p.expiresAt)
        || (ripe && p.unanswered >= 3 && now - p.lastSeen >= 60_000)
        || (ripe && now >= p.expiresAt && now - p.lastSeen >= grace))
    ensures name in After(t, Expired(grace), now).peers ==> After(t, Expired(grace), now).peers[name] == t.peers[name]
  {
  }

  // Goodbyes.

  lemma WithdrawnOne(t: map<Text, Peer>, us: Us, packet: seq<U8>, r: Dns.Record, now: nat, name: Text)
    requires var t' := AbsorbOne(t, us, packet, r, now); name in t' && t'[name].withdrawn
    ensures (name in t && t[name].withdrawn) || Withdraws(us, packet, r, name)
  {
    hide Dns.Name;
  }

  lemma {:induction false} WithdrawnAll(t: map<Text, Peer>, us: Us, packet: seq<U8>, rs: seq<Dns.Record>, now: nat, name: Text)
    requires var t' := AbsorbAll(t, us, packet, rs, now); name in t' && t'[name].withdrawn
    ensures (name in t && t[name].withdrawn) || exists j :: 0 <= j < |rs| && Withdraws(us, packet, rs[j], name)
    decreases |rs|
  {
    hide AbsorbOne, Withdraws;
    if rs != [] {
      var t1 := AbsorbOne(t, us, packet, rs[0], now);
      WithdrawnAll(t1, us, packet, rs[1..], now, name);
      if name in t1 && t1[name].withdrawn {
        WithdrawnOne(t, us, packet, rs[0], now, name);
      } else {
        var j :| 0 <= j < |rs[1..]| && Withdraws(us, packet, rs[1..][j], name);
        assert rs[j + 1] == rs[1..][j];
      }
    }
  }

  lemma GoodbyeStays(log: seq<Stamped>, s: Stamped, name: Text)
    requires SaidGoodbye(log, name)
    ensures SaidGoodbye(log + [s], name)
  {
    hide Withdraws;
    var k, j :| 0 <= k < |log| && log[k].event.Absorbed? && 0 <= j < |log[k].event.records|
      && Withdraws(log[k].event.us, log[k].event.packet, log[k].event.records[j], name);
    assert (log + [s])[k] == log[k];
  }

  lemma {:induction false} WithdrawnMeans(start: nat, log: seq<Stamped>, name: Text)
    requires name in Run(start, log).peers && Run(start, log).peers[name].withdrawn
    ensures SaidGoodbye(log, name)
    decreases |log|
  {
    hide AbsorbAll, SaidGoodbye, Keeps, Ripe;
    if log != [] {
      var init, last := log[..|log| - 1], log[|log| - 1];
      var t := Run(start, init);
      assert log == init + [last];
      if name in t.peers && t.peers[name].withdrawn {
        WithdrawnMeans(start, init, name);
        GoodbyeStays(init, last, name);
      } else {
        var e := last.event;
        assert e.Absorbed?;
        WithdrawnAll(t.peers, e.us, e.packet, e.records, last.at, name);
        var j :| 0 <= j < |e.records| && Withdraws(e.us, e.packet, e.records[j], name);
        GoodbyeNow(log, j, name);
      }
    }
  }

  lemma GoodbyeNow(log: seq<Stamped>, j: nat, name: Text)
    requires log != [] && log[|log| - 1].event.Absorbed? && j < |log[|log| - 1].event.records|
    requires var e := log[|log| - 1].event; Withdraws(e.us, e.packet, e.records[j], name)
    ensures SaidGoodbye(log, name)
  {
    hide Withdraws;
  }

  // The gate.

  lemma OpenMore(log: seq<Stamped>, s: Stamped, since: nat)
    ensures OpenAfter(log + [s], since) ==> Open(log + [s]) && (s.at > since ==> OpenAfter(log, since))
    ensures OpenAfter(log, since) && Open(log + [s]) ==> OpenAfter(log + [s], since)
    ensures s.at <= since && Open(log + [s]) && (forall k :: 0 <= k < |log| ==> log[k].at <= since) ==> OpenAfter(log + [s], since)
  {
    hide Open;
    var more := log + [s];
    assert more[..|log|] == log && more[..|more|] == more;
    assert forall k :: 0 <= k <= |log| ==> more[..k] == log[..k];
    assert log[..|log|] == log;
  }

  lemma OpenNow(log: seq<Stamped>, since: nat)
    requires OpenAfter(log, since)
    ensures Open(log)
  {
    assert log[..|log|] == log;
  }

  /** `eviction_since` is when the gate last opened: it has been open ever since, and not a moment longer. */
  ghost predicate GateKept(t: Table, start: nat, log: seq<Stamped>) {
    && (t.probeEviction <==> Open(log)) && (t.evictionSince.Some? <==> t.probeEviction)
    && (t.evictionSince.Some? ==> (
          start <= t.evictionSince.value <= Last(start, log) && OpenAfter(log, t.evictionSince.value)))
    && (forall since: nat :: start <= since && OpenAfter(log, since) ==> t.evictionSince.Some? && t.evictionSince.value <= since)
  }

  lemma GateStep(t: Table, start: nat, log: seq<Stamped>, s: Stamped)
    requires GateKept(t, start, log) && start <= s.at && Last(start, log) <= s.at && forall k :: 0 <= k < |log| ==> log[k].at <= s.at
    ensures GateKept(After(t, s.event, s.at), start, log + [s])
  {
    hide OpenAfter, AbsorbAll, Ripe, Keeps;
    var t', more := After(t, s.event, s.at), log + [s];
    assert more[..|more| - 1] == log && more[|more| - 1] == s;
    if t'.evictionSince.Some? {
      OpenMore(log, s, t'.evictionSince.value);
    }
    forall since: nat | start <= since && OpenAfter(more, since) ensures t'.evictionSince.Some? && t'.evictionSince.value <= since {
      OpenMore(log, s, since);
      if s.at > since {
        OpenNow(log, since);
      }
    }
  }

  lemma GateFirst(start: nat)
    ensures GateKept(Run(start, []), start, [])
  {
    assert OpenAfter([], start);
  }

  lemma OrderedInit(start: nat, log: seq<Stamped>)
    requires Ordered(start, log) && log != []
    ensures Ordered(start, log[..|log| - 1])
    ensures start <= log[|log| - 1].at && Last(start, log[..|log| - 1]) <= log[|log| - 1].at == Last(start, log)
  {
  }

  lemma {:induction false} NoneLater(start: nat, log: seq<Stamped>)
    requires Ordered(start, log)
    ensures forall k :: 0 <= k < |log| ==> log[k].at <= Last(start, log)
    decreases |log|
  {
    if log != [] {
      hide Ordered;
      OrderedInit(start, log);
      NoneLater(start, log[..|log| - 1]);
    }
  }

  lemma {:induction false} GateRun(start: nat, log: seq<Stamped>)
    requires Ordered(start, log)
    ensures GateKept(Run(start, log), start, log)
    decreases |log|
  {
    hide After, GateKept, Open, Ordered;
    if log == [] {
      GateFirst(start);
    } else {
      var init, last := log[..|log| - 1], log[|log| - 1];
      OrderedInit(start, log);
      GateRun(start, init);
      NoneLater(start, init);
      GateStep(Run(start, init), start, init, last);
      assert init + [last] == log;
    }
  }

  /** The gate has been open without a break for a whole minute. */
  ghost predicate OpenForAMinute(start: nat, log: seq<Stamped>, now: nat) {
    exists since: nat :: start <= since && since + LOST_AFTER <= now && OpenAfter(log, since)
  }

  /** `eviction_ripe` is right: it holds exactly when the history says so. */
  lemma RipeMeans(start: nat, log: seq<Stamped>, now: nat)
    requires Ordered(start, log)
    ensures Ripe(Run(start, log), now) <==> OpenForAMinute(start, log, now)
  {
    hide OpenAfter, Run, Open;
    GateRun(start, log);
    var t := Run(start, log);
    if Ripe(t, now) {
      assert OpenAfter(log, t.evictionSince.value);
    }
  }

  /** `expire` removes a peer only on its own goodbye, or behind a gate open for a whole minute. */
  lemma RemovedForCause(start: nat, log: seq<Stamped>, now: nat, grace: nat, name: Text)
    requires Ordered(start, log) && name in Run(start, log).peers
    requires name !in After(Run(start, log), Expired(grace), now).peers
    ensures SaidGoodbye(log, name) || OpenForAMinute(start, log, now)
  {
    hide Run, SaidGoodbye, OpenForAMinute;
    RipeMeans(start, log, now);
    if Run(start, log).peers[name].withdrawn {
      WithdrawnMeans(start, log, name);
    }
  }

  /** A peer not heard from for five minutes, behind a gate open for one, does not survive the next `expire`. */
  lemma SilentIsRemoved(start: nat, log: seq<Stamped>, now: nat, grace: nat, name: Text)
    requires Ordered(start, log) && OpenForAMinute(start, log, now) && grace <= MAX_LEASE
    requires name in Run(start, log).peers ==> Run(start, log).peers[name].lastSeen + MAX_LEASE <= now
    ensures name !in After(Run(start, log), Expired(grace), now).peers
  {
    hide Run, OpenForAMinute;
    RipeMeans(start, log, now);
    NoLongLease(start, log);
  }

  // ------------------------------------------------------ one device hears another ---

  /** What a device says of itself; the NSEC and TXT data are whatever they are. */
  datatype Device = Device(
    enumeration: Text, service: Text, instance: Text, host: Text, reverse: Text, addr: Option<seq<U8>>,
    txt: seq<U8>, instanceTypes: seq<U8>, hostTypes: seq<U8>)

  /** Priority and weight of nothing, the port, and where to find us. */
  function SrvData(host: Text): seq<U8> { BigEndian(0, 2) + (BigEndian(0, 2) + (BigEndian(AIRDROP_PORT, 2) + Dns.EncodeName(host))) }

  /** `records_with_ttl`: an announcement, or with no time to live a goodbye. */
  function RecordsWithTtl(d: Device, ttl: U32): seq<Dns.Answer> {
    [Dns.Answer(d.enumeration, Dns.TYPE_PTR, ttl, Dns.EncodeName(d.service), false),
     Dns.Answer(d.service, Dns.TYPE_PTR, ttl, Dns.EncodeName(d.instance), false),
     Dns.Answer(d.instance, TYPE_SRV, ttl, SrvData(d.host), true),
     Dns.Answer(d.instance, TYPE_TXT, ttl, d.txt, true)]
    + (if d.addr.None? then []
       else
         [Dns.Answer(d.host, TYPE_AAAA, ttl, d.addr.value, true),
          Dns.Answer(d.reverse, Dns.TYPE_PTR, ttl, Dns.EncodeName(d.host), true)])
    + [Dns.Answer(d.instance, TYPE_NSEC, ttl, d.instanceTypes, true), Dns.Answer(d.host, TYPE_NSEC, ttl, d.hostTypes, true)]
  }

  /** Names DNS can carry, a service that is not the enumeration's or the reverse lookup's, and an address of 16 octets. */
  predicate Sound(d: Device) {
    && Dns.Encodable(d.enumeration) && Dns.Encodable(d.service) && Dns.Encodable(d.instance) && Dns.Encodable(d.host)
    && Dns.Encodable(d.reverse) && d.host != [] && d.service != d.enumeration && d.service != d.reverse
    && (d.addr.Some? ==> |d.addr.value| == 16)
    && |d.txt| < 0x1_0000 && |d.instanceTypes| < 0x1_0000 && |d.hostTypes| < 0x1_0000
  }

  ghost predicate AllReadAs(buf: seq<U8>, rs: seq<Dns.Record>, answers: seq<Dns.Answer>) {
    |rs| == |answers| && forall k :: 0 <= k < |rs| ==> Dns.ReadAs(buf, rs[k], answers[k])
  }

  /** What the table says of a device once its records are in. */
  function Entry(t: map<Text, Peer>, d: Device, ttl: U32, now: nat): Peer {
    Peer(d.host, 8770,
      if d.addr.Some? then d.addr else if d.instance in t then t[d.instance].addr else None,
      now, now + Lease(ttl), 0, ttl == 0 || (d.instance in t && t[d.instance].withdrawn))
  }

  /** Listed so, and nobody else changed but who gives the same host. */
  ghost predicate Lists(t: map<Text, Peer>, t': map<Text, Peer>, name: Text, host: Text, p: Peer) {
    && t'.Keys == t.Keys + {name} && t'[name] == p
    && (forall n :: n in t && n != name && t[n].host != host ==> t'[n] == t[n])
  }

  lemma NothingHeard(t: map<Text, Peer>, us: Us, buf: seq<U8>, r: Dns.Record, now: nat)
    requires r.rtype == TYPE_NSEC || (r.rtype == Dns.TYPE_PTR && r.name != us.service)
    ensures AbsorbOne(t, us, buf, r, now) == t
  {
  }

  lemma NameHeard(t: map<Text, Peer>, us: Us, buf: seq<U8>, r: Dns.Record, a: Dns.Answer, name: Text, now: nat)
    requires Dns.ReadAs(buf, r, a) && a.rtype == Dns.TYPE_PTR && a.name == us.service && a.rdata == Dns.EncodeName(name)
    requires Dns.Encodable(name)
    ensures AbsorbOne(t, us, buf, r, now) == if name in us.instances then t else AbsorbPtr(t, name, a.ttl, now)
  {
    hide Dns.Name, Dns.EncodeName, Dns.Encodable, AbsorbPtr;
    Dns.NameBack(buf, r.rdataAt, name);
  }

  lemma SrvRead(buf: seq<U8>, at: nat, host: Text)
    requires At(buf, at, SrvData(host)) && Dns.Encodable(host)
    ensures |SrvData(host)| >= 6 && SrvData(host)[4] == 0x22 && SrvData(host)[5] == 0x42
    ensures Dns.Name(buf, at + 6).Some? && Dns.Name(buf, at + 6).value.0 == host
  {
    hide Dns.Name, Dns.EncodeName, Dns.Encodable, BigEndian, At;
    Dns.TwoOctets(AIRDROP_PORT);
    AtSplit(buf, at, BigEndian(0, 2), BigEndian(0, 2) + (BigEndian(AIRDROP_PORT, 2) + Dns.EncodeName(host)));
    AtSplit(buf, at + 2, BigEndian(0, 2), BigEndian(AIRDROP_PORT, 2) + Dns.EncodeName(host));
    AtSplit(buf, at + 4, BigEndian(AIRDROP_PORT, 2), Dns.EncodeName(host));
    Dns.NameBack(buf, at + 6, host);
  }

  lemma SrvHeard(t: map<Text, Peer>, us: Us, buf: seq<U8>, r: Dns.Record, a: Dns.Answer, host: Text, now: nat)
    requires Dns.ReadAs(buf, r, a) && a.rtype == TYPE_SRV && a.rdata == SrvData(host) && Dns.Encodable(host)
    ensures AbsorbOne(t, us, buf, r, now)
      == if a.name !in t then t
         else var p := Heard(t[a.name], a.ttl, now);
           t[a.name := p.(port := 8770, host := host, withdrawn := p.withdrawn || a.ttl == 0)]
  {
    hide Dns.Name, Dns.Encodable, SrvData, Heard, At;
    SrvRead(buf, r.rdataAt, host);
  }

  lemma TxtHeard(t: map<Text, Peer>, us: Us, buf: seq<U8>, r: Dns.Record, a: Dns.Answer, now: nat)
    requires Dns.ReadAs(buf, r, a) && a.rtype == TYPE_TXT
    ensures AbsorbOne(t, us, buf, r, now) == if a.name in t then t[a.name := Heard(t[a.name], a.ttl, now)] else t
  {
    hide Heard;
  }

  lemma AddressHeard(t: map<Text, Peer>, us: Us, buf: seq<U8>, r: Dns.Record, a: Dns.Answer, now: nat)
    requires Dns.ReadAs(buf, r, a) && a.rtype == TYPE_AAAA && |a.rdata| == 16 && a.name != []
    ensures var t' := AbsorbOne(t, us, buf, r, now);
      && (us.address == Some(a.rdata) ==> t'.Keys <= t.Keys)
      && (us.address != Some(a.rdata) ==> t'.Keys == t.Keys)
      && (us.address != Some(a.rdata) ==>
        forall n :: n in t ==> t'[n] == if t[n].host == a.name then Heard(t[n], a.ttl, now).(addr := Some(a.rdata)) else t[n])
  {
    hide Heard;
  }

  lemma Absorbs(t: map<Text, Peer>, us: Us, buf: seq<U8>, rs: seq<Dns.Record>, i: nat, now: nat)
    requires i <= |rs|
    ensures i < |rs| ==> AbsorbAll(t, us, buf, rs[i..], now) == AbsorbAll(AbsorbOne(t, us, buf, rs[i], now), us, buf, rs[i + 1..], now)
    ensures i == |rs| ==> AbsorbAll(t, us, buf, rs[i..], now) == t
  {
    hide AbsorbOne;
    if i < |rs| {
      assert rs[i..][1..] == rs[i + 1..];
    }
  }

  /** After the names, before the address. */
  function Named(t: map<Text, Peer>, d: Device, ttl: U32, now: nat): Peer {
    Entry(t, d.(addr := None), ttl, now)
  }

  lemma NamesHeard(t: map<Text, Peer>, us: Us, buf: seq<U8>, rs: seq<Dns.Record>, d: Device, ttl: U32, now: nat)
    requires Sound(d) && d.service == us.service && AllReadAs(buf, rs, RecordsWithTtl(d, ttl))
    ensures AbsorbAll(t, us, buf, rs, now)
      == AbsorbAll(if d.instance in us.instances then Renamed(t, d, ttl, now) else t[d.instance := Named(t, d, ttl, now)], us, buf, rs[4..], now)
  {
    hide AbsorbAll, AbsorbOne, Dns.EncodeName, Dns.Encodable, SrvData, Dns.ReadAs;
    var answers := RecordsWithTtl(d, ttl);
    assert rs[0..] == rs;
    Absorbs(t, us, buf, rs, 0, now);
    assert Dns.ReadAs(buf, rs[0], answers[0]) && Dns.ReadAs(buf, rs[1], answers[1]);
    assert Dns.ReadAs(buf, rs[2], answers[2]) && Dns.ReadAs(buf, rs[3], answers[3]);
    ReadName(buf, rs[0], answers[0]);
    NothingHeard(t, us, buf, rs[0], now);
    Absorbs(t, us, buf, rs, 1, now);
    NameHeard(t, us, buf, rs[1], answers[1], d.instance, now);
    var t1 := if d.instance in us.instances then t else AbsorbPtr(t, d.instance, ttl, now);
    Absorbs(t1, us, buf, rs, 2, now);
    SrvHeard(t1, us, buf, rs[2], answers[2], d.host, now);
    var t2 := AbsorbOne(t1, us, buf, rs[2], now);
    Absorbs(t2, us, buf, rs, 3, now);
    TxtHeard(t2, us, buf, rs[3], answers[3], now);
    var t3 := AbsorbOne(t2, us, buf, rs[3], now);
    if d.instance in us.instances {
      assert t3 == Renamed(t, d, ttl, now);
    } else {
      assert t3 == t[d.instance := Named(t, d, ttl, now)];
    }
  }

  /** A name of our own is never added, and is kept up where somebody once listed it. */
  function Renamed(t: map<Text, Peer>, d: Device, ttl: U32, now: nat): map<Text, Peer> {
    if d.instance !in t then t
    else
      var p := Heard(t[d.instance], ttl, now);
      t[d.instance := Heard(p.(port := 8770, host := d.host, withdrawn := p.withdrawn || ttl == 0), ttl, now)]
  }

  lemma ReadName(buf: seq<U8>, r: Dns.Record, a: Dns.Answer)
    requires Dns.ReadAs(buf, r, a)
    ensures r.name == a.name && r.rtype == a.rtype && r.ttl == a.ttl && r.rdata == a.rdata
  {
  }

  /** The table after the addresses: the last four records, or the last two. */
  lemma RestHeard(t: map<Text, Peer>, us: Us, buf: seq<U8>, rs: seq<Dns.Record>, d: Device, ttl: U32, now: nat)
    requires Sound(d) && d.service == us.service && AllReadAs(buf, rs, RecordsWithTtl(d, ttl))
    ensures AbsorbAll(t, us, buf, rs[4..], now) == if d.addr.Some? then AbsorbOne(t, us, buf, rs[4], now) else t
  {
    hide AbsorbAll, AbsorbOne, Dns.EncodeName, Dns.Encodable, SrvData, Dns.ReadAs;
    var answers := RecordsWithTtl(d, ttl);
    forall k | 0 <= k < |rs| ensures rs[k].name == answers[k].name && rs[k].rtype == answers[k].rtype {
      ReadName(buf, rs[k], answers[k]);
    }
    var t' := if d.addr.Some? then AbsorbOne(t, us, buf, rs[4], now) else t;
    Absorbs(t, us, buf, rs, 4, now);
    Absorbs(t', us, buf, rs, 5, now);
    Absorbs(t', us, buf, rs, 6, now);
    if d.addr.Some? {
      NothingHeard(t', us, buf, rs[5], now);
      NothingHeard(t', us, buf, rs[6], now);
      NothingHeard(t', us, buf, rs[7], now);
      Absorbs(t', us, buf, rs, 7, now);
      Absorbs(t', us, buf, rs, 8, now);
    } else {
      NothingHeard(t', us, buf, rs[4], now);
      NothingHeard(t', us, buf, rs[5], now);
    }
  }

  lemma RecordsSendable(d: Device, ttl: U32)
    requires Sound(d)
    ensures forall k :: 0 <= k < |RecordsWithTtl(d, ttl)| ==> Dns.Sendable(RecordsWithTtl(d, ttl)[k])
  {
    hide Dns.Encodable, Dns.EncodeName, BigEndian;
    Dns.EncodedLength(d.service);
    Dns.EncodedLength(d.instance);
    Dns.EncodedLength(d.host);
    forall n: Text | Dns.Encodable(n) ensures |n| <= 255 {
      Dns.EncodableLength(n);
    }
  }

  lemma PacketRead(d: Device, ttl: U32) returns (buf: seq<U8>, rs: seq<Dns.Record>)
    requires Sound(d)
    ensures buf == Dns.Response(Dns.AllBytes(RecordsWithTtl(d, ttl))) && Dns.Parse(buf) == Some(Dns.Message([], rs))
    ensures AllReadAs(buf, rs, RecordsWithTtl(d, ttl))
  {
    hide Dns.Parse, Dns.AllBytes, Dns.Response, Sound, Dns.Sendable, At;
    RecordsSendable(d, ttl);
    var answers := RecordsWithTtl(d, ttl);
    Dns.ResponseRoundTrip(answers);
    buf := Dns.Response(Dns.AllBytes(answers));
    rs := Dns.Parse(buf).value.records;
  }

  /**
    One device hears another, bytes and all: whatever the table held, the packet of an
    announcement lists the sender under its own host, port and address with that lease, marks it
    withdrawn if it was a goodbye, and touches no one who does not claim the same host.
   */
  lemma AnnouncementListed(t: map<Text, Peer>, us: Us, d: Device, ttl: U32, now: nat)
    requires Sound(d) && d.service == us.service && d.instance !in us.instances && (d.addr.Some? ==> us.address != d.addr)
    ensures var buf := Dns.Response(Dns.AllBytes(RecordsWithTtl(d, ttl)));
      && Dns.Parse(buf).Some?
      && Lists(t, AbsorbAll(t, us, buf, Dns.Parse(buf).value.records, now), d.instance, d.host, Entry(t, d, ttl, now))
  {
    hide Dns.Parse, Dns.Response, Dns.AllBytes, RecordsWithTtl, AbsorbAll, AbsorbOne, Dns.Encodable;
    var buf, rs := PacketRead(d, ttl);
    NamesHeard(t, us, buf, rs, d, ttl, now);
    var t1 := t[d.instance := Named(t, d, ttl, now)];
    RestHeard(t1, us, buf, rs, d, ttl, now);
    if d.addr.Some? {
      AddressRecord(d, ttl);
      AddressHeard(t1, us, buf, rs[4], RecordsWithTtl(d, ttl)[4], now);
    }
  }

  lemma AddressRecord(d: Device, ttl: U32)
    requires d.addr.Some?
    ensures var answers := RecordsWithTtl(d, ttl);
      |answers| == 8 && answers[4].name == d.host && answers[4].rtype == TYPE_AAAA && answers[4].ttl == ttl && answers[4].rdata == d.addr.value
  {
  }

  /** Our own announcement, echoed back, lists nobody. */
  lemma OwnEchoIgnored(t: map<Text, Peer>, us: Us, d: Device, ttl: U32, now: nat)
    requires Sound(d) && d.service == us.service && d.instance in us.instances && us.address == d.addr
    ensures var buf := Dns.Response(Dns.AllBytes(RecordsWithTtl(d, ttl)));
      && Dns.Parse(buf).Some?
      && AbsorbAll(t, us, buf, Dns.Parse(buf).value.records, now).Keys <= t.Keys
  {
    hide Dns.Parse, Dns.Response, Dns.AllBytes, RecordsWithTtl, AbsorbAll, AbsorbOne, Dns.Encodable;
    var buf, rs := PacketRead(d, ttl);
    NamesHeard(t, us, buf, rs, d, ttl, now);
    var t1 := Renamed(t, d, ttl, now);
    assert t1.Keys == t.Keys;
    RestHeard(t1, us, buf, rs, d, ttl, now);
    if d.addr.Some? {
      AddressRecord(d, ttl);
      AddressHeard(t1, us, buf, rs[4], RecordsWithTtl(d, ttl)[4], now);
    }
  }

  /** A device that says goodbye is gone from the first expiry a second later, whatever gate or grace. */
  lemma GoodbyeHonoured(t: Table, us: Us, d: Device, now: nat, later: nat, grace: nat)
    requires Sound(d) && d.service == us.service && d.instance !in us.instances && (d.addr.Some? ==> us.address != d.addr)
    requires later >= now + 1_000
    ensures var buf := Dns.Response(Dns.AllBytes(RecordsWithTtl(d, 0)));
      && Dns.Parse(buf).Some?
      && d.instance !in After(After(t, Absorbed(us, buf, Dns.Parse(buf).value.records), now), Expired(grace), later).peers
  {
    hide Dns.Parse, Dns.Response, Dns.AllBytes, RecordsWithTtl, AbsorbAll, Dns.Encodable, Sound;
    AnnouncementListed(t.peers, us, d, 0, now);
  }
}
