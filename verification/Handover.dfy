/**
  Moving a live connection to a new socket. The two machines, and the two together over an old
  and a new channel whose frames may overtake each other.
 */
module Handover {
  import opened Bytes
  import U = Upgrade
  import F = Frames

  type Path = U.UpgradePath

  datatype Channel = Old | New

  datatype Reason = PeerFailure | CouldNotJoin | NoWayToReachHost | ConnectedWithoutOffer

  datatype Effect =
    | Send(channel: Channel, bytes: seq<U8>)
    | Join(path: Path)
    | CloseOld
    | Moved
    | Quit(why: Reason)

  datatype State = Idle | Offered | Joining | Introduced | Draining | Upgraded | Abandoned

  datatype Event = FrameEvent(channel: Channel, frame: U.Frame) | Connected | JoinFailed

  // ---------------------------------------------------------------------- machines ---

  datatype HostView = HostView(state: State, path: Path, staFrequency: I32) {
    function Abandon(why: Reason): (HostView, seq<Effect>) { (this.(state := State.Abandoned), [Quit(why)]) }
  }

  function HostStart(s: HostView): (HostView, seq<Effect>) {
    (s.(state := Offered), [Send(Old, U.BuildPathAvailable(s.path))])
  }

  function HostOn(s: HostView, e: Event): (HostView, seq<Effect>) {
    if s.state.Upgraded? || s.state.Abandoned? then (s, [])
    else match e
      case JoinFailed => s.Abandon(CouldNotJoin)
      case Connected => (s, [])
      case FrameEvent(channel, f) =>
        if channel.New? && f.ClientIntroduction? then
          (s.(state := Draining),
           (if s.path.supportsIntroductionAck then [Send(New, U.BuildClientIntroductionAck())] else []) + [Send(Old, U.BuildLastWrite())])
        else if channel.Old? && f.SafeToClosePrior? then
          (s.(state := State.Upgraded), [Send(Old, U.BuildSafeToClose(s.staFrequency)), CloseOld, Moved])
        else if f.Failure? then s.Abandon(PeerFailure)
        else (s, [])
  }

  datatype JoinerView = JoinerView(state: State, endpointId: string, path: Option<Path>) {
    function Abandon(why: Reason): (JoinerView, seq<Effect>) { (this.(state := State.Abandoned), [Quit(why)]) }
  }

  predicate Usable(p: Path) { p.wifi.Some? || p.lan.Some? }

  function JoinerOn(s: JoinerView, e: Event): (JoinerView, seq<Effect>) {
    if s.state.Upgraded? || s.state.Abandoned? then (s, [])
    else match e
      case Connected =>
        if !s.state.Joining? then s.Abandon(ConnectedWithoutOffer)
        else if s.path.Some? && s.path.value.supportsIntroductionAck then
          (s.(state := Introduced), [Send(New, U.BuildClientIntroduction(s.endpointId))])
        else (s.(state := Draining), [Send(New, U.BuildClientIntroduction(s.endpointId)), Send(Old, U.BuildLastWrite())])
      case JoinFailed => (s.(state := State.Abandoned), [Send(Old, U.BuildFailure()), Quit(CouldNotJoin)])
      case FrameEvent(channel, f) =>
        if channel.Old? && f.PathAvailable? then
          if !Usable(f.path) then s.Abandon(NoWayToReachHost)
          else (s.(state := Joining, path := Some(f.path)), [Join(f.path)])
        else if channel.New? && f.ClientIntroductionAck? then
          if s.state.Introduced? then (s.(state := Draining), [Send(Old, U.BuildLastWrite())]) else (s, [])
        else if channel.Old? && f.LastWriteToPrior? then (s, [Send(Old, U.BuildSafeToClose(U.STA_FREQUENCY_NOT_SET))])
        else if channel.Old? && f.SafeToClosePrior? then (s.(state := State.Upgraded), [CloseOld, Moved])
        else if f.Failure? then s.Abandon(PeerFailure)
        else (s, [])
  }

  class Host {
    var state: State
    const path: Path
    const staFrequency: I32

    function View(): HostView
      reads this
    {
      HostView(state, path, staFrequency)
    }

    constructor (path: Path, staFrequency: I32)
      ensures View() == HostView(Idle, path, staFrequency)
    {
      this.path := path;
      this.staFrequency := staFrequency;
      state := Idle;
    }

    method Start() returns (effects: seq<Effect>)
      modifies this
      ensures (View(), effects) == HostStart(old(View()))
    {
      hide U.BuildPathAvailable;
      state := Offered;
      effects := [Send(Old, U.BuildPathAvailable(path))];
    }

    method On(event: Event) returns (effects: seq<Effect>)
      modifies this
      ensures (View(), effects) == HostOn(old(View()), event)
    {
      hide U.BuildClientIntroductionAck, U.BuildLastWrite, U.BuildSafeToClose;
      if state.Upgraded? || state.Abandoned? {
        return [];
      }
      match event
      case FrameEvent(New, ClientIntroduction(_)) =>
        state := Draining;
        effects := [];
        if path.supportsIntroductionAck {
          effects := effects + [Send(New, U.BuildClientIntroductionAck())];
          assert effects == [Send(New, U.BuildClientIntroductionAck())];
        }
        effects := effects + [Send(Old, U.BuildLastWrite())];
      case FrameEvent(Old, LastWriteToPrior) => return [];
      case FrameEvent(Old, SafeToClosePrior(_)) =>
        state := State.Upgraded;
        return [Send(Old, U.BuildSafeToClose(staFrequency)), CloseOld, Moved];
      case FrameEvent(_, Failure) => effects := Abandon(PeerFailure);
      case JoinFailed => effects := Abandon(CouldNotJoin);
      case _ => return [];
    }

    method Abandon(why: Reason) returns (effects: seq<Effect>)
      modifies this
      ensures (View(), effects) == old(View()).Abandon(why)
    {
      state := State.Abandoned;
      effects := [Quit(why)];
    }
  }

  class Joiner {
    var state: State
    const endpointId: string
    var path: Option<Path>

    function View(): JoinerView
      reads this
    {
      JoinerView(state, endpointId, path)
    }

    constructor (endpointId: string)
      ensures View() == JoinerView(Idle, endpointId, None)
    {
      this.endpointId := endpointId;
      path := None;
      state := Idle;
    }

    method On(event: Event) returns (effects: seq<Effect>)
      modifies this
      ensures (View(), effects) == JoinerOn(old(View()), event)
    {
      hide U.BuildClientIntroduction, U.BuildLastWrite, U.BuildSafeToClose, U.BuildFailure;
      if state.Upgraded? || state.Abandoned? {
        return [];
      }
      match event
      case FrameEvent(Old, PathAvailable(offer)) =>
        if offer.wifi.None? && offer.lan.None? {
          effects := Abandon(NoWayToReachHost);
          return;
        }
        state := Joining;
        path := Some(offer);
        return [Join(offer)];
      case Connected =>
        if !state.Joining? {
          effects := Abandon(ConnectedWithoutOffer);
          return;
        }
        effects := [Send(New, U.BuildClientIntroduction(endpointId))];
        if path.Some? && path.value.supportsIntroductionAck {
          state := Introduced;
        } else {
          state := Draining;
          effects := effects + [Send(Old, U.BuildLastWrite())];
          assert effects == [Send(New, U.BuildClientIntroduction(endpointId)), Send(Old, U.BuildLastWrite())];
        }
      case FrameEvent(New, ClientIntroductionAck) =>
        if !state.Introduced? {
          return [];
        }
        state := Draining;
        return [Send(Old, U.BuildLastWrite())];
      case FrameEvent(Old, LastWriteToPrior) => return [Send(Old, U.BuildSafeToClose(U.STA_FREQUENCY_NOT_SET))];
      case FrameEvent(Old, SafeToClosePrior(_)) =>
        state := State.Upgraded;
        return [CloseOld, Moved];
      case JoinFailed =>
        state := State.Abandoned;
        return [Send(Old, U.BuildFailure()), Quit(CouldNotJoin)];
      case FrameEvent(_, Failure) => effects := Abandon(PeerFailure);
      case _ => return [];
    }

    method Abandon(why: Reason) returns (effects: seq<Effect>)
      modifies this
      ensures (View(), effects) == old(View()).Abandon(why)
    {
      state := State.Abandoned;
      effects := [Quit(why)];
    }
  }

  // ------------------------------------------------------ host and joiner together ---

  /** What the far end makes of the bytes, if anything. Reading is a function, so it may be done on sending. */
  function Hear(b: seq<U8>): Option<U.Frame> {
    match F.Parse(b)
    case Ok(BandwidthUpgrade(body)) => (match U.Parse(body) case Ok(f) => Some(f) case Err(_) => None)
    case _ => None
  }

  /** One direction of one channel: everything ever sent on it, and how much has been delivered. */
  datatype Wire = Wire(sent: seq<Option<U.Frame>>, read: nat) {
    predicate Waiting() { read < |sent| && sent[read].Some? }

    function Head(): U.Frame
      requires Waiting()
    {
      sent[read].value
    }

    function Pop(): Wire { this.(read := read + 1) }
  }

  function PostOne(w: Wire, channel: Channel, e: Effect): Wire {
    if e.Send? && e.channel == channel then w.(sent := w.sent + [Hear(e.bytes)]) else w
  }

  function Post(w: Wire, channel: Channel, effects: seq<Effect>): Wire
    decreases |effects|
  {
    if effects == [] then w else Post(PostOne(w, channel, effects[0]), channel, effects[1..])
  }

  datatype Side = HostSide | JoinerSide

  datatype Action = Start | Deliver(to: Side, channel: Channel) | Report(joined: bool)

  /** `report` is what the caller said of its attempt to join, once it has said it. */
  datatype Sys = Sys(host: HostView, joiner: JoinerView, oldDown: Wire, newDown: Wire, oldUp: Wire, newUp: Wire, report: Option<bool>)

  const EMPTY := Wire([], 0)

  function Initial(path: Path, frequency: I32, id: string): Sys {
    Sys(HostView(Idle, path, frequency), JoinerView(Idle, id, None), EMPTY, EMPTY, EMPTY, EMPTY, None)
  }

  function Toward(s: Sys, to: Side, channel: Channel): Wire {
    match (to, channel)
    case (HostSide, Old) => s.oldUp
    case (HostSide, New) => s.newUp
    case (JoinerSide, Old) => s.oldDown
    case (JoinerSide, New) => s.newDown
  }

  function Taken(s: Sys, to: Side, channel: Channel): Sys {
    match (to, channel)
    case (HostSide, Old) => s.(oldUp := s.oldUp.Pop())
    case (HostSide, New) => s.(newUp := s.newUp.Pop())
    case (JoinerSide, Old) => s.(oldDown := s.oldDown.Pop())
    case (JoinerSide, New) => s.(newDown := s.newDown.Pop())
  }

  function ByHost(s: Sys, r: (HostView, seq<Effect>)): Sys {
    s.(host := r.0, oldDown := Post(s.oldDown, Old, r.1), newDown := Post(s.newDown, New, r.1))
  }

  function ByJoiner(s: Sys, r: (JoinerView, seq<Effect>)): Sys {
    s.(joiner := r.0, oldUp := Post(s.oldUp, Old, r.1), newUp := Post(s.newUp, New, r.1))
  }

  /** The host starts once; each wire delivers in order; the caller reports once, after it was told to join. */
  predicate Legal(s: Sys, a: Action) {
    match a
    case Start => s.host.state.Idle?
    case Deliver(to, channel) => Toward(s, to, channel).Waiting()
    case Report(_) => s.joiner.state.Joining? && s.report.None?
  }

  function Effects(s: Sys, a: Action): seq<Effect>
    requires Legal(s, a)
  {
    match a
    case Start => HostStart(s.host).1
    case Deliver(to, channel) =>
      var e := FrameEvent(channel, Toward(s, to, channel).Head());
      if to.HostSide? then HostOn(s.host, e).1 else JoinerOn(s.joiner, e).1
    case Report(joined) => JoinerOn(s.joiner, if joined then Connected else JoinFailed).1
  }

  function Next(s: Sys, a: Action): Sys
    requires Legal(s, a)
  {
    match a
    case Start => ByHost(s, HostStart(s.host))
    case Deliver(to, channel) =>
      var e := FrameEvent(channel, Toward(s, to, channel).Head());
      if to.HostSide? then ByHost(Taken(s, to, channel), HostOn(s.host, e)) else ByJoiner(Taken(s, to, channel), JoinerOn(s.joiner, e))
    case Report(joined) => ByJoiner(s, JoinerOn(s.joiner, if joined then Connected else JoinFailed)).(report := Some(joined))
  }

  function Run(start: Sys, actions: seq<Action>): Option<Sys> {
    if actions == [] then Some(start)
    else
      var s :- Run(start, actions[..|actions| - 1]);
      var a := actions[|actions| - 1];
      if Legal(s, a) then Some(Next(s, a)) else None
  }

  // --------------------------------------------------------------------- invariant ---

  ghost predicate Sendable(path: Path, id: string) { OfferFits(path) && IntroductionFits(id) }

  ghost predicate OfferFits(path: Path) { |U.BuildPathAvailable(path)| < TWO_64 }

  ghost predicate IntroductionFits(id: string) { |U.BuildClientIntroduction(id)| < TWO_64 }

  // What the far end hears of each frame.

  lemma OfferHeard(path: Path)
    requires OfferFits(path)
    ensures Hear(U.BuildPathAvailable(path)) == Some(U.PathAvailable(path))
  {
    hide F.Parse, U.Parse, U.BuildPathAvailable;
    U.PathAvailableRoundTrip(path);
  }

  lemma IntroductionHeard(id: string)
    requires IntroductionFits(id)
    ensures Hear(U.BuildClientIntroduction(id)) == Some(U.ClientIntroduction(id))
  {
    hide F.Parse, U.Parse, U.BuildClientIntroduction;
    U.ClientIntroductionRoundTrip(id);
  }

  lemma ReleaseHeard(frequency: I32)
    ensures Hear(U.BuildSafeToClose(frequency)) == Some(U.SafeToClosePrior(frequency))
  {
    hide F.Parse, U.Parse, U.BuildSafeToClose;
    U.SafeToCloseRoundTrip(frequency);
  }

  lemma BareHeard()
    ensures Hear(U.BuildClientIntroductionAck()) == ACK && Hear(U.BuildLastWrite()) == LAST && Hear(U.BuildFailure()) == FAILURE
  {
    hide F.Parse, U.Parse, U.BuildClientIntroductionAck, U.BuildLastWrite, U.BuildFailure;
    U.BareRoundTrips();
  }

  const LAST := Some(U.LastWriteToPrior)
  const RELEASE := Some(U.SafeToClosePrior(U.STA_FREQUENCY_NOT_SET))
  const FAILURE := Some(U.Failure)
  const ACK := Some(U.ClientIntroductionAck)

  predicate Is1(q: seq<Option<U.Frame>>, a: Option<U.Frame>) { |q| == 1 && q[0] == a }

  predicate Is2(q: seq<Option<U.Frame>>, a: Option<U.Frame>, b: Option<U.Frame>) { |q| == 2 && q[0] == a && q[1] == b }

  predicate Is3(q: seq<Option<U.Frame>>, a: Option<U.Frame>, b: Option<U.Frame>, c: Option<U.Frame>) {
    |q| == 3 && q[0] == a && q[1] == b && q[2] == c
  }

  function OfferOf(h: HostView): Option<U.Frame> { Some(U.PathAvailable(h.path)) }

  /** All the host has put on the old channel, by state. */
  ghost predicate HostSaid(h: HostView, sent: seq<Option<U.Frame>>) {
    match h.state
    case Idle => sent == []
    case Draining => Is2(sent, OfferOf(h), LAST)
    case Upgraded => Is3(sent, OfferOf(h), LAST, Some(U.SafeToClosePrior(h.staFrequency)))
    case _ => Is1(sent, OfferOf(h))
  }

  ghost predicate Down(s: Sys) {
    && HostSaid(s.host, s.oldDown.sent) && s.oldDown.read <= |s.oldDown.sent|
    && (if s.host.path.supportsIntroductionAck && (s.host.state.Draining? || s.host.state.Upgraded?)
        then Is1(s.newDown.sent, ACK) else s.newDown.sent == [])
    && s.newDown.read <= |s.newDown.sent|
  }

  /** What the joiner has put on the old channel: its two frames cross in either order, where an ack was promised. */
  ghost predicate JoinerSaid(s: Sys) {
    var sent := s.oldUp.sent;
    if s.report == Some(false) then Is1(sent, FAILURE)
    else if s.report.None? then sent == []
    else if s.oldDown.read < 2 then
      (sent == [] && s.joiner.state.Introduced?) || (Is1(sent, LAST) && s.joiner.state.Draining?)
    else
      || (Is2(sent, LAST, RELEASE) && !s.joiner.state.Introduced?)
      || (s.host.path.supportsIntroductionAck
          && ((Is1(sent, RELEASE) && !s.joiner.state.Draining?) || (Is2(sent, RELEASE, LAST) && !s.joiner.state.Introduced?)))
  }

  ghost predicate Up(s: Sys) {
    && JoinerSaid(s) && s.oldUp.read <= |s.oldUp.sent|
    && (if s.report == Some(true) then Is1(s.newUp.sent, Some(U.ClientIntroduction(s.joiner.endpointId))) else s.newUp.sent == [])
    && s.newUp.read <= |s.newUp.sent|
  }

  /** Whether the host has taken the joiner's release off the wire. */
  predicate Released(w: Wire) {
    (w.read >= 1 && |w.sent| >= 1 && w.sent[0] == RELEASE) || (w.read >= 2 && |w.sent| >= 2 && w.sent[1] == RELEASE)
  }

  ghost predicate HostStands(s: Sys) {
    match s.host.state
    case Idle => true
    case Offered => s.newUp.read == 0 && !Released(s.oldUp) && (s.report == Some(false) ==> s.oldUp.read == 0)
    case Draining => s.newUp.read == 1 && !Released(s.oldUp)
    case Upgraded => s.newUp.read == 1 && Released(s.oldUp)
    case Abandoned => s.report == Some(false) && s.oldUp.read == 1
    case _ => false
  }

  ghost predicate JoinerStands(s: Sys) {
    && s.joiner.path == (if s.oldDown.read >= 1 && Usable(s.host.path) then Some(s.host.path) else None)
    && match s.joiner.state
       case Idle => s.oldDown.read == 0 && s.report.None?
       case Joining => s.oldDown.read == 1 && s.report.None? && Usable(s.host.path)
       case Introduced =>
         1 <= s.oldDown.read <= 2 && s.report == Some(true) && Usable(s.host.path)
         && s.host.path.supportsIntroductionAck && s.newDown.read == 0
       case Draining =>
         1 <= s.oldDown.read <= 2 && s.report == Some(true) && Usable(s.host.path)
         && (s.host.path.supportsIntroductionAck ==> s.newDown.read == 1)
       case Upgraded => s.oldDown.read == 3 && s.report == Some(true) && Usable(s.host.path)
       case Abandoned => s.oldDown.read == 1 && s.report == (if Usable(s.host.path) then Some(false) else None)
       case _ => false
  }

  ghost predicate Inv(s: Sys) { Down(s) && Up(s) && HostStands(s) && JoinerStands(s) }

  lemma PostSingle(w: Wire, channel: Channel, e: Effect)
    ensures Post(w, channel, [e]) == PostOne(w, channel, e)
  {
    hide PostOne;
    assert [e][1..] == [];
  }

  lemma PostPair(w: Wire, channel: Channel, d: Effect, e: Effect)
    ensures Post(w, channel, [d, e]) == PostOne(PostOne(w, channel, d), channel, e)
  {
    hide PostOne;
    PostSingle(PostOne(w, channel, d), channel, e);
    assert [d, e][1..] == [e];
  }

  lemma PostShort(w: Wire, channel: Channel, effects: seq<Effect>)
    requires |effects| <= 3
    ensures |effects| == 0 ==> Post(w, channel, effects) == w
    ensures |effects| == 1 ==> Post(w, channel, effects) == PostOne(w, channel, effects[0])
    ensures |effects| == 2 ==> Post(w, channel, effects) == PostOne(PostOne(w, channel, effects[0]), channel, effects[1])
    ensures |effects| == 3 ==>
      Post(w, channel, effects) == PostOne(PostOne(PostOne(w, channel, effects[0]), channel, effects[1]), channel, effects[2])
  {
    hide PostOne;
    if |effects| == 1 {
      PostSingle(w, channel, effects[0]);
      assert effects == [effects[0]];
    } else if |effects| == 2 {
      PostPair(w, channel, effects[0], effects[1]);
      assert effects == [effects[0], effects[1]];
    } else if |effects| == 3 {
      PostPair(PostOne(w, channel, effects[0]), channel, effects[1], effects[2]);
      assert effects[1..] == [effects[1], effects[2]];
    }
  }

  // What each step does, once its effects are on the wires.

  lemma NextStart(s: Sys)
    requires Legal(s, Start) && OfferFits(s.host.path)
    ensures Next(s, Start) == s.(host := s.host.(state := Offered), oldDown := s.oldDown.(sent := s.oldDown.sent + [OfferOf(s.host)]))
  {
    hide Hear, Post, OfferFits, IntroductionFits, U.BuildPathAvailable;
    OfferHeard(s.host.path);
    PostShort(s.oldDown, Old, HostStart(s.host).1);
    PostShort(s.newDown, New, HostStart(s.host).1);
  }

  lemma NextHostOld(s: Sys)
    requires Legal(s, Deliver(HostSide, Old))
    requires s.oldUp.Head().LastWriteToPrior? || s.oldUp.Head().SafeToClosePrior? || s.oldUp.Head().Failure?
    ensures var t := s.(oldUp := s.oldUp.Pop());
      Next(s, Deliver(HostSide, Old)) ==
        if s.host.state.Upgraded? || s.host.state.Abandoned? || s.oldUp.Head().LastWriteToPrior? then t
        else if s.oldUp.Head().Failure? then t.(host := s.host.(state := State.Abandoned))
        else t.(host := s.host.(state := State.Upgraded),
          oldDown := s.oldDown.(sent := s.oldDown.sent + [Some(U.SafeToClosePrior(s.host.staFrequency))]))
  {
    hide Hear, Post, OfferFits, IntroductionFits, U.BuildSafeToClose, U.BuildLastWrite, U.BuildClientIntroductionAck;
    ReleaseHeard(s.host.staFrequency);
    var effects := HostOn(s.host, FrameEvent(Old, s.oldUp.Head())).1;
    PostShort(s.oldDown, Old, effects);
    PostShort(s.newDown, New, effects);
  }

  lemma NextHostNew(s: Sys)
    requires Legal(s, Deliver(HostSide, New)) && s.newUp.Head().ClientIntroduction?
    ensures var t := s.(newUp := s.newUp.Pop());
      Next(s, Deliver(HostSide, New)) ==
        if s.host.state.Upgraded? || s.host.state.Abandoned? then t
        else t.(host := s.host.(state := Draining), oldDown := s.oldDown.(sent := s.oldDown.sent + [LAST]),
          newDown := if s.host.path.supportsIntroductionAck then s.newDown.(sent := s.newDown.sent + [ACK]) else s.newDown)
  {
    hide Hear, Post, OfferFits, IntroductionFits, U.BuildSafeToClose, U.BuildLastWrite, U.BuildClientIntroductionAck;
    BareHeard();
    var effects := HostOn(s.host, FrameEvent(New, s.newUp.Head())).1;
    PostShort(s.oldDown, Old, effects);
    PostShort(s.newDown, New, effects);
  }

  lemma NextJoinerOld(s: Sys)
    requires Legal(s, Deliver(JoinerSide, Old))
    requires s.oldDown.Head().PathAvailable? || s.oldDown.Head().LastWriteToPrior? || s.oldDown.Head().SafeToClosePrior?
    ensures var t, f := s.(oldDown := s.oldDown.Pop()), s.oldDown.Head();
      Next(s, Deliver(JoinerSide, Old)) ==
        if s.joiner.state.Upgraded? || s.joiner.state.Abandoned? then t
        else match f
          case PathAvailable(path) =>
            if Usable(path) then t.(joiner := s.joiner.(state := Joining, path := Some(path)))
            else t.(joiner := s.joiner.(state := State.Abandoned))
          case LastWriteToPrior => t.(oldUp := s.oldUp.(sent := s.oldUp.sent + [RELEASE]))
          case _ => t.(joiner := s.joiner.(state := State.Upgraded))
  {
    hide Hear, Post, OfferFits, IntroductionFits, U.BuildSafeToClose, U.BuildLastWrite, U.BuildClientIntroduction;
    ReleaseHeard(U.STA_FREQUENCY_NOT_SET);
    var effects := JoinerOn(s.joiner, FrameEvent(Old, s.oldDown.Head())).1;
    PostShort(s.oldUp, Old, effects);
    PostShort(s.newUp, New, effects);
  }

  lemma NextJoinerNew(s: Sys)
    requires Legal(s, Deliver(JoinerSide, New)) && s.newDown.Head().ClientIntroductionAck?
    ensures var t := s.(newDown := s.newDown.Pop());
      Next(s, Deliver(JoinerSide, New)) ==
        if s.joiner.state.Introduced? then t.(joiner := s.joiner.(state := Draining), oldUp := s.oldUp.(sent := s.oldUp.sent + [LAST]))
        else t
  {
    hide Hear, Post, OfferFits, IntroductionFits, U.BuildSafeToClose, U.BuildLastWrite, U.BuildClientIntroduction;
    BareHeard();
    var effects := JoinerOn(s.joiner, FrameEvent(New, s.newDown.Head())).1;
    PostShort(s.oldUp, Old, effects);
    PostShort(s.newUp, New, effects);
  }

  lemma NextReport(s: Sys, joined: bool)
    requires Legal(s, Report(joined)) && IntroductionFits(s.joiner.endpointId)
    ensures var t := s.(report := Some(joined));
      Next(s, Report(joined)) ==
        if !joined then t.(joiner := s.joiner.(state := State.Abandoned), oldUp := s.oldUp.(sent := s.oldUp.sent + [FAILURE]))
        else
          var u := t.(newUp := s.newUp.(sent := s.newUp.sent + [Some(U.ClientIntroduction(s.joiner.endpointId))]));
          if s.joiner.path.Some? && s.joiner.path.value.supportsIntroductionAck then u.(joiner := s.joiner.(state := Introduced))
          else u.(joiner := s.joiner.(state := Draining), oldUp := s.oldUp.(sent := s.oldUp.sent + [LAST]))
  {
    hide Hear, Post, OfferFits, IntroductionFits, U.BuildFailure, U.BuildLastWrite, U.BuildClientIntroduction;
    BareHeard();
    IntroductionHeard(s.joiner.endpointId);
    var effects := JoinerOn(s.joiner, if joined then Connected else JoinFailed).1;
    PostShort(s.oldUp, Old, effects);
    PostShort(s.newUp, New, effects);
  }

  lemma InvStart(s: Sys)
    requires Inv(s) && Legal(s, Start) && OfferFits(s.host.path)
    ensures var t := Next(s, Start);
      Inv(t) && t.joiner == s.joiner && t.host.path == s.host.path && Spent(t) == Spent(s) + 1
  {
    hide Next, OfferFits, IntroductionFits, Hear;
    NextStart(s);
  }

  lemma InvHostOld(s: Sys)
    requires Inv(s) && Legal(s, Deliver(HostSide, Old))
    ensures var t := Next(s, Deliver(HostSide, Old));
      Inv(t) && t.joiner == s.joiner && t.host.path == s.host.path && Spent(t) == Spent(s) + 1
  {
    hide Next, OfferFits, IntroductionFits, Hear;
    NextHostOld(s);
  }

  lemma InvHostNew(s: Sys)
    requires Inv(s) && Legal(s, Deliver(HostSide, New))
    ensures var t := Next(s, Deliver(HostSide, New));
      Inv(t) && t.joiner == s.joiner && t.host.path == s.host.path && Spent(t) == Spent(s) + 1
  {
    hide Next, OfferFits, IntroductionFits, Hear;
    NextHostNew(s);
  }

  lemma InvJoinerOld(s: Sys)
    requires Inv(s) && Legal(s, Deliver(JoinerSide, Old))
    ensures var t := Next(s, Deliver(JoinerSide, Old));
      Inv(t) && t.joiner.endpointId == s.joiner.endpointId && t.host == s.host && Spent(t) == Spent(s) + 1
  {
    hide Next, OfferFits, IntroductionFits, Hear;
    NextJoinerOld(s);
  }

  lemma InvJoinerNew(s: Sys)
    requires Inv(s) && Legal(s, Deliver(JoinerSide, New))
    ensures var t := Next(s, Deliver(JoinerSide, New));
      Inv(t) && t.joiner.endpointId == s.joiner.endpointId && t.host == s.host && Spent(t) == Spent(s) + 1
  {
    hide Next, OfferFits, IntroductionFits, Hear;
    NextJoinerNew(s);
  }

  lemma InvReport(s: Sys, joined: bool)
    requires Inv(s) && Legal(s, Report(joined)) && IntroductionFits(s.joiner.endpointId)
    ensures var t := Next(s, Report(joined));
      Inv(t) && t.joiner.endpointId == s.joiner.endpointId && t.host == s.host && Spent(t) == Spent(s) + 1
  {
    hide Next, OfferFits, IntroductionFits, Hear;
    NextReport(s, joined);
  }

  lemma InvStep(s: Sys, a: Action)
    requires Inv(s) && Legal(s, a) && Sendable(s.host.path, s.joiner.endpointId)
    ensures Inv(Next(s, a)) && Next(s, a).host.path == s.host.path && Next(s, a).joiner.endpointId == s.joiner.endpointId
    ensures Spent(Next(s, a)) == Spent(s) + 1
  {
    hide Next, OfferFits, IntroductionFits, Inv, Spent, Legal;
    match a
    case Start => InvStart(s);
    case Deliver(HostSide, Old) => InvHostOld(s);
    case Deliver(HostSide, New) => InvHostNew(s);
    case Deliver(JoinerSide, Old) => InvJoinerOld(s);
    case Deliver(JoinerSide, New) => InvJoinerNew(s);
    case Report(joined) => InvReport(s, joined);
  }

  // ---------------------------------------------------------------------- theorems ---

  lemma InvInitial(path: Path, frequency: I32, id: string)
    ensures Inv(Initial(path, frequency, id))
  {
  }

  lemma {:induction false} Invariant(path: Path, frequency: I32, id: string, actions: seq<Action>)
    requires Sendable(path, id) && Run(Initial(path, frequency, id), actions).Some?
    ensures var s := Run(Initial(path, frequency, id), actions).value;
      Inv(s) && s.host.path == path && s.joiner.endpointId == id
    ensures Spent(Run(Initial(path, frequency, id), actions).value) == |actions|
    decreases |actions|
  {
    hide Inv, Legal, Next, Sendable, Spent;
    var start := Initial(path, frequency, id);
    if actions == [] {
      InvInitial(path, frequency, id);
      SpentInitial(path, frequency, id);
    } else {
      var init, a := actions[..|actions| - 1], actions[|actions| - 1];
      Invariant(path, frequency, id, init);
      var s := Run(start, init).value;
      InvStep(s, a);
    }
  }

  /** How far a run has come: every step starts the host, delivers one frame or reports once. */
  function Spent(s: Sys): nat {
    (if s.host.state.Idle? then 0 else 1) + (if s.report.None? then 0 else 1)
    + s.oldDown.read + s.newDown.read + s.oldUp.read + s.newUp.read
  }

  lemma SpentInitial(path: Path, frequency: I32, id: string)
    ensures Spent(Initial(path, frequency, id)) == 0
  {
  }

  /** Every run ends: at most nine steps, in any order the channels allow. */
  lemma RunsEnd(path: Path, frequency: I32, id: string, actions: seq<Action>)
    requires Sendable(path, id) && Run(Initial(path, frequency, id), actions).Some?
    ensures |actions| <= 9
  {
    hide Run, Sendable;
    Invariant(path, frequency, id, actions);
  }

  /**
    The two sides never disagree on the outcome, and a host that has moved was joined: the
    caller connected, and the introduction that came over the new channel was the joiner's.
   */
  lemma Agreement(path: Path, frequency: I32, id: string, actions: seq<Action>)
    requires Sendable(path, id) && Run(Initial(path, frequency, id), actions).Some?
    ensures var s := Run(Initial(path, frequency, id), actions).value;
      && !(s.host.state.Upgraded? && s.joiner.state.Abandoned?)
      && !(s.host.state.Abandoned? && s.joiner.state.Upgraded?)
      && (s.joiner.state.Upgraded? ==> s.host.state.Upgraded?)
      && (s.host.state.Upgraded? ==>
            s.report == Some(true) && s.newUp.read == 1 && s.newUp.sent == [Some(U.ClientIntroduction(id))])
      && (s.joiner.state.Upgraded? ==> s.joiner.path == Some(path))
  {
    hide Run, Sendable;
    Invariant(path, frequency, id, actions);
  }

  ghost predicate Stuck(s: Sys) { forall a: Action :: !Legal(s, a) }

  lemma StuckMeans(s: Sys)
    requires Stuck(s)
    ensures !s.host.state.Idle? && !(s.joiner.state.Joining? && s.report.None?)
    ensures !s.oldDown.Waiting() && !s.newDown.Waiting() && !s.oldUp.Waiting() && !s.newUp.Waiting()
  {
    assert !Legal(s, Start) && !Legal(s, Report(true));
    assert !Legal(s, Deliver(HostSide, Old)) && !Legal(s, Deliver(HostSide, New));
    assert !Legal(s, Deliver(JoinerSide, Old)) && !Legal(s, Deliver(JoinerSide, New));
  }

  /**
    How a run that can go no further ends. With a way to reach the host in the offer, both
    sides have moved if the join worked and both have given up if it did not. Without one
    the joiner gives up in silence and the host goes on waiting.
   */
  lemma Outcome(path: Path, frequency: I32, id: string, actions: seq<Action>)
    requires Sendable(path, id) && Run(Initial(path, frequency, id), actions).Some?
    requires Stuck(Run(Initial(path, frequency, id), actions).value)
    ensures var s := Run(Initial(path, frequency, id), actions).value;
      if Usable(path) then
        s.report.Some? && var end := if s.report.value then State.Upgraded else State.Abandoned; s.host.state == end && s.joiner.state == end
      else s.report.None? && s.host.state == Offered && s.joiner.state == State.Abandoned
  {
    hide Run, Sendable;
    Invariant(path, frequency, id, actions);
    StuckMeans(Run(Initial(path, frequency, id), actions).value);
    hide Stuck, Legal;
  }

  predicate Closes(s: Sys, a: Action) { Legal(s, a) && CloseOld in Effects(s, a) }

  /** The step delivers the peer's release: the joiner's was an answer to the host's last write, the host's was sent in moving. */
  ghost predicate LetGo(s: Sys, a: Action) {
    match a
    case Deliver(HostSide, Old) =>
      s.oldUp.Waiting() && s.oldUp.Head().SafeToClosePrior? && s.report == Some(true)
      && s.oldDown.read >= 2 && |s.oldDown.sent| >= 2 && s.oldDown.sent[1] == LAST
    case Deliver(JoinerSide, Old) => s.oldDown.Waiting() && s.oldDown.Head().SafeToClosePrior? && s.host.state.Upgraded?
    case _ => false
  }

  /**
    Neither side closes the old channel before the other has let it go. The host closes on
    the joiner's release, which the joiner sent on hearing the host's own last write; the
    joiner closes on the host's, which the host sent as it closed.
   */
  lemma ClosesAfterRelease(path: Path, frequency: I32, id: string, actions: seq<Action>, a: Action)
    requires Sendable(path, id) && Run(Initial(path, frequency, id), actions).Some?
    requires Closes(Run(Initial(path, frequency, id), actions).value, a)
    ensures LetGo(Run(Initial(path, frequency, id), actions).value, a)
  {
    hide Run, Sendable, Closes, LetGo, Inv;
    Invariant(path, frequency, id, actions);
    ClosesOnRelease(Run(Initial(path, frequency, id), actions).value, a);
  }

  lemma ClosesOnRelease(s: Sys, a: Action)
    requires Inv(s) && Closes(s, a)
    ensures LetGo(s, a)
  {
    hide Inv, U.BuildPathAvailable, U.BuildClientIntroduction, U.BuildClientIntroductionAck, U.BuildLastWrite, U.BuildSafeToClose, U.BuildFailure;
    assert a == Deliver(HostSide, Old) || a == Deliver(JoinerSide, Old);
    assert Toward(s, a.to, Old).Head().SafeToClosePrior?;
    ReleaseMeans(s, a.to);
  }

  lemma ReleaseMeans(s: Sys, to: Side)
    requires Inv(s) && Toward(s, to, Old).Waiting() && Toward(s, to, Old).Head().SafeToClosePrior?
    ensures LetGo(s, Deliver(to, Old))
  {
  }

  lemma RunMore(start: Sys, actions: seq<Action>, a: Action)
    requires Run(start, actions).Some? && Legal(Run(start, actions).value, a)
    ensures Run(start, actions + [a]) == Some(Next(Run(start, actions).value, a))
  {
    assert (actions + [a])[..|actions + [a]| - 1] == actions;
  }

  lemma RunNothing(start: Sys)
    ensures Run(start, []) == Some(start)
  {
  }

  lemma Step(start: Sys, actions: seq<Action>, s: Sys, a: Action) returns (more: seq<Action>)
    requires Run(start, actions) == Some(s) && Legal(s, a)
    ensures more == actions + [a] && Run(start, more) == Some(Next(s, a))
  {
    hide Run, Next, Legal;
    RunMore(start, actions, a);
    more := actions + [a];
  }

  /** The host's last write has overtaken the promised ack: the joiner has released, and has not said its own last write. */
  lemma ReleasedFirst(path: Path, frequency: I32, id: string) returns (actions: seq<Action>, s: Sys)
    requires Sendable(path, id) && Usable(path) && path.supportsIntroductionAck
    ensures Run(Initial(path, frequency, id), actions) == Some(s)
    ensures s == Sys(HostView(Draining, path, frequency), JoinerView(Introduced, id, Some(path)),
      Wire([Some(U.PathAvailable(path)), LAST], 2), Wire([ACK], 0), Wire([RELEASE], 0), Wire([Some(U.ClientIntroduction(id))], 1), Some(true))
  {
    hide Run, OfferFits, IntroductionFits, Next, Hear;
    var start := Initial(path, frequency, id);
    actions, s := [], start;
    RunNothing(start);
    NextStart(s);
    actions := Step(start, actions, s, Start);
    s := Next(s, Start);
    NextJoinerOld(s);
    actions := Step(start, actions, s, Deliver(JoinerSide, Old));
    s := Next(s, Deliver(JoinerSide, Old));
    NextReport(s, true);
    actions := Step(start, actions, s, Report(true));
    s := Next(s, Report(true));
    NextHostNew(s);
    actions := Step(start, actions, s, Deliver(HostSide, New));
    s := Next(s, Deliver(HostSide, New));
    NextJoinerOld(s);
    actions := Step(start, actions, s, Deliver(JoinerSide, Old));
    s := Next(s, Deliver(JoinerSide, Old));
  }

  /** From there the host moves on the release alone, and the joiner moves with it, still un-acked. */
  lemma MovedWithoutLastWrite(path: Path, frequency: I32, id: string) returns (actions: seq<Action>)
    requires Sendable(path, id) && Usable(path) && path.supportsIntroductionAck
    ensures Run(Initial(path, frequency, id), actions).Some?
    ensures var s := Run(Initial(path, frequency, id), actions).value;
      s.joiner.state.Upgraded? && s.host.state.Upgraded? && LAST !in s.oldUp.sent && s.newDown.read == 0
  {
    hide Run, OfferFits, IntroductionFits, Next, Hear;
    var start := Initial(path, frequency, id);
    var s;
    actions, s := ReleasedFirst(path, frequency, id);
    NextHostOld(s);
    actions := Step(start, actions, s, Deliver(HostSide, Old));
    s := Next(s, Deliver(HostSide, Old));
    NextJoinerOld(s);
    actions := Step(start, actions, s, Deliver(JoinerSide, Old));
  }

  ghost predicate AlwaysSaysLastWrite(path: Path, frequency: I32, id: string) {
    forall actions: seq<Action> :: MovesOnlyWithLastWrite(path, frequency, id, actions)
  }

  predicate MovesOnlyWithLastWrite(path: Path, frequency: I32, id: string, actions: seq<Action>) {
    var end := Run(Initial(path, frequency, id), actions);
    end.Some? && end.value.joiner.state.Upgraded? ==> LAST in end.value.oldUp.sent
  }

  /** A joiner that moves is sure to have said LAST_WRITE exactly when the host promised no ack, or offered no way to move. */
  lemma LastWriteExactly(path: Path, frequency: I32, id: string)
    requires Sendable(path, id)
    ensures AlwaysSaysLastWrite(path, frequency, id) <==> !Usable(path) || !path.supportsIntroductionAck
  {
    hide Run, Sendable;
    if Usable(path) && path.supportsIntroductionAck {
      var actions := MovedWithoutLastWrite(path, frequency, id);
      assert !MovesOnlyWithLastWrite(path, frequency, id, actions);
    } else {
      forall actions: seq<Action> ensures MovesOnlyWithLastWrite(path, frequency, id, actions) {
        if Run(Initial(path, frequency, id), actions).Some? {
          Invariant(path, frequency, id, actions);
        }
      }
    }
  }

  /** A legal step that adds to what the joiner has sent on the old channel, its release being there already. */
  predicate WritesAfterRelease(s: Sys, a: Action) { Legal(s, a) && RELEASE in s.oldUp.sent && Next(s, a).oldUp.sent != s.oldUp.sent }

  /**
    What follows a release. The host writes nothing on the old channel once it has sent its own.
    The joiner does in one case: the ack arrives while it still waits for it, after the host's
    last write; and then it writes its own LAST_WRITE and no more.
   */
  lemma AfterRelease(path: Path, frequency: I32, id: string, actions: seq<Action>, a: Action)
    requires Sendable(path, id) && Run(Initial(path, frequency, id), actions).Some? && Legal(Run(Initial(path, frequency, id), actions).value, a)
    ensures var s := Run(Initial(path, frequency, id), actions).value;
      && (WritesAfterRelease(s, a) <==> a == Deliver(JoinerSide, New) && s.joiner.state.Introduced? && s.oldDown.read == 2)
      && (WritesAfterRelease(s, a) ==> s.oldUp.sent == [RELEASE] && Next(s, a).oldUp.sent == [RELEASE, LAST])
      && (Some(U.SafeToClosePrior(s.host.staFrequency)) in s.oldDown.sent ==> Next(s, a).oldDown.sent == s.oldDown.sent)
  {
    hide Run, Sendable, Inv, Legal, WritesAfterRelease, Next;
    Invariant(path, frequency, id, actions);
    var s := Run(Initial(path, frequency, id), actions).value;
    assert s.host.path == path && s.joiner.endpointId == id;
    if a.Start? || (a.Deliver? && a.to.HostSide?) {
      HostAfterRelease(s, a);
    } else {
      JoinerAfterRelease(s, a);
    }
  }

  lemma HostAfterRelease(s: Sys, a: Action)
    requires Inv(s) && Legal(s, a) && Sendable(s.host.path, s.joiner.endpointId)
    requires a.Start? || (a.Deliver? && a.to.HostSide?)
    ensures !WritesAfterRelease(s, a)
    ensures Some(U.SafeToClosePrior(s.host.staFrequency)) in s.oldDown.sent ==> Next(s, a).oldDown.sent == s.oldDown.sent
  {
    hide Next, OfferFits, IntroductionFits, Hear;
    match a
    case Start => NextStart(s);
    case Deliver(HostSide, Old) => NextHostOld(s);
    case Deliver(HostSide, New) => NextHostNew(s);
  }

  lemma JoinerAfterRelease(s: Sys, a: Action)
    requires Inv(s) && Legal(s, a) && Sendable(s.host.path, s.joiner.endpointId)
    requires a.Report? || (a.Deliver? && a.to.JoinerSide?)
    ensures WritesAfterRelease(s, a) <==> a == Deliver(JoinerSide, New) && s.joiner.state.Introduced? && s.oldDown.read == 2
    ensures WritesAfterRelease(s, a) ==> s.oldUp.sent == [RELEASE] && Next(s, a).oldUp.sent == [RELEASE, LAST]
    ensures Next(s, a).oldDown.sent == s.oldDown.sent
  {
    hide Next, OfferFits, IntroductionFits, Hear;
    match a
    case Deliver(JoinerSide, Old) => NextJoinerOld(s);
    case Deliver(JoinerSide, New) => NextJoinerNew(s);
    case Report(joined) => NextReport(s, joined);
  }

  /** So the host can close the old channel with a frame of the joiner's still on it: the LAST_WRITE that follows its release. */
  lemma ClosedBeforeLastWrite(path: Path, frequency: I32, id: string) returns (actions: seq<Action>)
    requires Sendable(path, id) && Usable(path) && path.supportsIntroductionAck
    ensures Run(Initial(path, frequency, id), actions).Some? && Closes(Run(Initial(path, frequency, id), actions).value, Deliver(HostSide, Old))
    ensures var s := Next(Run(Initial(path, frequency, id), actions).value, Deliver(HostSide, Old));
      s.host.state.Upgraded? && s.oldUp == Wire([RELEASE, LAST], 1)
  {
    hide Run, OfferFits, IntroductionFits, Next, Hear;
    var start := Initial(path, frequency, id);
    var s;
    actions, s := ReleasedFirst(path, frequency, id);
    NextJoinerNew(s);
    actions := Step(start, actions, s, Deliver(JoinerSide, New));
    s := Next(s, Deliver(JoinerSide, New));
    NextHostOld(s);
    assert CloseOld == Effects(s, Deliver(HostSide, Old))[1];
  }

  // ----------------------------------------------------------- what the callers are told ---

  /** Whose machine an action steps. */
  function Actor(a: Action): Side {
    match a
    case Start => HostSide
    case Deliver(to, _) => to
    case Report(_) => JoinerSide
  }

  /** The effects that are orders to the caller, in order: all but the frames. */
  function Orders(effects: seq<Effect>): seq<Effect> {
    if effects == [] then [] else (if effects[0].Send? then [] else [effects[0]]) + Orders(effects[1..])
  }

  /** Everything one side has been told to do over a run, frames to send included. */
  function Given(start: Sys, actions: seq<Action>, side: Side): seq<Effect>
    requires Run(start, actions).Some?
  {
    if actions == [] then []
    else
      var init, a := actions[..|actions| - 1], actions[|actions| - 1];
      Given(start, init, side) + if Actor(a) == side then Effects(Run(start, init).value, a) else []
  }

  /** What the host's caller has been told, by where the host is. */
  function HostOrders(state: State): seq<Effect> {
    match state
    case Upgraded => [CloseOld, Moved]
    case Abandoned => [Quit(PeerFailure)]
    case _ => []
  }

  function JoinerOrders(state: State, path: Path): seq<Effect> {
    match state
    case Idle => []
    case Upgraded => [Join(path), CloseOld, Moved]
    case Abandoned => if Usable(path) then [Join(path), Quit(CouldNotJoin)] else [Quit(NoWayToReachHost)]
    case _ => [Join(path)]
  }

  lemma {:induction false} OrdersAppend(a: seq<Effect>, b: seq<Effect>)
    ensures Orders(a + b) == Orders(a) + Orders(b)
  {
    if a == [] {
      assert a + b == b;
    } else {
      assert (a + b)[1..] == a[1..] + b;
      OrdersAppend(a[1..], b);
    }
  }

  lemma OrdersOne(a: Effect)
    ensures Orders([]) == [] && Orders([a]) == if a.Send? then [] else [a]
  {
    assert [a][1..] == [];
  }

  lemma OrdersShort(a: Effect, b: Effect, c: Effect)
    ensures Orders([]) == []
    ensures Orders([a]) == if a.Send? then [] else [a]
    ensures Orders([a, b]) == Orders([a]) + Orders([b])
    ensures Orders([a, b, c]) == Orders([a]) + Orders([b]) + Orders([c])
  {
    OrdersOne(a);
    hide Orders;
    OrdersAppend([a], [b]);
    OrdersAppend([a] + [b], [c]);
    assert [a] + [b] == [a, b] && [a] + [b] + [c] == [a, b, c];
  }

  lemma {:induction false} OrdersHold(effects: seq<Effect>, e: Effect)
    requires !e.Send?
    ensures e in effects <==> e in Orders(effects)
  {
    if effects != [] {
      OrdersHold(effects[1..], e);
    }
  }

  lemma OrdersHoldAll(effects: seq<Effect>)
    ensures forall e: Effect :: !e.Send? ==> (e in effects <==> e in Orders(effects))
  {
    hide Orders;
    forall e: Effect | !e.Send? ensures e in effects <==> e in Orders(effects) {
      OrdersHold(effects, e);
    }
  }

  /** What the machines' effects are, once the frames in them are set aside. */
  lemma HostSays(h: HostView, e: Event)
    ensures Orders(HostStart(h).1) == []
    ensures var (h', effects) := HostOn(h, e);
      Orders(effects) ==
        if h'.state.Upgraded? && !h.state.Upgraded? then [CloseOld, Moved]
        else if h'.state.Abandoned? && !h.state.Abandoned? then [Quit(if e.JoinFailed? then CouldNotJoin else PeerFailure)]
        else []
  {
    hide Orders, U.BuildPathAvailable, U.BuildClientIntroductionAck, U.BuildLastWrite, U.BuildSafeToClose;
    OrdersShort(Send(Old, U.BuildPathAvailable(h.path)), Moved, Moved);
    OrdersShort(Send(New, U.BuildClientIntroductionAck()), Send(Old, U.BuildLastWrite()), Moved);
    OrdersShort(Send(Old, U.BuildLastWrite()), Moved, Moved);
    OrdersShort(Send(Old, U.BuildSafeToClose(h.staFrequency)), CloseOld, Moved);
    OrdersShort(CloseOld, Moved, Moved);
    OrdersShort(Moved, Moved, Moved);
    OrdersShort(Quit(PeerFailure), Moved, Moved);
    OrdersShort(Quit(CouldNotJoin), Moved, Moved);
    var ack, last := [Send(New, U.BuildClientIntroductionAck())], [Send(Old, U.BuildLastWrite())];
    assert ack + last == [Send(New, U.BuildClientIntroductionAck()), Send(Old, U.BuildLastWrite())];
    assert [] + last == last;
  }

  lemma JoinerSays(j: JoinerView, e: Event)
    ensures var (j', effects) := JoinerOn(j, e);
      Orders(effects) ==
        if j.state.Upgraded? || j.state.Abandoned? then []
        else if j'.state.Upgraded? then [CloseOld, Moved]
        else if j'.state.Abandoned? then
          [Quit(if e.Connected? then ConnectedWithoutOffer else if e.JoinFailed? then CouldNotJoin
                else if e.frame.Failure? then PeerFailure else NoWayToReachHost)]
        else if e.FrameEvent? && e.channel.Old? && e.frame.PathAvailable? then [Join(e.frame.path)]
        else []
  {
    hide Orders, U.BuildClientIntroduction, U.BuildFailure, U.BuildLastWrite, U.BuildSafeToClose;
    OrdersShort(Send(Old, U.BuildSafeToClose(U.STA_FREQUENCY_NOT_SET)), Moved, Moved);
    OrdersShort(Send(Old, U.BuildLastWrite()), Moved, Moved);
    OrdersShort(Send(New, U.BuildClientIntroduction(j.endpointId)), Send(Old, U.BuildLastWrite()), Moved);
    OrdersShort(Send(Old, U.BuildFailure()), Quit(CouldNotJoin), Moved);
    if e.FrameEvent? && e.frame.PathAvailable? {
      OrdersShort(Join(e.frame.path), Moved, Moved);
    }
    OrdersShort(Quit(CouldNotJoin), Moved, Moved);
    OrdersShort(Quit(NoWayToReachHost), Moved, Moved);
    OrdersShort(Quit(ConnectedWithoutOffer), Moved, Moved);
    OrdersShort(Quit(PeerFailure), Moved, Moved);
    OrdersShort(CloseOld, Moved, Moved);
    OrdersShort(Moved, Moved, Moved);
  }

  /** The host's machine after a step, in a run, and the event that step is to it. */
  lemma HostStep(s: Sys, a: Action) returns (e: Event)
    requires Inv(s) && Legal(s, a) && Actor(a) == HostSide
    ensures a.Start? ==> (Next(s, a).host, Effects(s, a)) == HostStart(s.host) && s.host.state.Idle?
    ensures a.Deliver? ==> (Next(s, a).host, Effects(s, a)) == HostOn(s.host, e) && e.FrameEvent?
  {
    hide Post, Inv, HostStart, HostOn;
    e := if a.Deliver? then FrameEvent(a.channel, Toward(s, HostSide, a.channel).Head()) else Connected;
  }

  lemma HostTold(s: Sys, a: Action)
    requires Inv(s) && Legal(s, a) && Actor(a) == HostSide
    ensures HostOrders(Next(s, a).host.state) == HostOrders(s.host.state) + Orders(Effects(s, a))
    ensures !s.host.state.Abandoned? && Next(s, a).host.state.Abandoned? ==> Orders(Effects(s, a)) == [Quit(PeerFailure)]
  {
    hide Inv, Legal, Next, Effects, Orders, HostStart, HostOn;
    var e := HostStep(s, a);
    HostSays(s.host, e);
    HostMoves(s.host, e);
  }

  /** Where the host may go in one step; where it is over it stays. */
  lemma HostMoves(h: HostView, e: Event)
    ensures HostStart(h).0.state.Offered?
    ensures h.state.Upgraded? || h.state.Abandoned? ==> HostOn(h, e).0.state == h.state
  {
    hide U.BuildPathAvailable, U.BuildClientIntroductionAck, U.BuildLastWrite, U.BuildSafeToClose;
  }

  /** What the joiner's machine is given in a run, and where that finds it. */
  lemma JoinerStep(s: Sys, a: Action) returns (e: Event)
    requires Inv(s) && Legal(s, a) && Actor(a) == JoinerSide
    ensures (Next(s, a).joiner, Effects(s, a)) == JoinerOn(s.joiner, e)
    ensures e.Connected? || e.JoinFailed? ==> s.joiner.state.Joining? && Usable(s.host.path)
    ensures e.FrameEvent? ==> !e.frame.Failure?
    ensures e.FrameEvent? && e.frame.PathAvailable? ==> e.channel.Old? && e.frame.path == s.host.path && s.joiner.state.Idle?
    ensures e.FrameEvent? && !e.frame.PathAvailable? ==> !s.joiner.state.Idle? && !s.joiner.state.Joining?
  {
    hide Post, JoinerOn;
    e := if a.Deliver? then FrameEvent(a.channel, Toward(s, JoinerSide, a.channel).Head()) else if a.joined then Connected else JoinFailed;
  }

  lemma JoinerTold(s: Sys, a: Action)
    requires Inv(s) && Legal(s, a) && Actor(a) == JoinerSide
    ensures JoinerOrders(Next(s, a).joiner.state, s.host.path) == JoinerOrders(s.joiner.state, s.host.path) + Orders(Effects(s, a))
  {
    hide Inv, Legal, Next, Effects, Orders, JoinerOn;
    var e := JoinerStep(s, a);
    JoinerSays(s.joiner, e);
    JoinerMoves(s.joiner, e);
  }

  /** Where the joiner may go in one step. */
  lemma JoinerMoves(j: JoinerView, e: Event)
    ensures var j' := JoinerOn(j, e).0;
      && (j.state.Upgraded? || j.state.Abandoned? ==> j'.state == j.state)
      && (j'.state.Idle? ==> j.state.Idle?)
      && (j.state.Idle? && !j'.state.Idle? ==> j'.state.Joining? || j'.state.Abandoned? || j'.state.Upgraded?)
      && (e.FrameEvent? && e.channel.Old? && e.frame.PathAvailable? && !j.state.Upgraded? && !j.state.Abandoned? ==>
            j'.state == if Usable(e.frame.path) then Joining else State.Abandoned)
      && (e.Connected? && j.state.Joining? ==> j'.state.Introduced? || j'.state.Draining?)
      && (e.JoinFailed? && j.state.Joining? ==> j'.state.Abandoned?)
      && (e.FrameEvent? && !e.frame.PathAvailable? && !e.frame.Failure? && j'.state.Abandoned? ==> j.state.Abandoned?)
      && (j'.state.Joining? && !j.state.Joining? ==> e.FrameEvent? && e.channel.Old? && e.frame.PathAvailable?)
  {
    hide U.BuildClientIntroduction, U.BuildFailure, U.BuildLastWrite, U.BuildSafeToClose;
  }

  lemma OthersStand(s: Sys, a: Action)
    requires Legal(s, a)
    ensures Actor(a) == HostSide ==> Next(s, a).joiner == s.joiner
    ensures Actor(a) == JoinerSide ==> Next(s, a).host == s.host
  {
    hide Post, HostOn, HostStart, JoinerOn;
  }

  /**
    Over every run, all that either caller has been told, in order. A host's is told to close
    the old channel and then to run on the new one once and only in moving, or to give up once;
    a joiner's is told first, and once, to join by the very path the host offered.
   */
  lemma {:induction false} Told(path: Path, frequency: I32, id: string, actions: seq<Action>)
    requires Sendable(path, id) && Run(Initial(path, frequency, id), actions).Some?
    ensures var start := Initial(path, frequency, id); var s := Run(start, actions).value;
      && Orders(Given(start, actions, HostSide)) == HostOrders(s.host.state)
      && Orders(Given(start, actions, JoinerSide)) == JoinerOrders(s.joiner.state, path)
    decreases |actions|
  {
    hide Sendable, Inv, Legal, Next, Effects, HostOrders, JoinerOrders, Orders;
    var start := Initial(path, frequency, id);
    if actions == [] {
      NothingTold(path);
    } else {
      var init, a := actions[..|actions| - 1], actions[|actions| - 1];
      var s := Run(start, init).value;
      Invariant(path, frequency, id, init);
      Told(path, frequency, id, init);
      OthersStand(s, a);
      OrdersAppend(Given(start, init, Actor(a)), Effects(s, a));
      if Actor(a) == HostSide {
        HostTold(s, a);
        assert Given(start, init, JoinerSide) + [] == Given(start, init, JoinerSide);
      } else {
        JoinerTold(s, a);
        assert Given(start, init, HostSide) + [] == Given(start, init, HostSide);
      }
    }
  }

  lemma NothingTold(path: Path)
    ensures Orders([]) == [] && HostOrders(Idle) == [] && JoinerOrders(Idle, path) == []
  {
  }

  /** A caller reports only on an attempt it was told to make, and a step tells of a move exactly when a machine enters it. */
  lemma ToldInTurn(path: Path, frequency: I32, id: string, actions: seq<Action>, a: Action)
    requires Sendable(path, id) && Run(Initial(path, frequency, id), actions).Some? && Legal(Run(Initial(path, frequency, id), actions).value, a)
    ensures var start := Initial(path, frequency, id); var s := Run(start, actions).value; var t := Next(s, a);
      && (a.Report? ==> Orders(Given(start, actions, JoinerSide)) == [Join(path)])
      && (Moved in Effects(s, a) <==> Moves(s, t)) && (CloseOld in Effects(s, a) <==> Moves(s, t))
      && (forall p :: Join(p) in Effects(s, a) <==> p == path && !s.joiner.state.Joining? && t.joiner.state.Joining?)
      && ((exists why :: Quit(why) in Effects(s, a)) <==> GivesUp(s, t))
  {
    hide Run, Sendable, Inv, Effects, Next, Orders, Given, Moves, GivesUp;
    Told(path, frequency, id, actions);
    Invariant(path, frequency, id, actions);
    var s := Run(Initial(path, frequency, id), actions).value;
    EntersTold(s, a);
    if a.Report? {
      ReportsFrom(s, path);
    }
  }

  lemma ReportsFrom(s: Sys, path: Path)
    requires s.joiner.state.Joining?
    ensures JoinerOrders(s.joiner.state, path) == [Join(path)]
  {
  }

  predicate Moves(s: Sys, t: Sys) {
    (!s.host.state.Upgraded? && t.host.state.Upgraded?) || (!s.joiner.state.Upgraded? && t.joiner.state.Upgraded?)
  }

  predicate GivesUp(s: Sys, t: Sys) {
    (!s.host.state.Abandoned? && t.host.state.Abandoned?) || (!s.joiner.state.Abandoned? && t.joiner.state.Abandoned?)
  }

  lemma EntersTold(s: Sys, a: Action)
    requires Inv(s) && Legal(s, a)
    ensures var t := Next(s, a); var e := Effects(s, a);
      && (Moved in e <==> Moves(s, t)) && (CloseOld in e <==> Moves(s, t))
      && (forall p :: Join(p) in e <==> p == s.host.path && !s.joiner.state.Joining? && t.joiner.state.Joining?)
      && ((exists why :: Quit(why) in e) <==> GivesUp(s, t))
  {
    hide Inv, Legal, Next, Effects;
    OthersStand(s, a);
    if Actor(a) == HostSide {
      HostEnters(s, a);
    } else {
      JoinerEnters(s, a);
    }
  }

  lemma HostEnters(s: Sys, a: Action)
    requires Inv(s) && Legal(s, a) && Actor(a) == HostSide
    ensures var t := Next(s, a); var e := Effects(s, a);
      && (Moved in e <==> !s.host.state.Upgraded? && t.host.state.Upgraded?) && (CloseOld in e <==> !s.host.state.Upgraded? && t.host.state.Upgraded?)
      && (forall p :: Join(p) !in e)
      && ((exists why :: Quit(why) in e) <==> !s.host.state.Abandoned? && t.host.state.Abandoned?)
  {
    hide Inv, Legal, Next, Effects, Orders, HostStart, HostOn;
    var e := HostStep(s, a);
    var effects := Effects(s, a);
    HostSays(s.host, e);
    HostMoves(s.host, e);
    OrdersHoldAll(effects);
    assert Quit(PeerFailure) in [Quit(PeerFailure)];
  }

  lemma JoinerEnters(s: Sys, a: Action)
    requires Inv(s) && Legal(s, a) && Actor(a) == JoinerSide
    ensures var t := Next(s, a); var e := Effects(s, a);
      && (Moved in e <==> !s.joiner.state.Upgraded? && t.joiner.state.Upgraded?)
      && (CloseOld in e <==> !s.joiner.state.Upgraded? && t.joiner.state.Upgraded?)
      && (forall p :: Join(p) in e <==> p == s.host.path && !s.joiner.state.Joining? && t.joiner.state.Joining?)
      && ((exists why :: Quit(why) in e) <==> !s.joiner.state.Abandoned? && t.joiner.state.Abandoned?)
  {
    hide Inv, Legal, Next, Effects, Orders, JoinerOn;
    var e := JoinerStep(s, a);
    var effects := Effects(s, a);
    JoinerSays(s.joiner, e);
    JoinerMoves(s.joiner, e);
    OrdersHoldAll(effects);
    if Next(s, a).joiner.state.Abandoned? && !s.joiner.state.Abandoned? {
      var quit := Orders(effects)[0];
      assert Quit(quit.why) in effects;
    }
  }

  /** Nothing is sent on the old channel after the order to close it. */
  ghost predicate Shut(effects: seq<Effect>) {
    forall i, j :: 0 <= i < j < |effects| && effects[i].CloseOld? ==> !(effects[j].Send? && effects[j].channel.Old?)
  }

  lemma StepShuts(s: Sys, a: Action)
    requires Legal(s, a)
    ensures Shut(Effects(s, a))
    ensures (if Actor(a) == HostSide then s.host.state.Upgraded? else s.joiner.state.Upgraded?) ==> Effects(s, a) == []
  {
    hide U.BuildPathAvailable, U.BuildClientIntroduction, U.BuildClientIntroductionAck, U.BuildLastWrite, U.BuildSafeToClose, U.BuildFailure;
  }

  lemma ShutAppend(a: seq<Effect>, b: seq<Effect>)
    requires Shut(a) && Shut(b) && (b == [] || CloseOld !in a)
    ensures Shut(a + b)
  {
    assert b == [] ==> a + b == a;
  }

  /** Over every run, once a side's caller has been told to close the old channel, no frame for it follows. */
  lemma {:induction false} SilentOnceClosed(path: Path, frequency: I32, id: string, actions: seq<Action>, side: Side)
    requires Sendable(path, id) && Run(Initial(path, frequency, id), actions).Some?
    ensures Shut(Given(Initial(path, frequency, id), actions, side))
    decreases |actions|
  {
    hide Sendable, Legal, Next, Effects, Orders, Shut, HostOrders, JoinerOrders;
    var start := Initial(path, frequency, id);
    if actions == [] {
      NothingShut();
    } else {
      var init, a := actions[..|actions| - 1], actions[|actions| - 1];
      var s, told := Run(start, init).value, Given(start, init, side);
      SilentOnceClosed(path, frequency, id, init, side);
      Told(path, frequency, id, init);
      StepShuts(s, a);
      OrdersHold(told, CloseOld);
      ClosesIfMoved(s, path);
      if Actor(a) == side {
        ShutAppend(told, Effects(s, a));
      } else {
        assert told + [] == told;
      }
    }
  }

  lemma NothingShut()
    ensures Shut([])
  {
  }

  lemma ClosesIfMoved(s: Sys, path: Path)
    ensures CloseOld in HostOrders(s.host.state) ==> s.host.state.Upgraded?
    ensures CloseOld in JoinerOrders(s.joiner.state, path) ==> s.joiner.state.Upgraded?
  {
  }

  // ------------------------------------------------------------- against any peer ---

  /** What moves a host that is not through, from any peer at all, and nothing else does; once it is through nothing does. */
  lemma HostHeeds(s: HostView, e: Event)
    ensures var (s', effects) := HostOn(s, e);
      var over := s.state.Upgraded? || s.state.Abandoned?;
      var introduced := e.FrameEvent? && e.channel.New? && e.frame.ClientIntroduction?;
      var released := e.FrameEvent? && e.channel.Old? && e.frame.SafeToClosePrior?;
      var failed := e.FrameEvent? && e.frame.Failure?;
      && ((s', effects) != (s, []) <==> !over && (introduced || released || failed || e.JoinFailed?))
      && (Moved in effects <==> !over && released)
      && (Quit(PeerFailure) in effects <==> !over && failed)
      && (Quit(CouldNotJoin) in effects <==> !over && e.JoinFailed?)
      && (!over && introduced ==> s'.state.Draining? && |effects| == if s.path.supportsIntroductionAck then 2 else 1)
  {
    hide U.BuildLastWrite, U.BuildClientIntroductionAck, U.BuildSafeToClose;
  }

  /** The same of a joiner. It joins what it is offered only where the offer names Wi-Fi credentials or a socket. */
  lemma JoinerHeeds(s: JoinerView, e: Event)
    ensures var (s', effects) := JoinerOn(s, e);
      var over := s.state.Upgraded? || s.state.Abandoned?;
      var before := e.FrameEvent? && e.channel.Old?;
      var offered := before && e.frame.PathAvailable?;
      var released := before && e.frame.SafeToClosePrior?;
      var acknowledged := e.FrameEvent? && e.channel.New? && e.frame.ClientIntroductionAck? && s.state.Introduced?;
      var failed := e.FrameEvent? && e.frame.Failure?;
      && ((s', effects) != (s, []) <==>
            !over && (e.Connected? || e.JoinFailed? || offered || released || acknowledged || failed || (before && e.frame.LastWriteToPrior?)))
      && (Moved in effects <==> !over && released)
      && (forall p :: Join(p) in effects <==> !over && offered && p == e.frame.path && (p.wifi.Some? || p.lan.Some?))
      && (Quit(NoWayToReachHost) in effects <==> !over && offered && e.frame.path.wifi.None? && e.frame.path.lan.None?)
      && (Quit(ConnectedWithoutOffer) in effects <==> !over && e.Connected? && !s.state.Joining?)
      && (Quit(PeerFailure) in effects <==> !over && failed)
      && (Quit(CouldNotJoin) in effects <==> !over && e.JoinFailed?)
  {
    hide U.BuildLastWrite, U.BuildClientIntroduction, U.BuildSafeToClose, U.BuildFailure;
  }
}
