/**
  The consent exchange: a receiver that only a person can make accept, a sender that only an
  acceptance can start, and the two of them together over a pair of queues.
 */
module Consent {
  import opened Bytes
  import S = Sharing

  type Intro = S.Introduction

  datatype State = PairedKey | Introducing | AwaitingUser | Transferring | Done | Failed | Cancelled {
    predicate IsOver() { Done? || Failed? || Cancelled? }

    function Rank(): nat {
      match this
      case PairedKey => 0
      case Introducing => 1
      case AwaitingUser => 2
      case Transferring => 3
      case _ => 4
    }
  }

  datatype Event = FrameEvent(frame: S.Frame) | UserAccepted | UserRejected | UserCancelled | TransferComplete

  /** The fixed texts a failure is reported with. */
  datatype Reason =
    | NoPairedKeyFrame
    | EarlyAcceptance
    | EarlyRejection
    | EarlyCompletion
    | NothingAnnounced
    | SecondIntroduction
    | FrameOutOfTurn
    | DecisionOnSender
    | IntroducedToSender

  datatype Effect =
    | Send(bytes: seq<U8>)
    | AskUser(intro: Intro)
    | BeginSending(intro: Intro)
    | BeginReceiving(intro: Intro)
    | Finished
    | Gave(why: Reason)
    | CalledOff

  /** What the random source gave for the paired-key frame, if it worked. */
  type Random = Option<(seq<U8>, seq<U8>)>

  // ---------------------------------------------------------------------- receiver ---

  datatype In = In(state: State, sentPairedKey: bool, seenPeerResult: bool, introduction: Option<Intro>) {
    function Fail(why: Reason): (In, seq<Effect>) { (this.(state := Failed), [Gave(why)]) }
  }

  const NEW_IN := In(PairedKey, false, false, None)

  function InStart(s: In, random: Random): (In, seq<Effect>) {
    if s.sentPairedKey then (s, [])
    else
      match random
      case Some((signed, hash)) => (s.(sentPairedKey := true), [Send(S.BuildPairedKey(signed, hash))])
      case None => s.(sentPairedKey := true).Fail(NoPairedKeyFrame)
  }

  function InOn(s: In, e: Event): (In, seq<Effect>) {
    if s.state.IsOver() then (s, [])
    else match e
      case UserCancelled => (s.(state := Cancelled), [Send(S.BuildCancel()), CalledOff])
      case UserAccepted =>
        if s.state != AwaitingUser then s.Fail(EarlyAcceptance)
        else (s.(state := Transferring), [Send(S.BuildResponse(S.Accept)), BeginReceiving(s.introduction.GetOr(S.EMPTY))])
      case UserRejected =>
        if s.state != AwaitingUser then s.Fail(EarlyRejection)
        else (s.(state := Done), [Send(S.BuildResponse(S.Reject)), Finished])
      case TransferComplete =>
        if s.state != Transferring then s.Fail(EarlyCompletion)
        else (s.(state := Done), [Finished])
      case FrameEvent(f) => InOnFrame(s, f)
  }

  function InOnFrame(s: In, f: S.Frame): (In, seq<Effect>) {
    match f
    case Cancel => (s.(state := Cancelled), [CalledOff])
    case PairedKeyEncryption(_, _) =>
      if s.state.PairedKey? then (s, [Send(S.BuildVerdict(S.Unable))]) else (s, [])
    case PairedKeyResult(_) =>
      if s.state.PairedKey? then (s.(seenPeerResult := true, state := Introducing), []) else (s, [])
    case Introduce(intro) =>
      if s.state.Introducing? then
        if intro.files == [] && intro.texts == [] then s.Fail(NothingAnnounced)
        else (s.(introduction := Some(intro), state := AwaitingUser), [AskUser(intro)])
      else if s.state.AwaitingUser? || s.state.Transferring? then s.Fail(SecondIntroduction)
      else s.Fail(FrameOutOfTurn)
    case UnknownFrame(_) => (s, [])
    case Response(_) => (s, [])
  }

  class Inbound {
    var state: State
    var sentPairedKey: bool
    var seenPeerResult: bool
    var introduction: Option<Intro>

    function View(): In
      reads this
    {
      In(state, sentPairedKey, seenPeerResult, introduction)
    }

    constructor ()
      ensures View() == NEW_IN
    {
      state := PairedKey;
      sentPairedKey := false;
      seenPeerResult := false;
      introduction := None;
    }

    method Start(random: Random) returns (effects: seq<Effect>)
      modifies this
      ensures (View(), effects) == InStart(old(View()), random)
    {
      if sentPairedKey {
        return [];
      }
      sentPairedKey := true;
      match random
      case Some((signed, hash)) => return [Send(S.BuildPairedKey(signed, hash))];
      case None => effects := Fail(NoPairedKeyFrame);
    }

    method On(event: Event) returns (effects: seq<Effect>)
      modifies this
      ensures (View(), effects) == InOn(old(View()), event)
    {
      if state.IsOver() {
        return [];
      }
      match event
      case UserCancelled =>
        state := Cancelled;
        return [Send(S.BuildCancel()), CalledOff];
      case UserAccepted =>
        if state != AwaitingUser {
          effects := Fail(EarlyAcceptance);
        } else {
          state := Transferring;
          return [Send(S.BuildResponse(S.Accept)), BeginReceiving(introduction.GetOr(S.EMPTY))];
        }
      case UserRejected =>
        if state != AwaitingUser {
          effects := Fail(EarlyRejection);
        } else {
          state := Done;
          return [Send(S.BuildResponse(S.Reject)), Finished];
        }
      case TransferComplete =>
        if state != Transferring {
          effects := Fail(EarlyCompletion);
        } else {
          state := Done;
          return [Finished];
        }
      case FrameEvent(f) => effects := OnFrame(f);
    }

    method OnFrame(frame: S.Frame) returns (effects: seq<Effect>)
      modifies this
      ensures (View(), effects) == InOnFrame(old(View()), frame)
    {
      match frame
      case Cancel =>
        state := Cancelled;
        return [CalledOff];
      case PairedKeyEncryption(_, _) =>
        return if state.PairedKey? then [Send(S.BuildVerdict(S.Unable))] else [];
      case PairedKeyResult(_) =>
        if state.PairedKey? {
          seenPeerResult := true;
          state := Introducing;
        }
        return [];
      case Introduce(intro) =>
        if state.Introducing? {
          if intro.files == [] && intro.texts == [] {
            effects := Fail(NothingAnnounced);
          } else {
            introduction := Some(intro);
            state := AwaitingUser;
            return [AskUser(intro)];
          }
        } else if state.AwaitingUser? || state.Transferring? {
          effects := Fail(SecondIntroduction);
        } else {
          effects := Fail(FrameOutOfTurn);
        }
      case UnknownFrame(_) => return [];
      case Response(_) => return [];
    }

    method Fail(why: Reason) returns (effects: seq<Effect>)
      modifies this
      ensures (View(), effects) == old(View()).Fail(why)
    {
      state := Failed;
      effects := [Gave(why)];
    }
  }

  // ------------------------------------------------------------------------ sender ---

  datatype Out = Out(state: State, introduction: Intro, sentPairedKey: bool) {
    function Fail(why: Reason): (Out, seq<Effect>) { (this.(state := Failed), [Gave(why)]) }
  }

  function NewOut(intro: Intro): Out { Out(PairedKey, intro, false) }

  function OutStart(s: Out, random: Random): (Out, seq<Effect>) {
    if s.sentPairedKey then (s, [])
    else
      match random
      case Some((signed, hash)) =>
        (s.(sentPairedKey := true, state := Introducing),
         [Send(S.BuildPairedKey(signed, hash)), Send(S.BuildVerdict(S.Unable)), Send(S.BuildIntroduction(s.introduction))])
      case None => s.(sentPairedKey := true).Fail(NoPairedKeyFrame)
  }

  function OutOn(s: Out, e: Event): (Out, seq<Effect>) {
    if s.state.IsOver() then (s, [])
    else match e
      case UserCancelled => (s.(state := Cancelled), [Send(S.BuildCancel()), CalledOff])
      case TransferComplete =>
        if s.state != Transferring then s.Fail(EarlyCompletion)
        else (s.(state := Done), [Finished])
      case UserAccepted => s.Fail(DecisionOnSender)
      case UserRejected => s.Fail(DecisionOnSender)
      case FrameEvent(f) => OutOnFrame(s, f)
  }

  function OutOnFrame(s: Out, f: S.Frame): (Out, seq<Effect>) {
    match f
    case Cancel => (s.(state := Cancelled), [CalledOff])
    case Response(status) =>
      if s.state.Introducing? then
        if status.Accept? then (s.(state := Transferring), [BeginSending(s.introduction)]) else (s.(state := Done), [Finished])
      else s.Fail(FrameOutOfTurn)
    case PairedKeyEncryption(_, _) => (s, [])
    case PairedKeyResult(_) => (s, [])
    case UnknownFrame(_) => (s, [])
    case Introduce(_) => s.Fail(IntroducedToSender)
  }

  class Outbound {
    var state: State
    var introduction: Intro
    var sentPairedKey: bool

    function View(): Out
      reads this
    {
      Out(state, introduction, sentPairedKey)
    }

    constructor (intro: Intro)
      ensures View() == NewOut(intro)
    {
      state := PairedKey;
      introduction := intro;
      sentPairedKey := false;
    }

    method Start(random: Random) returns (effects: seq<Effect>)
      modifies this
      ensures (View(), effects) == OutStart(old(View()), random)
    {
      if sentPairedKey {
        return [];
      }
      sentPairedKey := true;
      if random.None? {
        effects := Fail(NoPairedKeyFrame);
        return;
      }
      var (signed, hash) := random.value;
      state := Introducing;
      return [Send(S.BuildPairedKey(signed, hash)), Send(S.BuildVerdict(S.Unable)), Send(S.BuildIntroduction(introduction))];
    }

    method On(event: Event) returns (effects: seq<Effect>)
      modifies this
      ensures (View(), effects) == OutOn(old(View()), event)
    {
      if state.IsOver() {
        return [];
      }
      match event
      case UserCancelled =>
        state := Cancelled;
        return [Send(S.BuildCancel()), CalledOff];
      case TransferComplete =>
        if state != Transferring {
          effects := Fail(EarlyCompletion);
        } else {
          state := Done;
          return [Finished];
        }
      case UserAccepted => effects := Fail(DecisionOnSender);
      case UserRejected => effects := Fail(DecisionOnSender);
      case FrameEvent(f) => effects := OnFrame(f);
    }

    method OnFrame(frame: S.Frame) returns (effects: seq<Effect>)
      modifies this
      ensures (View(), effects) == OutOnFrame(old(View()), frame)
    {
      match frame
      case Cancel =>
        state := Cancelled;
        return [CalledOff];
      case Response(status) =>
        if state.Introducing? {
          if status.Accept? {
            state := Transferring;
            return [BeginSending(introduction)];
          }
          state := Done;
          return [Finished];
        }
        effects := Fail(FrameOutOfTurn);
      case PairedKeyEncryption(_, _) => return [];
      case PairedKeyResult(_) => return [];
      case UnknownFrame(_) => return [];
      case Introduce(_) => effects := Fail(IntroducedToSender);
    }

    method Fail(why: Reason) returns (effects: seq<Effect>)
      modifies this
      ensures (View(), effects) == old(View()).Fail(why)
    {
      state := Failed;
      effects := [Gave(why)];
    }
  }

  // ----------------------------------------------- receiver against an arbitrary peer ---

  /** What was emitted: the effects that matter for consent, in order, and how many frames were sent. */
  datatype Seen = Seen(asked: seq<Intro>, begun: seq<Intro>, endings: nat, frames: nat)

  function NoteOne(n: Seen, e: Effect): Seen {
    match e
    case AskUser(i) => n.(asked := n.asked + [i])
    case BeginReceiving(i) => n.(begun := n.begun + [i])
    case Finished => n.(endings := n.endings + 1)
    case Gave(_) => n.(endings := n.endings + 1)
    case CalledOff => n.(endings := n.endings + 1)
    case Send(_) => n.(frames := n.frames + 1)
    case BeginSending(_) => n
  }

  function Note(n: Seen, effects: seq<Effect>): Seen
    decreases |effects|
  {
    if effects == [] then n else Note(NoteOne(n, effects[0]), effects[1..])
  }

  /** Every event sequence after `start`. */
  function InRun(random: Random, events: seq<Event>): (In, Seen) {
    if events == [] then
      var (s, effects) := InStart(NEW_IN, random);
      (s, Note(Seen([], [], 0, 0), effects))
    else
      var (s, n) := InRun(random, events[..|events| - 1]);
      var (s', effects) := InOn(s, events[|events| - 1]);
      (s', Note(n, effects))
  }

  predicate Guarded(s: In, n: Seen) {
    && |n.asked| <= 1 && |n.begun| <= 1
    && (n.asked == [] <==> s.introduction.None?)
    && (s.introduction.Some? ==> n.asked == [s.introduction.value])
    && (n.begun != [] ==> n.begun == n.asked)
    && (s.state.PairedKey? || s.state.Introducing? ==> n.asked == [])
    && (s.state.AwaitingUser? || s.state.Transferring? ==> n.asked != [])
    && (s.state.Rank() <= 2 ==> n.begun == [])
    && n.endings == (if s.state.IsOver() then 1 else 0)
  }

  lemma NoteSingle(n: Seen, a: Effect)
    ensures Note(n, [a]) == NoteOne(n, a)
  {
    assert [a][1..] == [];
  }

  lemma NoteShort(n: Seen, effects: seq<Effect>)
    requires |effects| <= 2
    ensures |effects| == 0 ==> Note(n, effects) == n
    ensures |effects| == 1 ==> Note(n, effects) == NoteOne(n, effects[0])
    ensures |effects| == 2 ==> Note(n, effects) == NoteOne(NoteOne(n, effects[0]), effects[1])
  {
    if |effects| == 1 {
      NoteSingle(n, effects[0]);
      assert effects == [effects[0]];
    } else if |effects| == 2 {
      NoteSingle(NoteOne(n, effects[0]), effects[1]);
      assert effects[1..] == [effects[1]];
    }
  }

  lemma GuardedStep(s: In, n: Seen, e: Event)
    requires Guarded(s, n)
    ensures var (s', effects) := InOn(s, e); Guarded(s', Note(n, effects)) && s'.state.Rank() >= s.state.Rank()
  {
    hide S.BuildCancel, S.BuildResponse, S.BuildVerdict, Note, Guarded;
    var (s', effects) := InOn(s, e);
    NoteShort(n, effects);
    if s.state.IsOver() {
    } else if e.FrameEvent? {
      GuardedFrame(s, n, e.frame);
    } else {
      GuardedLocal(s, n, e);
    }
  }

  lemma GuardedFrame(s: In, n: Seen, f: S.Frame)
    requires Guarded(s, n) && !s.state.IsOver()
    ensures var (s', effects) := InOnFrame(s, f); Guarded(s', Note(n, effects)) && s'.state.Rank() >= s.state.Rank()
  {
    hide S.BuildVerdict, Note;
    NoteShort(n, InOnFrame(s, f).1);
    match f
    case Introduce(intro) =>
      if InOnFrame(s, f).0.state.AwaitingUser? && s.state.Introducing? {
        assert n.asked == [] && n.asked + [intro] == [intro];
      }
    case Cancel =>
    case PairedKeyEncryption(_, _) =>
    case PairedKeyResult(_) =>
    case UnknownFrame(_) =>
    case Response(_) =>
  }

  lemma GuardedLocal(s: In, n: Seen, e: Event)
    requires Guarded(s, n) && !s.state.IsOver() && !e.FrameEvent?
    ensures var (s', effects) := InOn(s, e); Guarded(s', Note(n, effects)) && s'.state.Rank() >= s.state.Rank()
  {
    hide S.BuildCancel, S.BuildResponse, Note;
    NoteShort(n, InOn(s, e).1);
  }

  /**
    No peer can get past the person. Over every event sequence the question is asked at most
    once and receiving begins at most once, for the very introduction that was asked about;
    the run ends with exactly one ending and says nothing after it.
   */
  lemma {:induction false} NothingWithoutConsent(random: Random, events: seq<Event>)
    ensures Guarded(InRun(random, events).0, InRun(random, events).1)
  {
    hide S.BuildPairedKey;
    if events != [] {
      var init := events[..|events| - 1];
      NothingWithoutConsent(random, init);
      GuardedStep(InRun(random, init).0, InRun(random, init).1, events[|events| - 1]);
    } else {
      var effects := InStart(NEW_IN, random).1;
      NoteShort(Seen([], [], 0, 0), effects);
    }
  }

  /** Receiving begins only in answer to the person, and only with what the person was shown. */
  lemma OnlyAcceptanceBegins(random: Random, events: seq<Event>, e: Event, i: Intro)
    requires BeginReceiving(i) in InOn(InRun(random, events).0, e).1
    ensures e == UserAccepted && InRun(random, events).1.asked == [i] && InRun(random, events).1.begun == []
    ensures InRun(random, events).0.state == AwaitingUser
  {
    NothingWithoutConsent(random, events);
  }

  /** The rank never falls, and once over nothing changes, is emitted or is sent, whatever comes. */
  lemma {:induction false} RankNeverFalls(random: Random, events: seq<Event>, more: seq<Event>)
    ensures InRun(random, events + more).0.state.Rank() >= InRun(random, events).0.state.Rank()
    ensures InRun(random, events).0.state.IsOver() ==> InRun(random, events + more) == InRun(random, events)
    ensures InRun(random, events).0.state.IsOver() ==> forall e :: InOn(InRun(random, events + more).0, e).1 == []
  {
    if more == [] {
      assert events + more == events;
    } else {
      var init := more[..|more| - 1];
      assert (events + more)[..|events + more| - 1] == events + init;
      RankNeverFalls(random, events, init);
      NothingWithoutConsent(random, events + init);
      GuardedStep(InRun(random, events + init).0, InRun(random, events + init).1, more[|more| - 1]);
    }
  }

  // -------------------------------------------------- what either side's caller is told ---

  /** The effects that are orders to the caller, in order: all but the frames. */
  function Orders(effects: seq<Effect>): seq<Effect> {
    if effects == [] then [] else (if effects[0].Send? then [] else [effects[0]]) + Orders(effects[1..])
  }

  lemma OrdersOne(a: Effect)
    ensures Orders([]) == [] && Orders([a]) == if a.Send? then [] else [a]
  {
    assert [a][1..] == [];
  }

  lemma OrdersTwo(a: Effect, b: Effect)
    ensures Orders([a, b]) == (if a.Send? then [] else [a]) + if b.Send? then [] else [b]
  {
    OrdersOne(b);
    assert [a, b][1..] == [b];
  }

  lemma {:induction false} OrdersAppend(a: seq<Effect>, b: seq<Effect>)
    ensures Orders(a + b) == Orders(a) + Orders(b)
  {
    if a == [] {
      assert a + b == b;
    } else {
      assert (a + b)[1..] == a[1..] + b;
      OrdersAppend(a[1..], b);
    }
  }

  function InStateAfter(random: Random, events: seq<Event>): In { InRun(random, events).0 }

  /** Everything the receiver's caller has been told to do, frames to send included. */
  function InGiven(random: Random, events: seq<Event>): seq<Effect> {
    if events == [] then InStart(NEW_IN, random).1
    else InGiven(random, events[..|events| - 1]) + InOn(InStateAfter(random, events[..|events| - 1]), events[|events| - 1]).1
  }

  function OutStateAfter(intro: Intro, random: Random, events: seq<Event>): Out {
    if events == [] then OutStart(NewOut(intro), random).0
    else OutOn(OutStateAfter(intro, random, events[..|events| - 1]), events[|events| - 1]).0
  }

  function OutGiven(intro: Intro, random: Random, events: seq<Event>): seq<Effect> {
    if events == [] then OutStart(NewOut(intro), random).1
    else OutGiven(intro, random, events[..|events| - 1]) + OutOn(OutStateAfter(intro, random, events[..|events| - 1]), events[|events| - 1]).1
  }

  /** What a receiver not yet over may have told: nothing, its question, or that and its answer. */
  predicate InAsked(asked: Option<Intro>, o: seq<Effect>) {
    match asked
    case None => o == []
    case Some(i) => o == [AskUser(i)] || o == [AskUser(i), BeginReceiving(i)]
  }

  /** All that the receiver has told its caller, by where it is; the last order is the one ending. */
  predicate InTold(s: In, o: seq<Effect>) {
    match s.state
    case PairedKey => s.introduction.None? && o == []
    case Introducing => s.introduction.None? && o == []
    case AwaitingUser => s.introduction.Some? && o == [AskUser(s.introduction.value)]
    case Transferring => s.introduction.Some? && o == [AskUser(s.introduction.value), BeginReceiving(s.introduction.value)]
    case Done => s.introduction.Some? && o != [] && o[|o| - 1] == Finished && InAsked(s.introduction, o[..|o| - 1])
    case Cancelled => o != [] && o[|o| - 1] == CalledOff && InAsked(s.introduction, o[..|o| - 1])
    case Failed => o != [] && o[|o| - 1].Gave? && InAsked(s.introduction, o[..|o| - 1])
  }

  predicate OutTold(s: Out, o: seq<Effect>) {
    match s.state
    case PairedKey => o == []
    case Introducing => o == []
    case AwaitingUser => false
    case Transferring => o == [BeginSending(s.introduction)]
    case Done => o == [Finished] || o == [BeginSending(s.introduction), Finished]
    case Cancelled => o == [CalledOff] || o == [BeginSending(s.introduction), CalledOff]
    case Failed => o != [] && o[|o| - 1].Gave? && (o[..|o| - 1] == [] || o[..|o| - 1] == [BeginSending(s.introduction)])
  }

  /** When each ending of the receiver comes, and for what reason it gives up. */
  lemma InEnds(s: In, e: Event)
    requires !s.state.IsOver()
    ensures var (s', effects) := InOn(s, e);
      && (s'.state.Cancelled? <==> e.UserCancelled? || e == FrameEvent(S.Cancel))
      && (s'.state.Done? <==> (e.UserRejected? && s.state.AwaitingUser?) || (e.TransferComplete? && s.state.Transferring?))
      && (s'.state.Transferring? && !s.state.Transferring? <==> e.UserAccepted? && s.state.AwaitingUser?)
      && (Gave(EarlyAcceptance) in effects <==> e.UserAccepted? && !s.state.AwaitingUser?)
      && (Gave(EarlyRejection) in effects <==> e.UserRejected? && !s.state.AwaitingUser?)
      && (Gave(EarlyCompletion) in effects <==> e.TransferComplete? && !s.state.Transferring?)
      && (Gave(NothingAnnounced) in effects <==>
            s.state.Introducing? && e.FrameEvent? && e.frame.Introduce? && e.frame.intro.files == [] && e.frame.intro.texts == [])
      && (Gave(SecondIntroduction) in effects <==> (s.state.AwaitingUser? || s.state.Transferring?) && e.FrameEvent? && e.frame.Introduce?)
      && (Gave(FrameOutOfTurn) in effects <==> s.state.PairedKey? && e.FrameEvent? && e.frame.Introduce?)
      && (s'.state.Failed? <==> exists why :: Gave(why) in effects)
  {
    hide S.BuildCancel, S.BuildVerdict, S.BuildResponse;
  }

  lemma OutEnds(s: Out, e: Event)
    requires !s.state.IsOver()
    ensures var (s', effects) := OutOn(s, e);
      && (s'.state.Cancelled? <==> e.UserCancelled? || e == FrameEvent(S.Cancel))
      && (s'.state.Done? <==>
            || (e.TransferComplete? && s.state.Transferring?)
            || (s.state.Introducing? && e.FrameEvent? && e.frame.Response? && !e.frame.status.Accept?))
      && (BeginSending(s.introduction) in effects <==> s.state.Introducing? && e == FrameEvent(S.Response(S.Accept)))
      && (Gave(DecisionOnSender) in effects <==> e.UserAccepted? || e.UserRejected?)
      && (Gave(EarlyCompletion) in effects <==> e.TransferComplete? && !s.state.Transferring?)
      && (Gave(FrameOutOfTurn) in effects <==> !s.state.Introducing? && e.FrameEvent? && e.frame.Response?)
      && (Gave(IntroducedToSender) in effects <==> e.FrameEvent? && e.frame.Introduce?)
      && (s'.state.Failed? <==> exists why :: Gave(why) in effects)
  {
    hide S.BuildCancel;
  }

  /** What the receiver tells at one event, by where that takes it. */
  lemma InSays(s: In, e: Event)
    ensures var (s', effects) := InOn(s, e);
      && (s'.state.Failed? && !s.state.IsOver() ==> |effects| == 1 && effects[0].Gave?)
      && Orders(effects) == (
        if s.state.IsOver() then []
        else if s'.state.Cancelled? then [CalledOff]
        else if s'.state.Done? then [Finished]
        else if s'.state.Failed? then [effects[0]]
        else if s'.state.Transferring? && !s.state.Transferring? then [BeginReceiving(s.introduction.GetOr(S.EMPTY))]
        else if s'.state.AwaitingUser? && !s.state.AwaitingUser? then [AskUser(s'.introduction.value)]
        else [])
  {
    hide S.BuildCancel, S.BuildVerdict, S.BuildResponse, Orders;
    OrdersOne(Finished);
    OrdersOne(CalledOff);
    OrdersOne(Send(S.BuildVerdict(S.Unable)));
    OrdersTwo(Send(S.BuildCancel()), CalledOff);
    OrdersTwo(Send(S.BuildResponse(S.Reject)), Finished);
    OrdersTwo(Send(S.BuildResponse(S.Accept)), BeginReceiving(s.introduction.GetOr(S.EMPTY)));
    if e.FrameEvent? && e.frame.Introduce? {
      OrdersOne(AskUser(e.frame.intro));
    }
    forall why: Reason ensures Orders([Gave(why)]) == [Gave(why)] {
      OrdersOne(Gave(why));
    }
  }

  /** Where the receiver may go at one event, and what it keeps. */
  lemma InGoes(s: In, e: Event)
    ensures var s' := InOn(s, e).0;
      && (s.state.IsOver() ==> s' == s)
      && (s'.state.AwaitingUser? && !s.state.AwaitingUser? ==> s.state.Introducing? && s'.introduction.Some?)
      && (!(s'.state.AwaitingUser? && !s.state.AwaitingUser?) ==> s'.introduction == s.introduction)
      && (s'.state.PairedKey? || s'.state.Introducing? ==> s.state.PairedKey? || s.state.Introducing?)
      && (s'.state.Transferring? ==> s.state.AwaitingUser? || s.state.Transferring?)
      && (s'.state.Done? ==> s.state.AwaitingUser? || s.state.Transferring? || s.state.Done?)
  {
    hide S.BuildCancel, S.BuildVerdict, S.BuildResponse;
  }

  lemma InUnderway(s: In, o: seq<Effect>)
    requires InTold(s, o) && !s.state.IsOver()
    ensures InAsked(s.introduction, o)
  {
  }

  lemma InToldEnding(s: In, o: seq<Effect>, e: Effect)
    requires InAsked(s.introduction, o)
    requires if s.state.Cancelled? then e == CalledOff else if s.state.Done? then e == Finished && s.introduction.Some? else s.state.Failed? && e.Gave?
    ensures InTold(s, o + [e])
  {
    hide InAsked;
    Adds(o, e);
  }

  lemma InToldStep(s: In, o: seq<Effect>, e: Event)
    requires InTold(s, o)
    ensures InTold(InOn(s, e).0, o + Orders(InOn(s, e).1))
  {
    hide InOn, Orders, InAsked;
    InSays(s, e);
    InGoes(s, e);
    Nothing(o);
    var s', said := InOn(s, e).0, Orders(InOn(s, e).1);
    if !s.state.IsOver() && s'.state.IsOver() {
      hide InTold;
      InUnderway(s, o);
      InToldEnding(s', o, said[0]);
    } else if said != [] {
      assert o + said == if o == [] then said else [o[0], said[0]];
    }
  }

  lemma Nothing(o: seq<Effect>)
    ensures o + [] == o
  {
  }

  lemma Adds(o: seq<Effect>, e: Effect)
    ensures (o + [e])[..|o + [e]| - 1] == o && (o + [e])[|o + [e]| - 1] == e
  {
  }

  lemma OutSays(s: Out, e: Event)
    ensures var (s', effects) := OutOn(s, e);
      && (s'.state.Failed? && !s.state.IsOver() ==> |effects| == 1 && effects[0].Gave?)
      && Orders(effects) == (
        if s.state.IsOver() then []
        else if s'.state.Cancelled? then [CalledOff]
        else if s'.state.Done? then [Finished]
        else if s'.state.Failed? then [effects[0]]
        else if s'.state.Transferring? && !s.state.Transferring? then [BeginSending(s.introduction)]
        else [])
  {
    hide S.BuildCancel, Orders;
    OrdersOne(Finished);
    OrdersOne(CalledOff);
    OrdersOne(BeginSending(s.introduction));
    OrdersTwo(Send(S.BuildCancel()), CalledOff);
    forall why: Reason ensures Orders([Gave(why)]) == [Gave(why)] {
      OrdersOne(Gave(why));
    }
  }

  lemma OutGoes(s: Out, e: Event)
    ensures var s' := OutOn(s, e).0;
      && s'.introduction == s.introduction && (s.state.IsOver() ==> s' == s)
      && (s'.state.PairedKey? || s'.state.Introducing? || s'.state.AwaitingUser? ==> s' == s)
      && (s'.state.Transferring? ==> s.state.Introducing? || s.state.Transferring?)
      && (s'.state.Done? ==> s.state.Introducing? || s.state.Transferring? || s.state.Done?)
  {
    hide S.BuildCancel;
  }

  lemma OutToldStep(s: Out, o: seq<Effect>, e: Event)
    requires OutTold(s, o)
    ensures OutTold(OutOn(s, e).0, o + Orders(OutOn(s, e).1))
  {
    hide OutOn, Orders;
    OutSays(s, e);
    OutGoes(s, e);
    Nothing(o);
    if !s.state.IsOver() && OutOn(s, e).0.state.IsOver() {
      Adds(o, Orders(OutOn(s, e).1)[0]);
    }
  }

  lemma StartsTold(intro: Intro, random: Random)
    ensures InTold(InStart(NEW_IN, random).0, Orders(InStart(NEW_IN, random).1))
    ensures OutTold(OutStart(NewOut(intro), random).0, Orders(OutStart(NewOut(intro), random).1))
  {
    hide S.BuildPairedKey, S.BuildVerdict, S.BuildIntroduction, Orders;
    OrdersOne(Gave(NoPairedKeyFrame));
    if random.Some? {
      var key := Send(S.BuildPairedKey(random.value.0, random.value.1));
      OrdersOne(key);
      OrdersTwo(key, Send(S.BuildVerdict(S.Unable)));
      OrdersAppend([key, Send(S.BuildVerdict(S.Unable))], [Send(S.BuildIntroduction(intro))]);
      OrdersOne(Send(S.BuildIntroduction(intro)));
      assert [key, Send(S.BuildVerdict(S.Unable))] + [Send(S.BuildIntroduction(intro))]
        == [key, Send(S.BuildVerdict(S.Unable)), Send(S.BuildIntroduction(intro))];
    }
  }

  /**
    All that the receiver tells its caller, whatever comes: its question, then on acceptance to
    begin, for what was asked about, and one ending that says how it ended.
   */
  lemma {:induction false} ReceiverTells(random: Random, events: seq<Event>)
    ensures InTold(InStateAfter(random, events), Orders(InGiven(random, events)))
    decreases |events|
  {
    hide InTold, InStart, InOn, Orders, Note;
    if events == [] {
      StartsTold(S.EMPTY, random);
    } else {
      var init, e := events[..|events| - 1], events[|events| - 1];
      ReceiverTells(random, init);
      OrdersAppend(InGiven(random, init), InOn(InStateAfter(random, init), e).1);
      InToldStep(InStateAfter(random, init), Orders(InGiven(random, init)), e);
    }
  }

  /** The sender's caller likewise: to begin sending what was offered, on acceptance, and one ending. */
  lemma {:induction false} SenderTells(intro: Intro, random: Random, events: seq<Event>)
    ensures OutTold(OutStateAfter(intro, random, events), Orders(OutGiven(intro, random, events)))
    ensures OutStateAfter(intro, random, events).introduction == intro
    decreases |events|
  {
    hide OutTold, OutStart, OutOn, Orders;
    if events == [] {
      StartsTold(intro, random);
      OutKeeps(intro, random, NewOut(intro), UserCancelled);
    } else {
      var init, e := events[..|events| - 1], events[|events| - 1];
      var s := OutStateAfter(intro, random, init);
      SenderTells(intro, random, init);
      OrdersAppend(OutGiven(intro, random, init), OutOn(s, e).1);
      OutToldStep(s, Orders(OutGiven(intro, random, init)), e);
      OutKeeps(intro, random, s, e);
    }
  }

  lemma KeepsStarted(s: In, o: Out, e: Event)
    ensures InOn(s, e).0.sentPairedKey == s.sentPairedKey && OutOn(o, e).0.sentPairedKey == o.sentPairedKey
  {
    hide S.BuildCancel, S.BuildVerdict, S.BuildResponse;
  }

  /** However a start went and whatever has happened since, starting again does nothing. */
  lemma {:induction false} StartedOnce(intro: Intro, random: Random, events: seq<Event>, again: Random)
    ensures var s := InStateAfter(random, events); s.sentPairedKey && InStart(s, again) == (s, [])
    ensures var o := OutStateAfter(intro, random, events); o.sentPairedKey && OutStart(o, again) == (o, [])
    decreases |events|
  {
    hide InOn, OutOn;
    if events != [] {
      var init, e := events[..|events| - 1], events[|events| - 1];
      StartedOnce(intro, random, init, again);
      KeepsStarted(InStateAfter(random, init), OutStateAfter(intro, random, init), e);
    }
  }

  lemma OutKeeps(intro: Intro, random: Random, s: Out, e: Event)
    ensures OutStart(NewOut(intro), random).0.introduction == intro && OutOn(s, e).0.introduction == s.introduction
  {
    hide S.BuildPairedKey, S.BuildVerdict, S.BuildIntroduction, S.BuildCancel;
  }

  // -------------------------------------------------------- sender and receiver together ---

  datatype Side = Sender | Receiver

  datatype Action = Start(side: Side, random: Random) | Deliver(side: Side) | Local(side: Side, event: Event)

  datatype Happening = Happening(action: Action, effects: seq<Effect>)

  /** The two machines, the bytes in flight each way, and everything that happened. */
  datatype Sys = Sys(out: Out, inn: In, toIn: seq<seq<U8>>, toOut: seq<seq<U8>>, log: seq<Happening>)

  function Initial(intro: Intro): Sys { Sys(NewOut(intro), NEW_IN, [], [], []) }

  function Sends(effects: seq<Effect>): seq<seq<U8>> {
    if effects == [] then []
    else (if effects[0].Send? then [effects[0].bytes] else []) + Sends(effects[1..])
  }

  function AfterOut(s: Sys, r: (Out, seq<Effect>), a: Action): Sys {
    s.(out := r.0, toIn := s.toIn + Sends(r.1), log := s.log + [Happening(a, r.1)])
  }

  function AfterIn(s: Sys, r: (In, seq<Effect>), a: Action): Sys {
    s.(inn := r.0, toOut := s.toOut + Sends(r.1), log := s.log + [Happening(a, r.1)])
  }

  /**
    What can happen. Each machine's first step is `start`, with a random source that works;
    a person answers only a question on the screen; a transfer completes only while running.
   */
  predicate Legal(s: Sys, a: Action) {
    match a
    case Start(Sender, random) => !s.out.sentPairedKey && FullRandom(random)
    case Start(Receiver, random) => !s.inn.sentPairedKey && FullRandom(random)
    case Deliver(Sender) => s.out.sentPairedKey && s.toOut != [] && S.Parse(s.toOut[0]).Ok?
    case Deliver(Receiver) => s.inn.sentPairedKey && s.toIn != [] && S.Parse(s.toIn[0]).Ok?
    case Local(Sender, e) =>
      s.out.sentPairedKey && (e.UserCancelled? || (e.TransferComplete? && s.out.state.Transferring?))
    case Local(Receiver, e) =>
      s.inn.sentPairedKey && (e.UserCancelled? || (e.TransferComplete? && s.inn.state.Transferring?)
        || ((e.UserAccepted? || e.UserRejected?) && s.inn.state.AwaitingUser?))
  }

  predicate FullRandom(random: Random) {
    random.Some? && |random.value.0| == S.SIGNED_DATA_LEN && |random.value.1| == S.SECRET_ID_HASH_LEN
  }

  function Next(s: Sys, a: Action): Sys
    requires Legal(s, a)
  {
    match a
    case Start(Sender, random) => AfterOut(s, OutStart(s.out, random), a)
    case Start(Receiver, random) => AfterIn(s, InStart(s.inn, random), a)
    case Deliver(Sender) =>
      AfterOut(s.(toOut := s.toOut[1..]), OutOn(s.out, FrameEvent(S.Parse(s.toOut[0]).value)), a)
    case Deliver(Receiver) =>
      AfterIn(s.(toIn := s.toIn[1..]), InOn(s.inn, FrameEvent(S.Parse(s.toIn[0]).value)), a)
    case Local(Sender, e) => AfterOut(s, OutOn(s.out, e), a)
    case Local(Receiver, e) => AfterIn(s, InOn(s.inn, e), a)
  }

  /** Where a run of legal actions leads; `None` if one of them was not legal. */
  function Run(intro: Intro, actions: seq<Action>): Option<Sys> {
    if actions == [] then Some(Initial(intro))
    else
      var s :- Run(intro, actions[..|actions| - 1]);
      if Legal(s, actions[|actions| - 1]) then Some(Next(s, actions[|actions| - 1])) else None
  }

  // What a queued frame reads as.

  ghost predicate Shows(b: seq<U8>, f: S.Frame) { S.Parse(b) == Ok(f) }

  ghost predicate IsIntro(b: seq<U8>, i: Intro) { Shows(b, S.Introduce(i)) }

  ghost predicate IsVerdict(b: seq<U8>) { S.Parse(b).Ok? && S.Parse(b).value.PairedKeyResult? }

  ghost predicate IsAccept(b: seq<U8>) { Shows(b, S.Response(S.Accept)) }

  ghost predicate IsReject(b: seq<U8>) { Shows(b, S.Response(S.Reject)) }

  ghost predicate IsNoise(b: seq<U8>) {
    S.Parse(b).Ok? && (S.Parse(b).value.PairedKeyEncryption? || S.Parse(b).value.PairedKeyResult? || S.Parse(b).value.Cancel?)
  }

  ghost predicate IsAnswer(b: seq<U8>) { IsAccept(b) || IsReject(b) }

  /** The person accepted and the receiver began, for introduction `i`. */
  ghost predicate Accepted(log: seq<Happening>, i: Intro) {
    exists k :: 0 <= k < |log| && log[k].action == Local(Receiver, UserAccepted) && BeginReceiving(i) in log[k].effects
  }

  /** What is on its way to the receiver. */
  ghost predicate ToReceiver(q: seq<seq<U8>>, inn: In, i: Intro) {
    && (forall k :: 0 <= k < |q| ==> IsNoise(q[k]) || IsIntro(q[k], i))
    && (forall k, l :: 0 <= k < l < |q| ==> !(IsIntro(q[k], i) && IsIntro(q[l], i)))
    && (inn.state.PairedKey? ==> forall k :: 0 <= k < |q| && IsIntro(q[k], i) ==> k > 0 && IsVerdict(q[k - 1]))
    && (inn.state.AwaitingUser? || inn.state.Transferring? ==> forall k :: 0 <= k < |q| ==> !IsIntro(q[k], i))
  }

  /** What is on its way to the sender. */
  ghost predicate ToSender(q: seq<seq<U8>>, out: Out, inn: In, log: seq<Happening>, i: Intro) {
    && (forall k :: 0 <= k < |q| ==> IsNoise(q[k]) || IsAnswer(q[k]))
    && (forall k, l :: 0 <= k < l < |q| ==> !(IsAnswer(q[k]) && IsAnswer(q[l])))
    && (inn.state.Rank() <= 2 || out.state.Transferring? ==> forall k :: 0 <= k < |q| ==> !IsAnswer(q[k]))
    && (forall k :: 0 <= k < |q| && IsAccept(q[k]) ==> Accepted(log, i))
  }

  /** How the two machines stand to each other. */
  ghost predicate Machines(s: Sys, i: Intro) {
    && s.out.introduction == i
    && !s.out.state.Failed? && !s.inn.state.Failed?
    && (!s.out.sentPairedKey ==> s.out.state.PairedKey? && s.toIn == [] && (s.inn.state.PairedKey? || s.inn.state.Cancelled?))
    && (s.out.sentPairedKey ==> s.out.state.Introducing? || s.out.state.Transferring? || s.out.state.IsOver())
    && (!s.inn.sentPairedKey ==> s.inn == NEW_IN && s.toOut == [])
    && (s.inn.state.AwaitingUser? || s.inn.state.Transferring? ==> s.inn.introduction == Some(i))
    && (s.inn.state.Rank() <= 2 ==> !s.out.state.Transferring?)
  }

  ghost predicate Inv(s: Sys, i: Intro) {
    && Machines(s, i)
    && (s.out.state.Transferring? ==> Accepted(s.log, i))
    && ToReceiver(s.toIn, s.inn, i)
    && ToSender(s.toOut, s.out, s.inn, s.log, i)
  }

  /** A sender offers something, in a frame that fits in memory. */
  predicate Offerable(i: Intro) {
    (i.files != [] || i.texts != []) && |S.BuildIntroduction(i)| < TWO_64
  }

  lemma BuiltFrames(i: Intro, random: Random)
    requires Offerable(i) && FullRandom(random)
    ensures IsNoise(S.BuildPairedKey(random.value.0, random.value.1)) && !IsVerdict(S.BuildPairedKey(random.value.0, random.value.1))
    ensures IsIntro(S.BuildIntroduction(i), i)
  {
    hide S.BuildPairedKey, S.BuildIntroduction, S.Parse;
    S.PairedKeyRoundTrip(random.value.0, random.value.1);
    S.IntroductionRoundTrip(i);
  }

  lemma FixedFrames()
    ensures IsNoise(S.BuildVerdict(S.Unable)) && IsVerdict(S.BuildVerdict(S.Unable))
    ensures IsNoise(S.BuildCancel())
    ensures IsAccept(S.BuildResponse(S.Accept)) && IsReject(S.BuildResponse(S.Reject))
  {
    hide S.BuildVerdict, S.BuildCancel, S.BuildResponse, S.Parse;
    S.VerdictRoundTrip(S.Unable);
    S.CancelRoundTrip();
    S.ResponseRoundTrip(S.Accept);
    S.ResponseRoundTrip(S.Reject);
  }

  lemma AcceptedGrows(log: seq<Happening>, h: Happening, i: Intro)
    requires Accepted(log, i)
    ensures Accepted(log + [h], i)
  {
    var k :| 0 <= k < |log| && log[k].action == Local(Receiver, UserAccepted) && BeginReceiving(i) in log[k].effects;
    assert (log + [h])[k] == log[k];
  }

  lemma AcceptedNow(log: seq<Happening>, h: Happening, i: Intro)
    requires h.action == Local(Receiver, UserAccepted) && BeginReceiving(i) in h.effects
    ensures Accepted(log + [h], i)
  {
    assert (log + [h])[|log|] == h;
  }

  lemma SendsNothing()
    ensures Sends([]) == []
  {
  }

  lemma SendsTwo(a: Effect, b: Effect)
    ensures Sends([a]) == if a.Send? then [a.bytes] else []
    ensures Sends([a, b]) == Sends([a]) + Sends([b])
  {
    assert [a][1..] == [] && [a, b][1..] == [b] && [b][1..] == [];
  }

  lemma SendsThree(a: seq<U8>, b: seq<U8>, c: seq<U8>)
    ensures Sends([Send(a), Send(b), Send(c)]) == [a, b, c]
  {
    assert [Send(a), Send(b), Send(c)][1..] == [Send(b), Send(c)];
    SendsTwo(Send(b), Send(c));
    SendsTwo(Send(c), Send(c));
  }

  lemma NoiseIsNoise(b: seq<U8>, i: Intro)
    ensures IsNoise(b) ==> !IsAnswer(b) && !IsIntro(b, i)
    ensures IsAnswer(b) ==> !IsNoise(b)
    ensures !(IsAccept(b) && IsReject(b)) && (IsAccept(b) || IsReject(b) ==> IsAnswer(b))
  {
  }

  lemma ReceiverQueuePop(q: seq<seq<U8>>, inn: In, inn': In, i: Intro)
    requires ToReceiver(q, inn, i) && q != []
    requires inn'.state.PairedKey? ==> inn.state.PairedKey? && !IsVerdict(q[0])
    requires inn'.state.AwaitingUser? || inn'.state.Transferring? ==>
      inn.state.AwaitingUser? || inn.state.Transferring? || IsIntro(q[0], i)
    ensures ToReceiver(q[1..], inn', i)
  {
    hide IsNoise, IsIntro, IsVerdict;
    assert forall k :: 0 <= k < |q[1..]| ==> q[1..][k] == q[k + 1];
  }

  lemma ReceiverQueuePush(q: seq<seq<U8>>, inn: In, i: Intro, b: seq<U8>)
    requires ToReceiver(q, inn, i) && IsNoise(b)
    ensures ToReceiver(q + [b], inn, i)
  {
    hide IsNoise, IsIntro, IsVerdict, IsAnswer, IsAccept, IsReject;
    NoiseIsNoise(b, i);
    var r := q + [b];
    assert forall k :: 0 <= k < |q| ==> r[k] == q[k];
    assert forall k :: 0 <= k < |r| && IsIntro(r[k], i) ==> k < |q|;
  }

  lemma ReceiverQueueStart(a: seq<U8>, b: seq<U8>, c: seq<U8>, inn: In, i: Intro)
    requires IsNoise(a) && IsNoise(b) && IsVerdict(b) && IsIntro(c, i)
    requires inn.state.PairedKey? || inn.state.Cancelled?
    ensures ToReceiver([a, b, c], inn, i)
  {
    hide IsNoise, IsIntro, IsVerdict, IsAnswer, IsAccept, IsReject;
    NoiseIsNoise(a, i);
    NoiseIsNoise(b, i);
    var q := [a, b, c];
    assert forall k :: 0 <= k < |q| && IsIntro(q[k], i) ==> k == 2;
  }

  lemma SenderQueuePop(q: seq<seq<U8>>, out: Out, out': Out, inn: In, log: seq<Happening>, h: Happening, i: Intro)
    requires ToSender(q, out, inn, log, i) && q != []
    requires out'.state.Transferring? ==> out.state.Transferring? || IsAnswer(q[0])
    ensures ToSender(q[1..], out', inn, log + [h], i)
  {
    hide IsNoise, IsAnswer, IsAccept, Accepted;
    if Accepted(log, i) {
      AcceptedGrows(log, h, i);
    }
    assert forall k :: 0 <= k < |q[1..]| ==> q[1..][k] == q[k + 1];
  }

  lemma SenderQueueSame(q: seq<seq<U8>>, out: Out, out': Out, inn: In, inn': In, log: seq<Happening>, h: Happening, i: Intro)
    requires ToSender(q, out, inn, log, i)
    requires inn'.state.Rank() <= 2 ==> inn.state.Rank() <= 2
    requires out'.state.Transferring? ==> out.state.Transferring?
    ensures ToSender(q, out', inn', log + [h], i)
  {
    hide IsNoise, IsAnswer, IsAccept, Accepted;
    if Accepted(log, i) {
      AcceptedGrows(log, h, i);
    }
  }

  lemma SenderQueueNoise(q: seq<seq<U8>>, out: Out, inn: In, log: seq<Happening>, i: Intro, b: seq<U8>)
    requires ToSender(q, out, inn, log, i) && IsNoise(b)
    ensures ToSender(q + [b], out, inn, log, i)
  {
    hide IsNoise, IsIntro, IsAnswer, IsAccept, IsReject, Accepted;
    NoiseIsNoise(b, i);
    var r := q + [b];
    assert forall k :: 0 <= k < |q| ==> r[k] == q[k];
    assert forall k :: 0 <= k < |r| && IsAnswer(r[k]) ==> k < |q|;
    assert forall k :: 0 <= k < |r| && IsAccept(r[k]) ==> k < |q|;
  }

  lemma SenderQueueAnswer(q: seq<seq<U8>>, out: Out, inn: In, inn': In, log: seq<Happening>, h: Happening, i: Intro, b: seq<U8>)
    requires ToSender(q, out, inn, log, i) && inn.state.Rank() <= 2 && inn'.state.Rank() > 2 && !out.state.Transferring?
    requires IsAnswer(b) && (IsAccept(b) ==> Accepted(log + [h], i))
    ensures ToSender(q + [b], out, inn', log + [h], i)
  {
    assert forall x :: IsAccept(x) ==> IsAnswer(x);
    hide IsNoise, IsAnswer, IsAccept, Accepted;
    var r := q + [b];
    assert forall k :: 0 <= k < |q| ==> r[k] == q[k];
  }

  lemma InvStart(s: Sys, a: Action, i: Intro)
    requires Inv(s, i) && Offerable(i) && Legal(s, a) && a.Start?
    ensures Inv(Next(s, a), i)
  {
    hide S.BuildPairedKey, S.BuildVerdict, S.BuildIntroduction, S.Parse;
    BuiltFrames(i, a.random);
    FixedFrames();
    hide IsNoise, IsVerdict, IsIntro, ToReceiver, ToSender, Accepted, Sends;
    var pk, v, o := S.BuildPairedKey(a.random.value.0, a.random.value.1), S.BuildVerdict(S.Unable), S.BuildIntroduction(i);
    var s' := Next(s, a);
    var h := s'.log[|s.log|];
    if a.side.Sender? {
      SendsThree(pk, v, o);
      ReceiverQueueStart(pk, v, o, s.inn, i);
      assert s'.toIn == [] + [pk, v, o] == [pk, v, o];
      SenderQueueSame(s.toOut, s.out, s'.out, s.inn, s'.inn, s.log, h, i);
    } else {
      SendsTwo(Send(pk), Send(pk));
      SenderQueueSame(s.toOut, s.out, s'.out, s.inn, s'.inn, s.log, h, i);
      SenderQueueNoise(s.toOut, s'.out, s'.inn, s'.log, i, pk);
      ReceiverQueueSame(s.toIn, s.inn, s'.inn, i);
    }
  }

  lemma ReceiverQueueSame(q: seq<seq<U8>>, inn: In, inn': In, i: Intro)
    requires ToReceiver(q, inn, i)
    requires inn'.state.PairedKey? ==> inn.state.PairedKey?
    requires inn'.state.AwaitingUser? || inn'.state.Transferring? ==> inn.state.AwaitingUser? || inn.state.Transferring?
    ensures ToReceiver(q, inn', i)
  {
    hide IsNoise, IsIntro, IsVerdict;
  }

  /** What a frame at the head of the sender's queue can do to it. */
  lemma SenderHears(s: Sys, i: Intro)
    requires Inv(s, i) && s.toOut != [] && s.out.sentPairedKey
    ensures var f, out := S.Parse(s.toOut[0]), s.out;
      f.Ok? && !OutOn(out, FrameEvent(f.value)).0.state.Failed?
      && Sends(OutOn(out, FrameEvent(f.value)).1) == []
      && OutOn(out, FrameEvent(f.value)).0.introduction == out.introduction && OutOn(out, FrameEvent(f.value)).0.sentPairedKey
      && (OutOn(out, FrameEvent(f.value)).0.state == out.state || OutOn(out, FrameEvent(f.value)).0.state.Transferring?
          || OutOn(out, FrameEvent(f.value)).0.state.IsOver())
      && (IsAccept(s.toOut[0]) ==> IsAnswer(s.toOut[0]) && s.inn.state.Rank() > 2)
      && (OutOn(out, FrameEvent(f.value)).0.state.Transferring? ==> out.state.Transferring? || IsAccept(s.toOut[0]))
      && (IsAccept(s.toOut[0]) ==> Accepted(s.log, i))
  {
    hide S.Parse, Accepted, ToReceiver;
    assert IsNoise(s.toOut[0]) || IsAnswer(s.toOut[0]);
    SendsTwo(CalledOff, Finished);
    SendsTwo(Finished, Finished);
    SendsTwo(BeginSending(i), Finished);
  }

  lemma InvSenderHears(s: Sys, a: Action, i: Intro)
    requires Inv(s, i) && Legal(s, a) && a == Deliver(Sender)
    ensures Inv(Next(s, a), i)
  {
    hide S.Parse, IsNoise, IsIntro, IsAnswer, IsAccept, ToReceiver, ToSender, Accepted, Sends, InOn, OutOn;
    var s' := Next(s, a);
    var h := s'.log[|s.log|];
    SenderHears(s, i);
    if Accepted(s.log, i) {
      AcceptedGrows(s.log, h, i);
    }
    SenderQueuePop(s.toOut, s.out, s'.out, s.inn, s.log, h, i);
    assert s'.toIn == s.toIn + [] == s.toIn;
  }

  /** What a local event, legal as it is, can do to the sender. */
  lemma SenderActs(out: Out, e: Event)
    requires e.UserCancelled? || (e.TransferComplete? && out.state.Transferring?)
    ensures var (out', effects) := OutOn(out, e);
      && out'.introduction == out.introduction && out'.sentPairedKey == out.sentPairedKey
      && (out' == out || (out'.state.IsOver() && !out'.state.Failed?))
      && (Sends(effects) == [] || Sends(effects) == [S.BuildCancel()])
  {
    SendsTwo(Send(S.BuildCancel()), CalledOff);
    SendsTwo(CalledOff, Finished);
    SendsTwo(Finished, Finished);
    hide S.BuildCancel;
  }

  lemma InvSenderLocal(s: Sys, a: Action, i: Intro)
    requires Inv(s, i) && Legal(s, a) && a.Local? && a.side.Sender?
    ensures Inv(Next(s, a), i)
  {
    hide S.Parse, S.BuildCancel, S.BuildVerdict, S.BuildResponse, S.BuildIntroduction, S.BuildPairedKey, Sends;
    hide IsNoise, IsIntro, IsVerdict, IsAccept, IsReject, ToReceiver, ToSender, Accepted;
    var s' := Next(s, a);
    var h := s'.log[|s.log|];
    SenderActs(s.out, a.event);
    FixedFrames();
    assert s'.toIn == s.toIn + Sends(h.effects);
    hide OutOn;
    if Accepted(s.log, i) {
      AcceptedGrows(s.log, h, i);
    }
    SenderQueueSame(s.toOut, s.out, s'.out, s.inn, s'.inn, s.log, h, i);
    if Sends(h.effects) == [] {
      assert s.toIn + [] == s.toIn;
    } else {
      ReceiverQueuePush(s.toIn, s.inn, i, S.BuildCancel());
    }
  }

  /** What a frame at the head of the receiver's queue can do to it. */
  lemma ReceiverHears(s: Sys, i: Intro)
    requires Inv(s, i) && Offerable(i) && s.toIn != []
    ensures var f, inn := S.Parse(s.toIn[0]), s.inn;
      && f.Ok?
      && var (inn', effects) := InOn(inn, FrameEvent(f.value));
      && !inn'.state.Failed? && inn'.sentPairedKey == inn.sentPairedKey
      && (Sends(effects) == [] || Sends(effects) == [S.BuildVerdict(S.Unable)])
      && (inn'.state.PairedKey? ==> inn.state.PairedKey? && !IsVerdict(s.toIn[0]))
      && (inn'.state.AwaitingUser? || inn'.state.Transferring? ==>
          inn'.introduction == Some(i) && (inn.state.AwaitingUser? || inn.state.Transferring? || IsIntro(s.toIn[0], i)))
      && (inn'.state.Rank() <= 2 ==> inn.state.Rank() <= 2)
      && (inn'.state.Rank() > 2 ==> inn'.state == inn.state || inn'.state.Cancelled?)
  {
    hide S.Parse, S.BuildVerdict, S.BuildIntroduction, Accepted, ToSender, Sends;
    assert IsNoise(s.toIn[0]) || IsIntro(s.toIn[0], i);
    SendsNothing();
    SendsTwo(CalledOff, Finished);
    SendsTwo(AskUser(i), Finished);
    SendsTwo(Send(S.BuildVerdict(S.Unable)), Finished);
  }

  lemma MachinesHears(s: Sys, a: Action, i: Intro)
    requires Inv(s, i) && Offerable(i) && Legal(s, a) && a == Deliver(Receiver)
    ensures Machines(Next(s, a), i)
  {
    hide S.Parse, S.BuildCancel, S.BuildVerdict, S.BuildResponse, S.BuildIntroduction, S.BuildPairedKey, Sends;
    hide IsNoise, IsIntro, IsVerdict, IsAccept, IsReject, ToReceiver, ToSender, Accepted;
    ReceiverHears(s, i);
    hide InOn;
  }

  lemma InvReceiverHears(s: Sys, a: Action, i: Intro)
    requires Inv(s, i) && Offerable(i) && Legal(s, a) && a == Deliver(Receiver)
    ensures Inv(Next(s, a), i)
  {
    hide S.Parse, S.BuildCancel, S.BuildVerdict, S.BuildResponse, S.BuildIntroduction, S.BuildPairedKey, Sends;
    hide IsNoise, IsIntro, IsVerdict, IsAccept, IsReject, ToReceiver, ToSender, Accepted;
    var s' := Next(s, a);
    var h := s'.log[|s.log|];
    ReceiverHears(s, i);
    MachinesHears(s, a, i);
    FixedFrames();
    assert s'.toOut == s.toOut + Sends(h.effects) && s'.out == s.out && s'.log == s.log + [h];
    assert s'.toIn == s.toIn[1..] && (s'.inn, h.effects) == InOn(s.inn, FrameEvent(S.Parse(s.toIn[0]).value));
    hide InOn, Next, Legal, Machines, Offerable;
    if Accepted(s.log, i) {
      AcceptedGrows(s.log, h, i);
    }
    ReceiverQueuePop(s.toIn, s.inn, s'.inn, i);
    SenderQueueSame(s.toOut, s.out, s'.out, s.inn, s'.inn, s.log, h, i);
    if Sends(h.effects) == [] {
      assert s.toOut + [] == s.toOut;
    } else {
      SenderQueueNoise(s.toOut, s'.out, s'.inn, s'.log, i, S.BuildVerdict(S.Unable));
    }
  }

  /** What a local event, legal as it is, can do to the receiver. */
  lemma ReceiverActs(inn: In, e: Event)
    requires e.UserCancelled? || (e.TransferComplete? && inn.state.Transferring?)
      || ((e.UserAccepted? || e.UserRejected?) && inn.state.AwaitingUser? && inn.introduction.Some?)
    ensures var (inn', effects) := InOn(inn, e);
      && inn'.sentPairedKey == inn.sentPairedKey && inn'.introduction == inn.introduction && !(inn'.state.Failed? && inn' != inn)
      && (inn' == inn || inn'.state.Rank() > 2)
      && (inn'.state.Transferring? ==> inn.state.AwaitingUser? || inn.state.Transferring?)
      && !(inn'.state.AwaitingUser? && inn' != inn)
      && (inn.state.PairedKey? || inn.state.Cancelled? ==> inn' == inn || inn'.state.Cancelled?)
      && (Sends(effects) == [] || Sends(effects) == [S.BuildCancel()]
          || (inn.state.AwaitingUser? && Sends(effects) == [S.BuildResponse(S.Reject)])
          || (inn.state.AwaitingUser? && Sends(effects) == [S.BuildResponse(S.Accept)]
              && e.UserAccepted? && BeginReceiving(inn.introduction.value) in effects))
  {
    hide S.BuildCancel, S.BuildResponse, Sends;
    SendsNothing();
    if e.UserCancelled? {
      SendsTwo(Send(S.BuildCancel()), CalledOff);
      SendsTwo(CalledOff, CalledOff);
    } else if e.UserAccepted? {
      var begin := BeginReceiving(inn.introduction.GetOr(S.EMPTY));
      SendsTwo(Send(S.BuildResponse(S.Accept)), begin);
      SendsTwo(begin, begin);
    } else {
      SendsTwo(Send(S.BuildResponse(S.Reject)), Finished);
      SendsTwo(Finished, Finished);
    }
  }

  lemma MachinesLocal(s: Sys, a: Action, i: Intro)
    requires Machines(s, i) && Legal(s, a) && a.Local? && a.side.Receiver?
    ensures Machines(Next(s, a), i)
  {
    hide S.Parse, S.BuildCancel, S.BuildVerdict, S.BuildResponse, S.BuildIntroduction, S.BuildPairedKey, Sends;
    hide IsNoise, IsIntro, IsVerdict, IsAccept, IsReject, ToReceiver, ToSender, Accepted;
    hide InOn;
    ReceiverActs(s.inn, a.event);
  }

  lemma InvReceiverLocal(s: Sys, a: Action, i: Intro)
    requires Inv(s, i) && Legal(s, a) && a.Local? && a.side.Receiver?
    ensures Inv(Next(s, a), i)
  {
    hide S.Parse, S.BuildCancel, S.BuildVerdict, S.BuildResponse, S.BuildIntroduction, S.BuildPairedKey, Sends;
    hide IsNoise, IsIntro, IsVerdict, IsAccept, IsReject, ToReceiver, ToSender, Accepted;
    var s' := Next(s, a);
    var h := s'.log[|s.log|];
    ReceiverActs(s.inn, a.event);
    FixedFrames();
    NoiseIsNoise(S.BuildResponse(S.Reject), i);
    assert IsAnswer(S.BuildResponse(S.Reject)) && IsAnswer(S.BuildResponse(S.Accept));
    assert s'.toOut == s.toOut + Sends(h.effects) && s'.out == s.out && s'.toIn == s.toIn && s'.log == s.log + [h] && s'.inn == InOn(s.inn, a.event).0;
    MachinesLocal(s, a, i);
    assert s.inn.state.Rank() <= 2 ==> !s.out.state.Transferring?;
    assert s.inn.state.AwaitingUser? ==> s.inn.introduction == Some(i);
    hide InOn, Next, Legal, Machines, IsAnswer;
    if Accepted(s.log, i) {
      AcceptedGrows(s.log, h, i);
    }
    ReceiverQueueSame(s.toIn, s.inn, s'.inn, i);
    if Sends(h.effects) == [] {
      assert s.toOut + [] == s.toOut;
      SenderQueueSame(s.toOut, s.out, s'.out, s.inn, s'.inn, s.log, h, i);
    } else if Sends(h.effects) == [S.BuildCancel()] {
      SenderQueueSame(s.toOut, s.out, s'.out, s.inn, s'.inn, s.log, h, i);
      SenderQueueNoise(s.toOut, s'.out, s'.inn, s'.log, i, S.BuildCancel());
    } else if Sends(h.effects) == [S.BuildResponse(S.Reject)] {
      SenderQueueAnswer(s.toOut, s.out, s.inn, s'.inn, s.log, h, i, S.BuildResponse(S.Reject));
    } else {
      AcceptedNow(s.log, h, i);
      SenderQueueAnswer(s.toOut, s.out, s.inn, s'.inn, s.log, h, i, S.BuildResponse(S.Accept));
    }
  }

  lemma InvInitial(i: Intro)
    ensures Inv(Initial(i), i)
  {
  }

  lemma InvStep(s: Sys, a: Action, i: Intro)
    requires Inv(s, i) && Offerable(i) && Legal(s, a)
    ensures Inv(Next(s, a), i)
  {
    hide *;
    match a
    case Start(_, _) => InvStart(s, a, i);
    case Deliver(Sender) => InvSenderHears(s, a, i);
    case Deliver(Receiver) => InvReceiverHears(s, a, i);
    case Local(Sender, _) => InvSenderLocal(s, a, i);
    case Local(Receiver, _) => InvReceiverLocal(s, a, i);
  }

  lemma {:induction false} Invariant(intro: Intro, actions: seq<Action>)
    requires Offerable(intro) && Run(intro, actions).Some?
    ensures Inv(Run(intro, actions).value, intro)
    decreases |actions|
  {
    hide Inv, Offerable, Legal, Next;
    if actions == [] {
      InvInitial(intro);
    } else {
      var init, a := actions[..|actions| - 1], actions[|actions| - 1];
      Invariant(intro, init);
      InvStep(Run(intro, init).value, a, intro);
    }
  }

  /** Two honest machines never fail each other, and every frame in flight can be read. */
  lemma NeitherFails(intro: Intro, actions: seq<Action>)
    requires Offerable(intro) && Run(intro, actions).Some?
    ensures var s := Run(intro, actions).value;
      && !s.out.state.Failed? && !s.inn.state.Failed?
      && (forall k :: 0 <= k < |s.toIn| ==> S.Parse(s.toIn[k]).Ok?)
      && (forall k :: 0 <= k < |s.toOut| ==> S.Parse(s.toOut[k]).Ok?)
  {
    Invariant(intro, actions);
    hide S.Parse, Run, Accepted;
  }

  /**
    Sending begins only after the receiver's person accepted and the receiver began, for
    the same introduction.
   */
  lemma SendingAfterConsent(intro: Intro, actions: seq<Action>, a: Action, i: Intro)
    requires Offerable(intro) && Run(intro, actions).Some? && Legal(Run(intro, actions).value, a)
    requires var s := Run(intro, actions).value; BeginSending(i) in Next(s, a).log[|s.log|].effects
    ensures i == intro && Accepted(Run(intro, actions).value.log, i)
  {
    hide Run, Inv, Offerable;
    Invariant(intro, actions);
    BeginsByAcceptance(Run(intro, actions).value, a, intro, i);
  }

  lemma BeginsByAcceptance(s: Sys, a: Action, intro: Intro, i: Intro)
    requires Inv(s, intro) && Legal(s, a) && BeginSending(i) in Next(s, a).log[|s.log|].effects
    ensures a == Deliver(Sender) && i == intro && Accepted(s.log, i)
  {
    hide S.Parse, S.BuildCancel, S.BuildResponse, S.BuildVerdict, S.BuildPairedKey, S.BuildIntroduction;
    hide Accepted, Sends, ToReceiver, ToSender, InOnFrame, OutOnFrame;
    match a
    case Start(_, _) =>
    case Deliver(Sender) => SenderHears(s, intro); AcceptanceOnly(s.out, S.Parse(s.toOut[0]).value, i);
    case Deliver(Receiver) => ReceiverNeverSends(s.inn, S.Parse(s.toIn[0]).value, i);
    case Local(_, _) =>
  }

  lemma ReceiverNeverSends(inn: In, f: S.Frame, i: Intro)
    ensures BeginSending(i) !in InOn(inn, FrameEvent(f)).1
  {
  }

  lemma AcceptanceOnly(out: Out, f: S.Frame, i: Intro)
    requires BeginSending(i) in OutOn(out, FrameEvent(f)).1
    ensures f == S.Response(S.Accept) && i == out.introduction
  {
  }
}
