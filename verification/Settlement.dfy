/**
  What the consent exchange comes to. Left to hear everything said, the two machines settle on
  the person's decision; or one of them calls it off, and then both are over.
 */
module Settlement {
  import opened Bytes
  import opened Consent
  import S = Sharing

  /** No one cancels. */
  predicate Calm(actions: seq<Action>) {
    forall k :: 0 <= k < |actions| ==> !CallsOff(actions[k])
  }

  predicate CallsOff(a: Action) { a.Local? && a.event.UserCancelled? }

  /** What the person has decided, if anything. */
  function Decision(actions: seq<Action>): Option<bool> {
    if actions == [] then None
    else After(Decision(actions[..|actions| - 1]), actions[|actions| - 1])
  }

  function After(d: Option<bool>, a: Action): Option<bool> {
    if a == Local(Receiver, UserAccepted) then Some(true)
    else if a == Local(Receiver, UserRejected) then Some(false)
    else d
  }

  // What is on its way, exactly.

  ghost predicate IsKey(b: seq<U8>) { S.Parse(b).Ok? && S.Parse(b).value.PairedKeyEncryption? }

  ghost predicate IsChatter(b: seq<U8>) { IsKey(b) || IsVerdict(b) }

  ghost predicate AllChatter(q: seq<seq<U8>>) { forall k :: 0 <= k < |q| ==> IsChatter(q[k]) }

  /** The sender's three opening frames, less those the receiver has heard. */
  ghost predicate Opening(q: seq<seq<U8>>, started: bool, state: State, i: Intro) {
    match state
    case PairedKey =>
      if !started then q == []
      else (|q| == 3 && IsKey(q[0]) && IsVerdict(q[1]) && IsIntro(q[2], i)) || (|q| == 2 && IsVerdict(q[0]) && IsIntro(q[1], i))
    case Introducing => started && |q| == 1 && IsIntro(q[0], i)
    case _ => started && q == []
  }

  ghost predicate IsReply(b: seq<U8>, yes: bool) { if yes then IsAccept(b) else IsReject(b) }

  /** The receiver's frames: chatter, and behind it the answer if it has been given and not heard. */
  ghost predicate Answering(q: seq<seq<U8>>, pending: Option<bool>) {
    match pending
    case None => AllChatter(q)
    case Some(yes) => q != [] && AllChatter(q[..|q| - 1]) && IsReply(q[|q| - 1], yes)
  }

  /** Where each machine may be after such a decision. */
  ghost predicate Stands(s: Sys, d: Option<bool>) {
    match d
    case None =>
      && (s.inn.state.PairedKey? || s.inn.state.Introducing? || s.inn.state.AwaitingUser?) && Answering(s.toOut, None)
      && s.out.state == (if s.out.sentPairedKey then Introducing else PairedKey)
    case Some(true) =>
      && (s.inn.state.Transferring? || s.inn.state.Done?) && s.out.sentPairedKey
      && (if s.out.state.Introducing? then Answering(s.toOut, Some(true))
          else (s.out.state.Transferring? || s.out.state.Done?) && Answering(s.toOut, None))
    case Some(false) =>
      && s.inn.state.Done? && s.out.sentPairedKey
      && (if s.out.state.Introducing? then Answering(s.toOut, Some(false)) else s.out.state.Done? && Answering(s.toOut, None))
  }

  ghost predicate Settling(s: Sys, i: Intro, d: Option<bool>) {
    && s.out.introduction == i
    && Opening(s.toIn, s.out.sentPairedKey, s.inn.state, i)
    && (!s.inn.sentPairedKey ==> s.inn == NEW_IN && s.toOut == [])
    && (s.inn.state.AwaitingUser? || s.inn.state.Transferring? ==> s.inn.introduction == Some(i))
    && Stands(s, d)
  }

  /** An upper bound on the steps still to come: starts, deliveries, one decision and two completions. */
  function Left(s: Sys): nat {
    (if !s.out.sentPairedKey then 5 else if s.out.state.Done? then 0 else 1)
    + (match s.inn.state
       case PairedKey => if !s.inn.sentPairedKey then 6 else if s.out.sentPairedKey && |s.toIn| == 2 then 3 else 4
       case Introducing => 3
       case AwaitingUser => 3
       case Transferring => 1
       case _ => 0)
    + |s.toIn| + |s.toOut|
  }

  // Queues.

  lemma PopAnswer(q: seq<seq<U8>>, pending: Option<bool>)
    requires Answering(q, pending) && q != []
    ensures pending.Some? && |q| == 1 ==> IsReply(q[0], pending.value) && Answering(q[1..], None)
    ensures !(pending.Some? && |q| == 1) ==> IsChatter(q[0]) && Answering(q[1..], pending)
  {
    hide IsChatter, IsReply;
    assert forall k :: 0 <= k < |q[1..]| ==> q[1..][k] == q[k + 1];
    if pending.Some? && |q| > 1 {
      assert q[..|q| - 1][0] == q[0];
      assert q[1..][..|q[1..]| - 1] == q[..|q| - 1][1..];
    }
  }

  lemma PushChatter(q: seq<seq<U8>>, b: seq<U8>)
    requires Answering(q, None) && IsChatter(b)
    ensures Answering(q + [b], None)
  {
    hide IsChatter;
  }

  lemma PushAnswer(q: seq<seq<U8>>, b: seq<U8>, yes: bool)
    requires Answering(q, None) && IsReply(b, yes)
    ensures Answering(q + [b], Some(yes))
  {
    hide IsChatter, IsReply;
    assert (q + [b])[..|q|] == q;
  }

  lemma Built(i: Intro, random: Random)
    requires Offerable(i) && FullRandom(random)
    ensures IsKey(S.BuildPairedKey(random.value.0, random.value.1)) && IsIntro(S.BuildIntroduction(i), i)
  {
    hide S.BuildPairedKey, S.BuildIntroduction, S.Parse;
    S.PairedKeyRoundTrip(random.value.0, random.value.1);
    S.IntroductionRoundTrip(i);
  }

  lemma Fixed()
    ensures IsVerdict(S.BuildVerdict(S.Unable))
    ensures IsReply(S.BuildResponse(S.Accept), true) && IsReply(S.BuildResponse(S.Reject), false)
  {
    hide IsNoise, IsVerdict, IsAccept, IsReject;
    FixedFrames();
  }

  // What each machine does with what can reach it.

  lemma SenderTakes(out: Out, b: seq<U8>, yes: bool)
    requires S.Parse(b).Ok?
    ensures var (out', effects) := OutOn(out, FrameEvent(S.Parse(b).value));
      && (IsChatter(b) ==> out' == out && Sends(effects) == [])
      && (IsReply(b, yes) && out.state.Introducing? ==>
            out' == out.(state := if yes then Transferring else Done) && Sends(effects) == [])
  {
    hide S.Parse;
    SendsTwo(Finished, Finished);
    SendsTwo(BeginSending(out.introduction), Finished);
  }

  lemma ReceiverTakes(inn: In, b: seq<U8>, i: Intro)
    requires S.Parse(b).Ok? && Offerable(i)
    ensures var (inn', effects) := InOn(inn, FrameEvent(S.Parse(b).value));
      && (IsKey(b) && inn.state.PairedKey? ==> inn' == inn && Sends(effects) == [S.BuildVerdict(S.Unable)])
      && (IsVerdict(b) && inn.state.PairedKey? ==> inn' == inn.(seenPeerResult := true, state := Introducing) && Sends(effects) == [])
      && (IsIntro(b, i) && inn.state.Introducing? ==> inn' == inn.(introduction := Some(i), state := AwaitingUser) && Sends(effects) == [])
  {
    hide S.Parse, S.BuildVerdict, S.BuildIntroduction;
    SendsTwo(AskUser(i), Finished);
    SendsTwo(Send(S.BuildVerdict(S.Unable)), Finished);
  }

  lemma ReceiverDecides(inn: In, e: Event)
    requires inn.state.AwaitingUser? || e.TransferComplete?
    ensures var (inn', effects) := InOn(inn, e);
      && (e.UserAccepted? ==> inn' == inn.(state := Transferring) && Sends(effects) == [S.BuildResponse(S.Accept)])
      && (e.UserRejected? ==> inn' == inn.(state := Done) && Sends(effects) == [S.BuildResponse(S.Reject)])
      && (e.TransferComplete? && inn.state.Transferring? ==> inn' == inn.(state := Done) && Sends(effects) == [])
  {
    hide S.BuildResponse;
    var begin := BeginReceiving(inn.introduction.GetOr(S.EMPTY));
    SendsTwo(Send(S.BuildResponse(S.Accept)), begin);
    SendsTwo(Send(S.BuildResponse(S.Reject)), Finished);
    SendsTwo(Finished, Finished);
  }

  // What a step comes to.

  lemma Ends(q: seq<seq<U8>>)
    ensures q + [] == q
  {
  }

  lemma SenderStarts(s: Sys, random: Random)
    requires Legal(s, Start(Sender, random))
    ensures var t := Next(s, Start(Sender, random));
      && t.out == s.out.(sentPairedKey := true, state := Introducing) && t.inn == s.inn && t.toOut == s.toOut
      && t.toIn == s.toIn + [S.BuildPairedKey(random.value.0, random.value.1), S.BuildVerdict(S.Unable), S.BuildIntroduction(s.out.introduction)]
  {
    hide S.BuildPairedKey, S.BuildVerdict, S.BuildIntroduction, Sends;
    SendsThree(S.BuildPairedKey(random.value.0, random.value.1), S.BuildVerdict(S.Unable), S.BuildIntroduction(s.out.introduction));
  }

  lemma ReceiverStarts(s: Sys, random: Random)
    requires Legal(s, Start(Receiver, random))
    ensures var t := Next(s, Start(Receiver, random));
      && t.inn == s.inn.(sentPairedKey := true) && t.out == s.out && t.toIn == s.toIn
      && t.toOut == s.toOut + [S.BuildPairedKey(random.value.0, random.value.1)]
  {
    hide S.BuildPairedKey, Sends;
    SendsTwo(Send(S.BuildPairedKey(random.value.0, random.value.1)), Finished);
  }

  lemma SettlingStart(s: Sys, a: Action, i: Intro, d: Option<bool>)
    requires Settling(s, i, d) && Offerable(i) && Legal(s, a) && a.Start?
    ensures Settling(Next(s, a), i, d) && Left(Next(s, a)) < Left(s)
  {
    hide Next, S.BuildPairedKey, S.BuildVerdict, S.BuildIntroduction, Sends, IsKey, IsVerdict, IsIntro, IsReply, IsChatter, Answering, Offerable;
    Built(i, a.random);
    Fixed();
    var key := S.BuildPairedKey(a.random.value.0, a.random.value.1);
    if a.side.Sender? {
      SenderStarts(s, a.random);
    } else {
      ReceiverStarts(s, a.random);
      IsSomeChatter(key);
      if Answering(s.toOut, None) {
        PushChatter(s.toOut, key);
      }
    }
  }

  lemma IsSomeChatter(b: seq<U8>)
    ensures IsKey(b) || IsVerdict(b) ==> IsChatter(b)
  {
  }

  lemma SenderHas(s: Sys)
    requires Legal(s, Deliver(Sender))
    ensures var (out', effects) := OutOn(s.out, FrameEvent(S.Parse(s.toOut[0]).value));
      Next(s, Deliver(Sender)) == Sys(out', s.inn, s.toIn + Sends(effects), s.toOut[1..], Next(s, Deliver(Sender)).log)
  {
    hide S.Parse, OutOn, Sends;
  }

  lemma ReceiverHas(s: Sys)
    requires Legal(s, Deliver(Receiver))
    ensures var (inn', effects) := InOn(s.inn, FrameEvent(S.Parse(s.toIn[0]).value));
      Next(s, Deliver(Receiver)) == Sys(s.out, inn', s.toIn[1..], s.toOut + Sends(effects), Next(s, Deliver(Receiver)).log)
  {
    hide S.Parse, InOn, Sends;
  }

  lemma SettlingSender(s: Sys, i: Intro, d: Option<bool>)
    requires Settling(s, i, d) && Legal(s, Deliver(Sender))
    ensures Settling(Next(s, Deliver(Sender)), i, d) && Left(Next(s, Deliver(Sender))) < Left(s)
  {
    hide Next, S.Parse, OutOn, Sends, IsChatter, IsReply, Answering, Opening;
    var pending := if d.Some? && s.out.state.Introducing? then d else None;
    SenderHas(s);
    Ends(s.toIn);
    PopAnswer(s.toOut, pending);
    SenderTakes(s.out, s.toOut[0], pending.GetOr(true));
  }

  lemma SettlingReceiver(s: Sys, i: Intro, d: Option<bool>)
    requires Settling(s, i, d) && Offerable(i) && Legal(s, Deliver(Receiver))
    ensures Settling(Next(s, Deliver(Receiver)), i, d) && Left(Next(s, Deliver(Receiver))) < Left(s)
  {
    hide Next, S.Parse, InOn, Sends, IsChatter, IsReply, Answering, IsKey, IsVerdict, IsIntro, Offerable, S.BuildVerdict;
    ReceiverHas(s);
    Ends(s.toOut);
    ReceiverTakes(s.inn, s.toIn[0], i);
    Fixed();
    IsSomeChatter(S.BuildVerdict(S.Unable));
    if Answering(s.toOut, None) {
      PushChatter(s.toOut, S.BuildVerdict(S.Unable));
    }
  }

  lemma SenderDoes(s: Sys, e: Event)
    requires Legal(s, Local(Sender, e)) && !e.UserCancelled?
    ensures var t := Next(s, Local(Sender, e));
      s.out.state.Transferring? && t.out == s.out.(state := Done) && t.inn == s.inn && t.toIn == s.toIn && t.toOut == s.toOut
  {
    SendsTwo(Finished, Finished);
    Ends(s.toIn);
    hide Sends;
  }

  lemma ReceiverDoes(s: Sys, e: Event)
    requires Legal(s, Local(Receiver, e)) && !e.UserCancelled?
    ensures var t := Next(s, Local(Receiver, e));
      && t.out == s.out && t.toIn == s.toIn
      && (if e.UserAccepted? then s.inn.state.AwaitingUser? && t.inn == s.inn.(state := Transferring) && t.toOut == s.toOut + [S.BuildResponse(S.Accept)]
          else if e.UserRejected? then s.inn.state.AwaitingUser? && t.inn == s.inn.(state := Done) && t.toOut == s.toOut + [S.BuildResponse(S.Reject)]
          else s.inn.state.Transferring? && t.inn == s.inn.(state := Done) && t.toOut == s.toOut)
  {
    hide InOn, Sends, S.BuildResponse;
    ReceiverDecides(s.inn, e);
    Ends(s.toOut);
  }

  lemma SettlingLocal(s: Sys, a: Action, i: Intro, d: Option<bool>)
    requires Settling(s, i, d) && Legal(s, a) && a.Local? && !CallsOff(a)
    ensures Settling(Next(s, a), i, After(d, a)) && Left(Next(s, a)) < Left(s)
  {
    hide Next, IsReply, Answering, S.BuildResponse, IsIntro, IsVerdict, IsKey;
    Fixed();
    if a.side.Sender? {
      SenderDoes(s, a.event);
    } else {
      ReceiverDoes(s, a.event);
      if a.event.UserAccepted? {
        PushAnswer(s.toOut, S.BuildResponse(S.Accept), true);
      } else if a.event.UserRejected? {
        PushAnswer(s.toOut, S.BuildResponse(S.Reject), false);
      }
    }
  }

  lemma SettlingStep(s: Sys, a: Action, i: Intro, d: Option<bool>)
    requires Settling(s, i, d) && Offerable(i) && Legal(s, a) && !CallsOff(a)
    ensures Settling(Next(s, a), i, After(d, a)) && Left(Next(s, a)) < Left(s)
  {
    hide Settling, Offerable, Legal, Next, Left;
    match a
    case Start(_, _) => SettlingStart(s, a, i, d);
    case Deliver(Sender) => SettlingSender(s, i, d);
    case Deliver(Receiver) => SettlingReceiver(s, i, d);
    case Local(_, _) => SettlingLocal(s, a, i, d);
  }

  lemma SettlingFirst(i: Intro)
    ensures Settling(Initial(i), i, None) && Left(Initial(i)) == 11
  {
  }

  lemma {:induction false} CalmRun(intro: Intro, actions: seq<Action>)
    requires Offerable(intro) && Calm(actions) && Run(intro, actions).Some?
    ensures Settling(Run(intro, actions).value, intro, Decision(actions))
    ensures |actions| + Left(Run(intro, actions).value) <= 11
    decreases |actions|
  {
    hide Settling, Offerable, Legal, Next, Left, CallsOff;
    if actions == [] {
      SettlingFirst(intro);
    } else {
      var init, a := actions[..|actions| - 1], actions[|actions| - 1];
      CalmRun(intro, init);
      SettlingStep(Run(intro, init).value, a, intro, Decision(init));
    }
  }

  // ---------------------------------------------------------------------- theorems ---

  /** Both have started, and there is nothing left that either could hear. */
  ghost predicate Quiet(s: Sys) { forall a: Action :: a.Start? || a.Deliver? ==> !Legal(s, a) }

  lemma SomeRandom() returns (random: Random)
    ensures FullRandom(random)
  {
    random := Some((seq(S.SIGNED_DATA_LEN, _ => 0), seq(S.SECRET_ID_HASH_LEN, _ => 0)));
  }

  lemma QuietMeans(s: Sys)
    requires Quiet(s)
    requires (forall k :: 0 <= k < |s.toIn| ==> S.Parse(s.toIn[k]).Ok?) && forall k :: 0 <= k < |s.toOut| ==> S.Parse(s.toOut[k]).Ok?
    ensures s.out.sentPairedKey && s.inn.sentPairedKey && s.toIn == [] && s.toOut == []
  {
    hide S.Parse, FullRandom;
    var random := SomeRandom();
    assert !Legal(s, Start(Sender, random)) && !Legal(s, Start(Receiver, random));
    assert !Legal(s, Deliver(Sender)) && !Legal(s, Deliver(Receiver));
  }

  /**
    Where a run that nobody calls off has come to once everything said has been heard. Before
    the decision the receiver waits for its person with the sender's introduction; after an
    acceptance both are transferring or done with it; after a refusal both are done.
   */
  lemma Settled(intro: Intro, actions: seq<Action>)
    requires Offerable(intro) && Calm(actions) && Run(intro, actions).Some? && Quiet(Run(intro, actions).value)
    ensures var s := Run(intro, actions).value;
      match Decision(actions)
      case None => s.inn.state == AwaitingUser && s.inn.introduction == Some(intro) && s.out.state == Introducing
      case Some(true) => (s.inn.state == Transferring || s.inn.state == Done) && (s.out.state == Transferring || s.out.state == Done)
      case Some(false) => s.inn.state == Done && s.out.state == Done
  {
    hide Run, Offerable, Calm, Quiet, Decision, S.Parse;
    CalmRun(intro, actions);
    NeitherFails(intro, actions);
    QuietMeans(Run(intro, actions).value);
  }

  /** Every run that nobody calls off is over within eleven steps ... */
  lemma CalmRunsEnd(intro: Intro, actions: seq<Action>)
    requires Offerable(intro) && Calm(actions) && Run(intro, actions).Some?
    ensures |actions| <= 11
  {
    hide *;
    CalmRun(intro, actions);
  }

  ghost predicate Stuck(s: Sys) { forall a: Action :: !CallsOff(a) ==> !Legal(s, a) }

  lemma StuckMeans(s: Sys)
    requires Stuck(s) && s.out.sentPairedKey && s.inn.sentPairedKey
    ensures !s.out.state.Transferring? && !s.inn.state.Transferring? && !s.inn.state.AwaitingUser?
  {
    assert !Legal(s, Local(Sender, TransferComplete)) && !Legal(s, Local(Receiver, TransferComplete));
    assert !Legal(s, Local(Receiver, UserAccepted));
  }

  /** ... and one that can go no further has been decided, and both machines are done. */
  lemma CalmOutcome(intro: Intro, actions: seq<Action>)
    requires Offerable(intro) && Calm(actions) && Run(intro, actions).Some? && Stuck(Run(intro, actions).value)
    ensures var s := Run(intro, actions).value;
      Decision(actions).Some? && s.inn.state == Done && s.out.state == Done
  {
    hide Run, Offerable, Calm, Decision, S.Parse, Legal, Stuck;
    var s := Run(intro, actions).value;
    StuckIsQuiet(s);
    Settled(intro, actions);
    NeitherFails(intro, actions);
    QuietMeans(s);
    StuckMeans(s);
  }

  lemma StuckIsQuiet(s: Sys)
    requires Stuck(s)
    ensures Quiet(s)
  {
    hide Legal;
  }

  // ------------------------------------------------------------------ runs called off ---

  /** Somebody has called the exchange off, or heard that it was. */
  predicate Ended(s: Sys) { s.out.state.Cancelled? || s.inn.state.Cancelled? }

  ghost predicate IsCancel(b: seq<U8>) { S.Parse(b) == Ok(S.Cancel) }

  /** A cancel frame is on its way. */
  ghost predicate CancelIn(q: seq<seq<U8>>) { exists k :: 0 <= k < |q| && IsCancel(q[k]) }

  /** One side's cancellation is on its way to the other, unless that is over already; and only such a side sends one. */
  ghost predicate Heeded(from: State, to: State, q: seq<seq<U8>>) {
    && (from.Cancelled? ==> to.IsOver() || CancelIn(q))
    && (CancelIn(q) ==> from.IsOver())
  }

  lemma CancelStays(q: seq<seq<U8>>, more: seq<seq<U8>>)
    ensures CancelIn(q + more) <==> CancelIn(q) || CancelIn(more)
  {
    hide IsCancel;
    if k :| 0 <= k < |q| && IsCancel(q[k]) {
      assert IsCancel((q + more)[k]);
    }
    if k :| 0 <= k < |more| && IsCancel(more[k]) {
      assert IsCancel((q + more)[|q| + k]);
    }
  }

  lemma CancelPopped(q: seq<seq<U8>>)
    requires q != []
    ensures CancelIn(q) <==> IsCancel(q[0]) || CancelIn(q[1..])
  {
    hide IsCancel;
    if k :| 0 <= k < |q| && IsCancel(q[k]) {
      assert k > 0 ==> IsCancel(q[1..][k - 1]);
    }
    if k :| 0 <= k < |q[1..]| && IsCancel(q[1..][k]) {
      assert IsCancel(q[k + 1]);
    }
  }

  lemma CancelAlone(b: seq<U8>)
    ensures CancelIn([]) == false && (CancelIn([b]) <==> IsCancel(b))
  {
    hide IsCancel;
    if IsCancel(b) {
      assert IsCancel([b][0]);
    }
  }

  lemma Cancels()
    ensures IsCancel(S.BuildCancel())
  {
    S.CancelRoundTrip();
  }

  lemma NotCancel(b: seq<U8>, i: Intro, yes: bool)
    ensures IsKey(b) || IsVerdict(b) || IsIntro(b, i) || IsReply(b, yes) ==> !IsCancel(b)
  {
  }

  /** A cancellation by a side not yet over sends the one frame that says so; nothing else a sender hears or does sends any. */
  lemma SenderCancels(out: Out, e: Event)
    ensures var (out', effects) := OutOn(out, e);
      && (out.state.IsOver() ==> out' == out)
      && Sends(effects) == (if e.UserCancelled? && !out.state.IsOver() then [S.BuildCancel()] else [])
      && ((e.UserCancelled? || e == FrameEvent(S.Cancel)) && !out.state.IsOver() ==> out'.state.Cancelled?)
      && (out'.state.Cancelled? ==> out.state.Cancelled? || e.UserCancelled? || e == FrameEvent(S.Cancel))
  {
    hide Sends, S.BuildCancel;
    SendsNothing();
    SendsTwo(Send(S.BuildCancel()), CalledOff);
    SendsTwo(CalledOff, CalledOff);
    SendsTwo(Finished, Finished);
    SendsTwo(BeginSending(out.introduction), Finished);
    forall why: Reason ensures Sends([Gave(why)]) == [] {
      SendsTwo(Gave(why), Finished);
    }
  }

  lemma ReceiverCancels(inn: In, e: Event)
    ensures var (inn', effects) := InOn(inn, e);
      && (inn.state.IsOver() ==> inn' == inn && effects == [])
      && (e.UserCancelled? && !inn.state.IsOver() ==> Sends(effects) == [S.BuildCancel()])
      && (!(e.UserCancelled? && !inn.state.IsOver()) ==>
            || Sends(effects) == [] || Sends(effects) == [S.BuildVerdict(S.Unable)]
            || Sends(effects) == [S.BuildResponse(S.Accept)] || Sends(effects) == [S.BuildResponse(S.Reject)])
      && ((e.UserCancelled? || e == FrameEvent(S.Cancel)) && !inn.state.IsOver() ==> inn'.state.Cancelled?)
      && (inn'.state.Cancelled? ==> inn.state.Cancelled? || e.UserCancelled? || e == FrameEvent(S.Cancel))
  {
    hide Sends, S.BuildCancel, S.BuildVerdict, S.BuildResponse;
    SendsNothing();
    SendsTwo(Send(S.BuildCancel()), CalledOff);
    SendsTwo(CalledOff, CalledOff);
    SendsTwo(Finished, Finished);
    SendsTwo(Send(S.BuildVerdict(S.Unable)), Finished);
    SendsTwo(Send(S.BuildResponse(S.Reject)), Finished);
    SendsTwo(Send(S.BuildResponse(S.Accept)), BeginReceiving(inn.introduction.GetOr(S.EMPTY)));
    SendsTwo(BeginReceiving(inn.introduction.GetOr(S.EMPTY)), Finished);
    if e.FrameEvent? && e.frame.Introduce? {
      SendsTwo(AskUser(e.frame.intro), Finished);
    }
    forall why: Reason ensures Sends([Gave(why)]) == [] {
      SendsTwo(Gave(why), Finished);
    }
  }

  /** Nothing but a cancellation is heard as one. */
  lemma SentKinds(frames: seq<seq<U8>>)
    requires frames == [] || frames == [S.BuildVerdict(S.Unable)] || frames == [S.BuildResponse(S.Accept)] || frames == [S.BuildResponse(S.Reject)]
    ensures !CancelIn(frames)
  {
    hide IsCancel, IsVerdict, IsReply, IsKey, IsIntro, S.BuildVerdict, S.BuildResponse;
    Fixed();
    NotCancel(S.BuildVerdict(S.Unable), S.EMPTY, true);
    NotCancel(S.BuildResponse(S.Accept), S.EMPTY, true);
    NotCancel(S.BuildResponse(S.Reject), S.EMPTY, false);
    CancelAlone(S.BuildVerdict(S.Unable));
    CancelAlone(S.BuildResponse(S.Accept));
    CancelAlone(S.BuildResponse(S.Reject));
  }

  ghost predicate Heard(s: Sys) { Heeded(s.out.state, s.inn.state, s.toIn) && Heeded(s.inn.state, s.out.state, s.toOut) }

  lemma HeardStart(s: Sys, a: Action)
    requires Heard(s) && Offerable(s.out.introduction) && Legal(s, a) && a.Start? && !s.out.state.Failed? && !s.inn.state.Failed?
    requires !s.out.sentPairedKey ==> s.out.state.PairedKey?
    requires !s.inn.sentPairedKey ==> s.inn == NEW_IN
    ensures Heard(Next(s, a))
  {
    hide Next, Offerable, CancelIn, IsCancel, IsKey, IsVerdict, IsIntro, IsReply, S.BuildPairedKey, S.BuildVerdict, S.BuildIntroduction;
    var key := S.BuildPairedKey(a.random.value.0, a.random.value.1);
    Built(s.out.introduction, a.random);
    Fixed();
    NotCancel(key, s.out.introduction, true);
    NotCancel(S.BuildVerdict(S.Unable), s.out.introduction, true);
    NotCancel(S.BuildIntroduction(s.out.introduction), s.out.introduction, true);
    CancelAlone(key);
    CancelAlone(S.BuildVerdict(S.Unable));
    CancelAlone(S.BuildIntroduction(s.out.introduction));
    if a.side.Sender? {
      SenderStarts(s, a.random);
      var v, o := S.BuildVerdict(S.Unable), S.BuildIntroduction(s.out.introduction);
      CancelStays([key], [v]);
      CancelStays([key] + [v], [o]);
      assert [key] + [v] + [o] == [key, v, o];
      CancelStays(s.toIn, [key, v, o]);
    } else {
      ReceiverStarts(s, a.random);
      CancelStays(s.toOut, [key]);
    }
  }

  lemma HeardSender(s: Sys, a: Action)
    requires Heard(s) && Legal(s, a) && (a == Deliver(Sender) || (a.Local? && a.side.Sender?))
    ensures Heard(Next(s, a)) && Next(s, a).inn == s.inn
  {
    hide S.Parse, OutOn, Sends, CancelIn, S.BuildCancel;
    Cancels();
    CancelAlone(S.BuildCancel());
    if a.Deliver? {
      var f := S.Parse(s.toOut[0]).value;
      SenderCancels(s.out, FrameEvent(f));
      CancelPopped(s.toOut);
      CancelStays(s.toIn, []);
      Ends(s.toIn);
    } else {
      SenderCancels(s.out, a.event);
      CancelStays(s.toIn, if a.event.UserCancelled? && !s.out.state.IsOver() then [S.BuildCancel()] else []);
    }
  }

  lemma HeardReceiver(s: Sys, a: Action)
    requires Heard(s) && Legal(s, a) && (a == Deliver(Receiver) || (a.Local? && a.side.Receiver?))
    ensures Heard(Next(s, a)) && Next(s, a).out == s.out
  {
    hide S.Parse, InOn, Sends, CancelIn, S.BuildCancel, S.BuildVerdict, S.BuildResponse;
    Cancels();
    CancelAlone(S.BuildCancel());
    var e := if a.Deliver? then FrameEvent(S.Parse(s.toIn[0]).value) else a.event;
    var frames := Sends(InOn(s.inn, e).1);
    ReceiverCancels(s.inn, e);
    if !(e.UserCancelled? && !s.inn.state.IsOver()) {
      SentKinds(frames);
    }
    CancelStays(s.toOut, frames);
    if a.Deliver? {
      CancelPopped(s.toIn);
    }
  }

  /** A machine that is over stays as it was, so a cancellation of it is nothing. */
  lemma EndedStays(s: Sys, a: Action)
    requires Legal(s, a) && !a.Start?
    ensures Ended(s) ==> Ended(Next(s, a))
  {
    hide S.Parse, Sends, S.BuildCancel, S.BuildVerdict, S.BuildResponse, OutOnFrame, InOnFrame;
  }

  lemma StartKeepsEnded(s: Sys, a: Action)
    requires Legal(s, a) && a.Start? && (!s.out.sentPairedKey ==> s.out.state.PairedKey?) && (!s.inn.sentPairedKey ==> s.inn == NEW_IN)
    ensures Ended(s) ==> Ended(Next(s, a))
  {
    hide Sends, S.BuildPairedKey, S.BuildVerdict, S.BuildIntroduction;
  }

  /** Calling off a machine not yet over ends it; calling off one that is over leaves all as it was. */
  lemma CalledOffStep(s: Sys, a: Action, i: Intro, d: Option<bool>)
    requires Settling(s, i, d) && Legal(s, a) && CallsOff(a)
    ensures Ended(Next(s, a)) || Settling(Next(s, a), i, d)
  {
    hide Sends, Opening, Answering, S.BuildCancel;
    SendsNothing();
    Ends(s.toIn);
    Ends(s.toOut);
  }

  lemma InvMeans(s: Sys, i: Intro)
    requires Inv(s, i)
    ensures s.out.introduction == i && !s.out.state.Failed? && !s.inn.state.Failed?
    ensures !s.out.sentPairedKey ==> s.out.state.PairedKey?
    ensures !s.inn.sentPairedKey ==> s.inn == NEW_IN
  {
    hide ToReceiver, ToSender, Accepted;
  }

  lemma {:induction false} AnyRun(intro: Intro, actions: seq<Action>)
    requires Offerable(intro) && Run(intro, actions).Some?
    ensures var s := Run(intro, actions).value; Heard(s) && (Ended(s) || Settling(s, intro, Decision(actions)))
    decreases |actions|
  {
    hide Inv, Settling, Offerable, Legal, Next, Ended, Heard, CallsOff, After;
    if actions == [] {
      SettlingFirst(intro);
      HeardFirst(intro);
    } else {
      var init, a := actions[..|actions| - 1], actions[|actions| - 1];
      var s := Run(intro, init).value;
      AnyRun(intro, init);
      Invariant(intro, init);
      InvMeans(s, intro);
      match a {
        case Start(_, _) =>
          HeardStart(s, a);
          StartKeepsEnded(s, a);
        case Deliver(Sender) =>
          HeardSender(s, a);
          EndedStays(s, a);
        case Deliver(Receiver) =>
          HeardReceiver(s, a);
          EndedStays(s, a);
        case Local(Sender, _) =>
          HeardSender(s, a);
          EndedStays(s, a);
        case Local(Receiver, _) =>
          HeardReceiver(s, a);
          EndedStays(s, a);
      }
      if !Ended(s) {
        if CallsOff(a) {
          CalledOffStep(s, a, intro, Decision(init));
          NoDecision(Decision(init), a);
        } else {
          SettlingStep(s, a, intro, Decision(init));
        }
      }
    }
  }

  lemma NoDecision(d: Option<bool>, a: Action)
    requires CallsOff(a)
    ensures After(d, a) == d
  {
  }

  lemma HeardFirst(i: Intro)
    ensures Heard(Initial(i))
  {
  }

  /**
    Where any run at all has come to once everything said has been heard. If either side has
    called it off both are over; if not, they stand as the person's decision has it.
   */
  lemma SettledOrEnded(intro: Intro, actions: seq<Action>)
    requires Offerable(intro) && Run(intro, actions).Some? && Quiet(Run(intro, actions).value)
    ensures var s := Run(intro, actions).value;
      if Ended(s) then s.out.state.IsOver() && s.inn.state.IsOver()
      else
        match Decision(actions)
        case None => s.inn.state == AwaitingUser && s.inn.introduction == Some(intro) && s.out.state == Introducing
        case Some(true) => (s.inn.state == Transferring || s.inn.state == Done) && (s.out.state == Transferring || s.out.state == Done)
        case Some(false) => s.inn.state == Done && s.out.state == Done
  {
    hide Run, Offerable, Quiet, Decision, S.Parse, IsCancel;
    var s := Run(intro, actions).value;
    AnyRun(intro, actions);
    NeitherFails(intro, actions);
    QuietMeans(s);
  }

  /** So every run that can go no further ends with both machines over, neither of them failed. */
  lemma EveryOutcome(intro: Intro, actions: seq<Action>)
    requires Offerable(intro) && Run(intro, actions).Some? && Stuck(Run(intro, actions).value)
    ensures var s := Run(intro, actions).value;
      s.out.state.IsOver() && s.inn.state.IsOver() && !s.out.state.Failed? && !s.inn.state.Failed?
  {
    hide Run, Offerable, Decision, S.Parse, Legal, Stuck;
    var s := Run(intro, actions).value;
    StuckIsQuiet(s);
    SettledOrEnded(intro, actions);
    NeitherFails(intro, actions);
    QuietMeans(s);
    StuckMeans(s);
  }

  predicate IsOver(s: Sys, side: Side) { if side.Sender? then s.out.state.IsOver() else s.inn.state.IsOver() }

  /**
    A side that calls off before it is over is cancelled by that very step, and the frame that
    says so is the last of what it has on its way.
   */
  lemma CallingOff(intro: Intro, actions: seq<Action>, side: Side)
    requires Offerable(intro) && Run(intro, actions).Some?
    requires Legal(Run(intro, actions).value, Local(side, UserCancelled)) && !IsOver(Run(intro, actions).value, side)
    ensures var s := Run(intro, actions).value; var t := Next(s, Local(side, UserCancelled));
      && (side.Sender? ==> t.out.state.Cancelled? && t.toIn != [] && S.Parse(t.toIn[|t.toIn| - 1]) == Ok(S.Cancel))
      && (side.Receiver? ==> t.inn.state.Cancelled? && t.toOut != [] && S.Parse(t.toOut[|t.toOut| - 1]) == Ok(S.Cancel))
  {
    hide Run, S.Parse, S.BuildCancel, Sends;
    Cancels();
    var s := Run(intro, actions).value;
    SenderCancels(s.out, UserCancelled);
    ReceiverCancels(s.inn, UserCancelled);
  }
}
