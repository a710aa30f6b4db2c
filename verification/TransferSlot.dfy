/**
  The one transfer slot, shared by many threads. Every atomic access is one step, and steps of
  different threads interleave freely.
 */
module TransferSlot {
  import opened Bytes

  /** In milliseconds, as is every clock reading. */
  const STALE_TRANSFER := 180_000

  /** Ids count from 1; 0 is no transfer. Slots tagged with an id hold the id alone. */
  datatype Shared = Shared(
    current: nat, next: nat, needsAwdl: bool, airdropPending: nat,
    upgrade: Option<nat>, wifiDirectActive: bool, abort: Option<nat>, lastActivity: Option<nat>)

  const IDLE := Shared(0, 0, false, 0, None, false, None, None)

  predicate IsStale(s: Shared, now: nat) { s.lastActivity.Some? && now > s.lastActivity.value + STALE_TRANSFER }

  /** Where a call of `finish` is. It drains for as long as it likes, and changes nothing meanwhile. */
  datatype Finish = Drain | FreeCurrent | FreePending | ClearUpgrade | ReleaseRadio | ClearAbort | ClearClock

  function FinishStep(s: Shared, id: nat, f: Finish): Shared {
    match f
    case Drain => s
    case FreeCurrent => if s.current == id then s.(current := 0) else s
    case FreePending => if s.airdropPending == id then s.(airdropPending := 0) else s
    case ClearUpgrade => if s.upgrade == Some(id) then s.(upgrade := None) else s
    case ReleaseRadio => s.(wifiDirectActive := false)
    case ClearAbort => if s.abort == Some(id) then s.(abort := None) else s
    case ClearClock => s.(lastActivity := None)
  }

  function Following(f: Finish): Option<Finish> {
    match f
    case Drain => Some(FreeCurrent)
    case FreeCurrent => Some(FreePending)
    case FreePending => Some(ClearUpgrade)
    case ClearUpgrade => Some(ReleaseRadio)
    case ReleaseRadio => Some(ClearAbort)
    case ClearAbort => Some(ClearClock)
    case ClearClock => None
  }

  /**
    Where a thread is: inside `try_begin`, holding the guard it returned, inside a `finish` it
    called itself or its guard's drop called, or out. `Stray` is anyone else calling `finish`.
   */
  datatype Thread =
    | Loading(awdl: bool)
    | Checking(awdl: bool, seen: nat)
    | Reclaiming(awdl: bool, seen: nat, at: Finish)
    | Allocating(awdl: bool)
    | Swapping(awdl: bool, id: nat)
    | Noting(awdl: bool, id: nat)
    | Pending(id: nat)
    | Touching(id: nat)
    | Holding(id: nat)
    | Finishing(id: nat, at: Finish, dropping: bool)
    | Gone(id: nat)
    | Refused
    | Stray(seen: nat, at: Finish)
    | Out

  predicate CanStep(t: Thread) { !t.Holding? && !t.Gone? && !t.Refused? && !t.Out? }

  /** One atomic access. */
  function Step(s: Shared, t: Thread, now: nat): (Shared, Thread)
    requires CanStep(t)
  {
    match t
    case Loading(awdl) => (s, if s.current != 0 then Checking(awdl, s.current) else Allocating(awdl))
    case Checking(awdl, seen) => (s, if IsStale(s, now) then Reclaiming(awdl, seen, Drain) else Refused)
    case Reclaiming(awdl, seen, f) =>
      (FinishStep(s, seen, f), if Following(f).Some? then Reclaiming(awdl, seen, Following(f).value) else Allocating(awdl))
    case Allocating(awdl) => (s.(next := s.next + 1), Swapping(awdl, s.next + 1))
    case Swapping(awdl, id) => if s.current == 0 then (s.(current := id), Noting(awdl, id)) else (s, Refused)
    case Noting(awdl, id) => (s.(needsAwdl := awdl), if awdl then Pending(id) else Touching(id))
    case Pending(id) => (s.(airdropPending := id), Touching(id))
    case Touching(id) => (s.(lastActivity := Some(now)), Holding(id))
    case Finishing(id, f, dropping) =>
      (FinishStep(s, id, f),
       if Following(f).Some? then Finishing(id, Following(f).value, dropping) else if dropping then Gone(id) else Holding(id))
    case Stray(seen, f) => (FinishStep(s, seen, f), if Following(f).Some? then Stray(seen, Following(f).value) else Out)
  }

  /** What the thread that holds a guard may do with it. */
  datatype Deed = Touch | TakeUpgrade | HoldRadio | ArmAbort(cloned: bool) | DisarmAbort | CallFinish | Drop

  function Do(s: Shared, id: nat, deed: Deed, now: nat): (Shared, Thread) {
    match deed
    case Touch => (s.(lastActivity := Some(now)), Holding(id))
    case TakeUpgrade => (if s.upgrade == Some(id) then s.(upgrade := None) else s, Holding(id))
    case HoldRadio => (s.(wifiDirectActive := true), Holding(id))
    case ArmAbort(cloned) => (s.(abort := if cloned then Some(id) else None), Holding(id))
    case DisarmAbort => (if s.abort == Some(id) then s.(abort := None) else s, Holding(id))
    case CallFinish => (s, Finishing(id, Drain, false))
    case Drop => (s, Finishing(id, Drain, true))
  }

  datatype Mark = Claim(id: nat) | Free(id: nat)

  /** `owner` and `log` only record: who was given each id, and each change of `current`. */
  datatype Sys = Sys(shared: Shared, threads: seq<Thread>, now: nat, owner: map<nat, nat>, log: seq<Mark>)

  const START := Sys(IDLE, [], 0, map[], [])

  /** `Provide` is a client's answer and `CutOff` a cancel's shutdown: either may come at any time, for any id. */
  datatype Action =
    | Begin(awdl: bool)
    | FinishAny(id: nat)
    | Advance(thread: nat)
    | Act(thread: nat, deed: Deed)
    | Provide(id: nat)
    | CutOff(id: nat)
    | Tick(elapsed: nat)

  predicate Legal(s: Sys, a: Action) {
    match a
    case Advance(t) => t < |s.threads| && CanStep(s.threads[t])
    case Act(t, _) => t < |s.threads| && s.threads[t].Holding?
    case _ => true
  }

  function Marks(before: nat, after: nat): seq<Mark> {
    if before == after then [] else if after == 0 then [Free(before)] else [Claim(after)]
  }

  function With(s: Sys, t: nat, r: (Shared, Thread)): Sys
    requires t < |s.threads|
  {
    s.(shared := r.0, threads := s.threads[t := r.1],
       owner := if r.0.next != s.shared.next then s.owner[r.0.next := t] else s.owner,
       log := s.log + Marks(s.shared.current, r.0.current))
  }

  function Next(s: Sys, a: Action): Sys
    requires Legal(s, a)
  {
    match a
    case Begin(awdl) => s.(threads := s.threads + [Loading(awdl)])
    case FinishAny(id) => s.(threads := s.threads + [Stray(id, Drain)])
    case Advance(t) => With(s, t, Step(s.shared, s.threads[t], s.now))
    case Act(t, deed) => With(s, t, Do(s.shared, s.threads[t].id, deed, s.now))
    case Provide(id) => s.(shared := s.shared.(upgrade := Some(id)))
    case CutOff(id) => if s.shared.abort == Some(id) then s.(shared := s.shared.(abort := None)) else s
    case Tick(elapsed) => s.(now := s.now + elapsed)
  }

  function Run(actions: seq<Action>): Option<Sys> {
    if actions == [] then Some(START)
    else
      var s :- Run(actions[..|actions| - 1]);
      var a := actions[|actions| - 1];
      if Legal(s, a) then Some(Next(s, a)) else None
  }

  // ---------------------------------------------------------------------- the object ---

  /** The object alone, with no other thread in the way: its methods take their steps one after another. */
  class TransferState {
    var current: nat
    var next: nat
    var needsAwdl: bool
    var airdropPending: nat
    var upgrade: Option<nat>
    var wifiDirectActive: bool
    var abort: Option<nat>
    var lastActivity: Option<nat>

    function View(): Shared
      reads this
    {
      Shared(current, next, needsAwdl, airdropPending, upgrade, wifiDirectActive, abort, lastActivity)
    }

    constructor ()
      ensures View() == IDLE
    {
      current, next, needsAwdl, airdropPending := 0, 0, false, 0;
      upgrade, wifiDirectActive, abort, lastActivity := None, false, None, None;
    }

    method TryBegin(awdl: bool, now: nat, unacked: seq<Option<nat>>) returns (id: Option<nat>)
      modifies this
      ensures Alone(old(View()), Loading(awdl), now) == (View(), if id.Some? then Holding(id.value) else Refused)
    {
      var seen := current;
      hide Alone, FinishFrom;
      AloneSteps(View(), awdl, now);
      FinishSteps(View(), seen);
      if seen != 0 {
        if !(lastActivity.Some? && now > lastActivity.value + STALE_TRANSFER) {
          return None;
        }
        Finish(seen, unacked);
      }
      next := next + 1;
      id := None;
      if current == 0 {
        id := Some(next);
        current := next;
        needsAwdl := awdl;
        if awdl {
          airdropPending := next;
        }
        lastActivity := Some(now);
      }
    }

    method Finish(id: nat, unacked: seq<Option<nat>>)
      modifies this
      ensures View() == FinishFrom(old(View()), id, Drain)
    {
      var _ := DrainArmed(id, unacked);
      if current == id {
        current := 0;
      }
      if airdropPending == id {
        airdropPending := 0;
      }
      if upgrade == Some(id) {
        upgrade := None;
      }
      wifiDirectActive := false;
      if abort == Some(id) {
        abort := None;
      }
      lastActivity := None;
      FinishSteps(old(View()), id);
    }

    /** `unacked` is what the kernel says is still on the way at each look, up to the one at which patience runs out. */
    method DrainArmed(id: nat, unacked: seq<Option<nat>>) returns (looks: nat)
      ensures looks <= |unacked| && (abort != Some(id) ==> looks == 0)
      ensures forall i :: 0 <= i < looks ==> unacked[i].Some? && unacked[i].value != 0
      ensures abort == Some(id) && looks < |unacked| ==> unacked[looks] == None || unacked[looks] == Some(0)
    {
      looks := 0;
      if abort != Some(id) {
        return;
      }
      while looks < |unacked| && unacked[looks].Some? && unacked[looks].value != 0
        invariant looks <= |unacked|
        invariant forall i :: 0 <= i < looks ==> unacked[i].Some? && unacked[i].value != 0
      {
        looks := looks + 1;
      }
    }
  }

  /** How far a thread is from the end of what it is doing. */
  function Far(t: Thread): nat {
    match t
    case Loading(_) => 15
    case Checking(_, _) => 14
    case Reclaiming(_, _, f) => 6 + ToGo(f)
    case Allocating(_) => 6
    case Swapping(_, _) => 5
    case Noting(_, _) => 4
    case Pending(_) => 3
    case Touching(_) => 2
    case Finishing(_, f, _) => ToGo(f)
    case Stray(_, f) => ToGo(f)
    case _ => 0
  }

  function ToGo(f: Finish): nat {
    match f
    case Drain => 7
    case FreeCurrent => 6
    case FreePending => 5
    case ClearUpgrade => 4
    case ReleaseRadio => 3
    case ClearAbort => 2
    case ClearClock => 1
  }

  /** A call run to its end with nobody interfering. */
  function Alone(s: Shared, t: Thread, now: nat): (Shared, Thread)
    decreases Far(t)
  {
    if !CanStep(t) then (s, t)
    else
      var (s', t') := Step(s, t, now);
      Alone(s', t', now)
  }

  function FinishFrom(s: Shared, id: nat, f: Finish): Shared
    decreases ToGo(f)
  {
    var s' := FinishStep(s, id, f);
    if Following(f).None? then s' else FinishFrom(s', id, Following(f).value)
  }

  lemma FinishSteps(s: Shared, id: nat)
    ensures var s' := FinishFrom(s, id, Drain);
      && s'.current == (if s.current == id then 0 else s.current)
      && s'.airdropPending == (if s.airdropPending == id then 0 else s.airdropPending)
      && s'.upgrade == (if s.upgrade == Some(id) then None else s.upgrade)
      && s'.abort == (if s.abort == Some(id) then None else s.abort)
      && !s'.wifiDirectActive && s'.lastActivity == None
      && s'.next == s.next && s'.needsAwdl == s.needsAwdl
  {
    var s1 := FinishStep(s, id, FreeCurrent);
    var s2 := FinishStep(s1, id, FreePending);
    var s3 := FinishStep(s2, id, ClearUpgrade);
    var s4 := FinishStep(s3, id, ReleaseRadio);
    var s5 := FinishStep(s4, id, ClearAbort);
    assert FinishFrom(s5, id, ClearClock) == FinishStep(s5, id, ClearClock);
    assert FinishFrom(s4, id, ClearAbort) == FinishFrom(s5, id, ClearClock);
    assert FinishFrom(s3, id, ReleaseRadio) == FinishFrom(s4, id, ClearAbort);
    assert FinishFrom(s2, id, ClearUpgrade) == FinishFrom(s3, id, ReleaseRadio);
    assert FinishFrom(s1, id, FreePending) == FinishFrom(s2, id, ClearUpgrade);
    assert FinishFrom(s, id, FreeCurrent) == FinishFrom(s1, id, FreePending);
  }

  lemma {:induction false} ReclaimAlone(s: Shared, awdl: bool, seen: nat, f: Finish, now: nat)
    ensures Alone(s, Reclaiming(awdl, seen, f), now) == Alone(FinishFrom(s, seen, f), Allocating(awdl), now)
    decreases ToGo(f)
  {
    if Following(f).Some? {
      ReclaimAlone(FinishStep(s, seen, f), awdl, seen, Following(f).value, now);
    }
  }

  /** A claim that nobody interferes with. */
  function Claimed(s: Shared, awdl: bool, now: nat): Shared {
    s.(next := s.next + 1, current := s.next + 1, needsAwdl := awdl,
       airdropPending := if awdl then s.next + 1 else s.airdropPending, lastActivity := Some(now))
  }

  lemma ClaimAlone(s: Shared, awdl: bool, now: nat)
    requires s.current == 0
    ensures Alone(s, Allocating(awdl), now) == (Claimed(s, awdl, now), Holding(s.next + 1))
  {
    var id := s.next + 1;
    var s1 := s.(next := id);
    var s2 := s1.(current := id);
    var s3 := s2.(needsAwdl := awdl);
    assert Alone(s, Allocating(awdl), now) == Alone(s1, Swapping(awdl, id), now);
    assert Alone(s1, Swapping(awdl, id), now) == Alone(s2, Noting(awdl, id), now);
    var s4 := if awdl then s3.(airdropPending := id) else s3;
    assert awdl ==> Alone(s2, Noting(awdl, id), now) == Alone(s3, Pending(id), now) == Alone(s4, Touching(id), now);
    assert !awdl ==> Alone(s2, Noting(awdl, id), now) == Alone(s4, Touching(id), now);
    assert Alone(s4, Touching(id), now) == Alone(s4.(lastActivity := Some(now)), Holding(id), now);
  }

  /** A thread that meets nobody is refused exactly when a transfer is running that is not stale. */
  lemma AloneSteps(s: Shared, awdl: bool, now: nat)
    ensures s.current != 0 && !IsStale(s, now) ==> Alone(s, Loading(awdl), now) == (s, Refused)
    ensures s.current == 0 ==> Alone(s, Loading(awdl), now) == Alone(s, Allocating(awdl), now)
    ensures s.current != 0 && IsStale(s, now) ==>
      Alone(s, Loading(awdl), now) == Alone(FinishFrom(s, s.current, Drain), Allocating(awdl), now)
    ensures var free := if s.current == 0 then s else FinishFrom(s, s.current, Drain);
      free.current == 0 && Alone(free, Allocating(awdl), now) == (Claimed(free, awdl, now), Holding(s.next + 1))
  {
    FinishSteps(s, s.current);
    ClaimAlone(if s.current == 0 then s else FinishFrom(s, s.current, Drain), awdl, now);
    if s.current != 0 {
      assert Alone(s, Loading(awdl), now) == Alone(s, Checking(awdl, s.current), now);
      if IsStale(s, now) {
        ReclaimAlone(s, awdl, s.current, Drain, now);
      }
    }
  }

  // --------------------------------------------------------------------- invariant ---

  predicate HasId(t: Thread) {
    t.Swapping? || t.Noting? || t.Pending? || t.Touching? || t.Holding? || t.Finishing? || t.Gone?
  }

  /** Whether a thread has claimed, and has not got as far as `f` in the drop of its guard. */
  predicate HoldsUntil(t: Thread, f: Finish) {
    t.Noting? || t.Pending? || t.Touching? || t.Holding? || (t.Finishing? && (t.dropping ==> ToGo(t.at) >= ToGo(f)))
  }

  predicate KeepsCurrent(t: Thread) { HoldsUntil(t, FreeCurrent) }

  predicate KeepsPending(t: Thread) { HoldsUntil(t, FreePending) }

  predicate Admits(h: nat, log: seq<Mark>, m: Mark) {
    m.id != 0 && if m.Claim? then h == 0 && m !in log else h == m.id
  }

  /** The transfer left unreleased by a history, if no id was claimed twice or over another and none freed unheld. */
  function Held(log: seq<Mark>): Option<nat> {
    if log == [] then Some(0)
    else
      var init := log[..|log| - 1];
      var m := log[|log| - 1];
      var h :- Held(init);
      if Admits(h, init, m) then Some(if m.Claim? then m.id else 0) else None
  }

  /** Every id in use was given out once, to the thread that carries it. */
  ghost predicate Ids(s: Sys) {
    && (forall id :: id in s.owner ==> 1 <= id <= s.shared.next && s.owner[id] < |s.threads|)
    && (forall t :: 0 <= t < |s.threads| && HasId(s.threads[t]) ==> s.threads[t].id in s.owner && s.owner[s.threads[t].id] == t)
  }

  ghost predicate Owned(s: Sys, id: nat) {
    id in s.owner && s.owner[id] < |s.threads| && HasId(s.threads[s.owner[id]]) && s.threads[s.owner[id]].id == id
  }

  ghost predicate Claims(s: Sys) {
    && (s.shared.current != 0 ==>
          Owned(s, s.shared.current) && KeepsCurrent(s.threads[s.owner[s.shared.current]]))
    && (s.shared.airdropPending != 0 ==>
          Owned(s, s.shared.airdropPending) && KeepsPending(s.threads[s.owner[s.shared.airdropPending]]))
  }

  ghost predicate History(s: Sys) {
    && Held(s.log) == Some(s.shared.current)
    && (forall m :: m in s.log && m.Claim? ==> m.id <= s.shared.next)
    && (forall t :: 0 <= t < |s.threads| && s.threads[t].Swapping? ==> Claim(s.threads[t].id) !in s.log)
  }

  ghost predicate Inv(s: Sys) { Ids(s) && Claims(s) && History(s) }

  lemma HeldMore(log: seq<Mark>, m: Mark)
    ensures Held(log + [m]) ==
      if Held(log).Some? && Admits(Held(log).value, log, m) then Some(if m.Claim? then m.id else 0) else None
  {
    assert (log + [m])[..|log|] == log;
  }

  lemma IdsWith(s: Sys, t: nat, r: (Shared, Thread))
    requires Ids(s) && t < |s.threads|
    requires r.0.next == s.shared.next || r.0.next == s.shared.next + 1
    requires r.0.next == s.shared.next ==> HasId(r.1) ==> HasId(s.threads[t]) && r.1.id == s.threads[t].id
    requires r.0.next != s.shared.next ==> !HasId(s.threads[t]) && HasId(r.1) && r.1.id == r.0.next
    ensures Ids(With(s, t, r))
  {
  }

  lemma HeldAfter(log: seq<Mark>, before: nat, after: nat)
    requires Held(log) == Some(before)
    requires before == after || after == 0 || (before == 0 && Claim(after) !in log)
    ensures Held(log + Marks(before, after)) == Some(after)
  {
    if before == after {
      assert log + Marks(before, after) == log;
    } else {
      HeldMore(log, Marks(before, after)[0]);
      assert Marks(before, after) == [Marks(before, after)[0]];
    }
  }

  lemma HoldersHaveIds()
    ensures forall t: Thread, f: Finish {:trigger HoldsUntil(t, f)} :: HoldsUntil(t, f) ==> HasId(t)
  {
  }

  /** What one step keeps: an id's thread goes on holding what it holds until it gives it up. */
  lemma StepKeeps(s: Shared, t: Thread, now: nat)
    requires CanStep(t)
    ensures var (s', t') := Step(s, t, now);
      && (s'.current != s.current && s'.current != 0 ==> s.current == 0 && t.Swapping? && KeepsCurrent(t') && t'.id == s'.current)
      && (s'.current != 0 && s'.current == s.current && KeepsCurrent(t) && t.id == s.current ==> KeepsCurrent(t') && t'.id == t.id)
  {
  }

  lemma StepKeepsPending(s: Shared, t: Thread, now: nat)
    requires CanStep(t)
    ensures var (s', t') := Step(s, t, now);
      && (s'.airdropPending != s.airdropPending && s'.airdropPending != 0 ==> KeepsPending(t') && t'.id == s'.airdropPending && HasId(t) && t.id == t'.id)
      && (s'.airdropPending != 0 && s'.airdropPending == s.airdropPending && KeepsPending(t) && t.id == s.airdropPending ==>
            KeepsPending(t') && t'.id == t.id)
  {
  }

  lemma StepIds(s: Shared, t: Thread, now: nat)
    requires CanStep(t)
    ensures var (s', t') := Step(s, t, now);
      && (s'.next == s.next || s'.next == s.next + 1)
      && (s'.next == s.next ==> (HasId(t') ==> HasId(t) && t'.id == t.id) && !(t'.Swapping? && !t.Swapping?))
      && (s'.next != s.next ==> !HasId(t) && t'.Swapping? && t'.id == s'.next && s'.current == s.current && s'.airdropPending == s.airdropPending)
      && (t.Swapping? ==> !t'.Swapping?)
  {
  }

  lemma CurrentAdvance(s: Sys, t: nat)
    requires Inv(s) && Legal(s, Advance(t))
    ensures var s' := Next(s, Advance(t)); var c := s'.shared.current;
      c != 0 ==> Owned(s', c) && KeepsCurrent(s'.threads[s'.owner[c]])
  {
    hide Step, History, HoldsUntil, CanStep;
    HoldersHaveIds();
    StepKeeps(s.shared, s.threads[t], s.now);
    StepIds(s.shared, s.threads[t], s.now);
  }

  lemma PendingAdvance(s: Sys, t: nat)
    requires Inv(s) && Legal(s, Advance(t))
    ensures var s' := Next(s, Advance(t)); var c := s'.shared.airdropPending;
      c != 0 ==> Owned(s', c) && KeepsPending(s'.threads[s'.owner[c]])
  {
    hide Step, History, HoldsUntil, CanStep;
    HoldersHaveIds();
    StepKeepsPending(s.shared, s.threads[t], s.now);
    StepIds(s.shared, s.threads[t], s.now);
  }

  lemma HistoryAdvance(s: Sys, t: nat)
    requires Ids(s) && History(s) && Legal(s, Advance(t))
    ensures History(Next(s, Advance(t)))
  {
    hide Held, Step, CanStep, HasId;
    var r := Step(s.shared, s.threads[t], s.now);
    StepKeeps(s.shared, s.threads[t], s.now);
    StepIds(s.shared, s.threads[t], s.now);
    NewClaim(s.shared, s.threads[t], s.now);
    HasSwapper(s.threads[t]);
    HeldAfter(s.log, s.shared.current, r.0.current);
    assert forall u :: 0 <= u < |s.threads| && u != t && s.threads[u].Swapping? && s.threads[t].Swapping? ==>
      s.threads[u].id != s.threads[t].id by { SwappersDiffer(s, t); }
  }

  lemma NewClaim(s: Shared, t: Thread, now: nat)
    requires CanStep(t)
    ensures var (s', t') := Step(s, t, now); s'.current != s.current && s'.current != 0 ==> t.Swapping? && s'.current == t.id
  {
  }

  lemma SwappersDiffer(s: Sys, t: nat)
    requires Ids(s) && t < |s.threads|
    ensures forall u :: 0 <= u < |s.threads| && u != t && s.threads[u].Swapping? && s.threads[t].Swapping? ==> s.threads[u].id != s.threads[t].id
  {
  }

  lemma HasSwapper(t: Thread)
    ensures t.Swapping? ==> HasId(t)
  {
  }

  lemma InvAdvance(s: Sys, t: nat)
    requires Inv(s) && Legal(s, Advance(t))
    ensures Inv(Next(s, Advance(t)))
  {
    hide History, Step, HasId, CanStep, KeepsCurrent, KeepsPending, Owned;
    StepIds(s.shared, s.threads[t], s.now);
    HasSwapper(s.threads[t]);
    HasSwapper(Step(s.shared, s.threads[t], s.now).1);
    IdsWith(s, t, Step(s.shared, s.threads[t], s.now));
    CurrentAdvance(s, t);
    PendingAdvance(s, t);
    HistoryAdvance(s, t);
  }

  lemma InvAct(s: Sys, t: nat, deed: Deed)
    requires Inv(s) && Legal(s, Act(t, deed))
    ensures Inv(Next(s, Act(t, deed)))
  {
    hide Do, Held, HoldsUntil, HasId, Claims, History;
    DeedKeeps(s.shared, s.threads[t], deed, s.now);
    IdsWith(s, t, Do(s.shared, s.threads[t].id, deed, s.now));
    ActClaims(s, t, deed);
    ActHistory(s, t, deed);
  }

  /** Whatever a holder does, it goes on holding, and the claims are not touched. */
  lemma DeedKeeps(s: Shared, t: Thread, deed: Deed, now: nat)
    requires t.Holding?
    ensures var (s', t') := Do(s, t.id, deed, now);
      && s'.current == s.current && s'.next == s.next && s'.airdropPending == s.airdropPending
      && HasId(t) && HasId(t') && t'.id == t.id && !t'.Swapping? && KeepsCurrent(t') && KeepsPending(t')
  {
  }

  lemma ActClaims(s: Sys, t: nat, deed: Deed)
    requires Ids(s) && Claims(s) && Legal(s, Act(t, deed))
    ensures Claims(Next(s, Act(t, deed)))
  {
    hide Do, HoldsUntil, HasId;
    DeedKeeps(s.shared, s.threads[t], deed, s.now);
  }

  lemma ActHistory(s: Sys, t: nat, deed: Deed)
    requires History(s) && Legal(s, Act(t, deed))
    ensures History(Next(s, Act(t, deed)))
  {
    hide Do, Held;
    DeedKeeps(s.shared, s.threads[t], deed, s.now);
    assert s.log + [] == s.log;
  }

  lemma InvOther(s: Sys, a: Action)
    requires Inv(s) && !a.Advance? && !a.Act?
    ensures Inv(Next(s, a))
  {
    hide Held;
  }

  lemma {:induction false} Invariant(actions: seq<Action>)
    requires Run(actions).Some?
    ensures Inv(Run(actions).value)
    decreases |actions|
  {
    if actions == [] {
      InvStart();
    } else {
      hide Inv, Next, Legal;
      var s, a := Run(actions[..|actions| - 1]).value, actions[|actions| - 1];
      Invariant(actions[..|actions| - 1]);
      match a
      case Advance(t) => InvAdvance(s, t);
      case Act(t, deed) => InvAct(s, t, deed);
      case _ => InvOther(s, a);
    }
  }

  lemma InvStart()
    ensures Inv(START)
  {
  }

  // ---------------------------------------------------------------------- theorems ---

  ghost predicate FreedBetween(log: seq<Mark>, i: nat, j: nat, id: nat) {
    exists k: nat :: i < k < j && k < |log| && log[k] == Free(id)
  }

  lemma FreedStill(log: seq<Mark>, m: Mark, i: nat, j: nat, id: nat)
    requires FreedBetween(log, i, j, id)
    ensures forall l: nat :: l >= j ==> FreedBetween(log + [m], i, l, id)
  {
    var k: nat :| i < k < j && k < |log| && log[k] == Free(id);
    assert (log + [m])[k] == Free(id);
  }

  lemma HeldInit(log: seq<Mark>)
    requires log != [] && Held(log).Some?
    ensures var init, m := log[..|log| - 1], log[|log| - 1];
      log == init + [m] && Held(init).Some? && Admits(Held(init).value, init, m) && Held(log).value == (if m.Claim? then m.id else 0)
  {
  }

  lemma {:induction false} ClaimNotZero(log: seq<Mark>, i: nat)
    requires Held(log).Some? && i < |log|
    ensures log[i].id != 0
    decreases |log|
  {
    if i < |log| - 1 {
      ClaimNotZero(log[..|log| - 1], i);
    }
  }

  /** A claim is `current` still, or has been freed since. */
  lemma {:induction false} ClaimHeldOrFreed(log: seq<Mark>, i: nat)
    requires Held(log).Some? && i < |log| && log[i].Claim?
    ensures log[i].id == Held(log).value || FreedBetween(log, i, |log|, log[i].id)
    decreases |log|
  {
    hide Held;
    HeldInit(log);
    var n := |log| - 1;
    if i < n {
      assert log[..n][i] == log[i];
      ClaimHeldOrFreed(log[..n], i);
      if log[i].id == Held(log[..n]).value {
        assert log[i] in log[..n] && log[i].id != 0 by { ClaimNotZero(log, i); }
        assert log[n] == Free(log[i].id);
      } else {
        FreedStill(log[..n], log[n], i, n, log[i].id);
      }
    }
  }

  /** Two claims are of different transfers, and the first was freed before the second. */
  lemma {:induction false} ClaimsApart(log: seq<Mark>, i: nat, j: nat)
    requires Held(log).Some? && i < j < |log| && log[i].Claim? && log[j].Claim?
    ensures log[i].id != log[j].id && FreedBetween(log, i, j, log[i].id)
    decreases |log|
  {
    hide Held;
    HeldInit(log);
    var n := |log| - 1;
    var init := log[..n];
    if j < n {
      ClaimsApart(init, i, j);
      FreedStill(init, log[n], i, j, log[i].id);
    } else {
      assert init[i] == log[i];
      ClaimHeldOrFreed(init, i);
      ClaimNotZero(log, i);
      FreedStill(init, log[n], i, n, log[i].id);
    }
  }

  /**
    However the threads interleave: no id is claimed twice, the slot is never claimed over a
    claim that has not been released, and the one unreleased claim is `current`.
   */
  lemma Exclusive(actions: seq<Action>)
    requires Run(actions).Some?
    ensures var s := Run(actions).value;
      && (forall i: nat, j: nat :: i < j < |s.log| && s.log[i].Claim? && s.log[j].Claim? ==>
            s.log[i].id != s.log[j].id && FreedBetween(s.log, i, j, s.log[i].id))
      && (forall i: nat :: i < |s.log| && s.log[i].Claim? ==>
            s.log[i].id == s.shared.current || FreedBetween(s.log, i, |s.log|, s.log[i].id))
  {
    hide Run, FreedBetween, Held, Ids, Claims;
    Invariant(actions);
    var log := Run(actions).value.log;
    forall i: nat, j: nat | i < j < |log| && log[i].Claim? && log[j].Claim?
      ensures log[i].id != log[j].id && FreedBetween(log, i, j, log[i].id)
    {
      ClaimsApart(log, i, j);
    }
    forall i: nat | i < |log| && log[i].Claim?
      ensures log[i].id == Run(actions).value.shared.current || FreedBetween(log, i, |log|, log[i].id)
    {
      ClaimHeldOrFreed(log, i);
    }
  }

  predicate Over(t: Thread) { t.Gone? || t.Refused? || t.Out? }

  // What a holder may have put beside its claim, and how far its drop may be before that is gone.

  ghost predicate SomeoneHolds(s: Sys, f: Finish) { exists t :: 0 <= t < |s.threads| && HoldsUntil(s.threads[t], f) }

  ghost predicate TaggedBy(s: Sys, slot: Option<nat>, f: Finish) {
    slot.Some? ==> Owned(s, slot.value) && HoldsUntil(s.threads[s.owner[slot.value]], f)
  }

  ghost predicate Belongings(s: Sys) {
    && TaggedBy(s, s.shared.abort, ClearAbort)
    && (s.shared.wifiDirectActive ==> SomeoneHolds(s, ReleaseRadio))
    && (s.shared.lastActivity.Some? ==> SomeoneHolds(s, ClearClock))
  }

  /** What one step of a finish takes: only what is tagged with the id, except for the radio hold and the clock. */
  lemma FinishTakes(s: Shared, id: nat, f: Finish)
    ensures var s' := FinishStep(s, id, f);
      && s'.current == (if f.FreeCurrent? && s.current == id then 0 else s.current)
      && s'.airdropPending == (if f.FreePending? && s.airdropPending == id then 0 else s.airdropPending)
      && s'.upgrade == (if f.ClearUpgrade? && s.upgrade == Some(id) then None else s.upgrade)
      && s'.abort == (if f.ClearAbort? && s.abort == Some(id) then None else s.abort)
      && s'.wifiDirectActive == (s.wifiDirectActive && !f.ReleaseRadio?)
      && s'.lastActivity == (if f.ClearClock? then None else s.lastActivity)
  {
  }

  /** A step of a finish is that, and any other step takes nothing. */
  lemma StepTakes(s: Shared, t: Thread, now: nat)
    requires CanStep(t)
    ensures t.Reclaiming? || t.Stray? ==> Step(s, t, now).0 == FinishStep(s, t.seen, t.at)
    ensures t.Finishing? ==> Step(s, t, now).0 == FinishStep(s, t.id, t.at)
    ensures !t.Reclaiming? && !t.Finishing? && !t.Stray? ==>
      var s' := Step(s, t, now).0;
      && (s'.current == s.current || (t.Swapping? && s.current == 0 && s'.current == t.id))
      && (s'.airdropPending == s.airdropPending || t == Pending(s'.airdropPending))
      && s'.upgrade == s.upgrade && s'.abort == s.abort && s'.wifiDirectActive == s.wifiDirectActive
      && s'.lastActivity == (if t.Touching? then Some(now) else s.lastActivity)
  {
    hide FinishStep;
  }

  /** A holder goes on holding until the step of its drop that gives the thing up. */
  lemma StepHolds(s: Shared, t: Thread, now: nat, f: Finish)
    requires CanStep(t) && HoldsUntil(t, f) && !(t.Finishing? && t.dropping && t.at == f)
    ensures var t' := Step(s, t, now).1; HoldsUntil(t', f) && HasId(t') && t'.id == t.id
  {
    hide FinishStep;
  }

  lemma StepTouches(s: Shared, t: Thread, now: nat)
    requires CanStep(t)
    ensures t.Touching? ==> Step(s, t, now).1.Holding?
  {
    hide FinishStep;
  }

  lemma StepKeepsTags(s: Shared, t: Thread, now: nat)
    requires CanStep(t)
    ensures var (s', t') := Step(s, t, now);
      && (s'.upgrade.Some? ==> s'.upgrade == s.upgrade && (HoldsUntil(t, ClearUpgrade) && s.upgrade == Some(t.id) ==>
            HoldsUntil(t', ClearUpgrade) && t'.id == t.id))
      && (s'.abort.Some? ==> s'.abort == s.abort && (HoldsUntil(t, ClearAbort) && s.abort == Some(t.id) ==>
            HoldsUntil(t', ClearAbort) && t'.id == t.id))
  {
    hide Step, FinishStep, CanStep, HoldsUntil, HasId;
    StepTakes(s, t, now);
    if t.Reclaiming? || t.Stray? {
      FinishTakes(s, t.seen, t.at);
    } else if t.Finishing? {
      FinishTakes(s, t.id, t.at);
    }
    if HoldsUntil(t, ClearUpgrade) && !(t.Finishing? && t.dropping && t.at == ClearUpgrade) {
      StepHolds(s, t, now, ClearUpgrade);
    }
    if HoldsUntil(t, ClearAbort) && !(t.Finishing? && t.dropping && t.at == ClearAbort) {
      StepHolds(s, t, now, ClearAbort);
    }
  }

  lemma StepKeepsRadio(s: Shared, t: Thread, now: nat)
    requires CanStep(t)
    ensures var (s', t') := Step(s, t, now);
      && (s'.wifiDirectActive ==> s.wifiDirectActive && (HoldsUntil(t, ReleaseRadio) ==> HoldsUntil(t', ReleaseRadio)))
      && (s'.lastActivity.Some? ==> (HoldsUntil(t, ClearClock) ==> HoldsUntil(t', ClearClock)))
      && (s'.lastActivity.Some? ==> s'.lastActivity == s.lastActivity || t'.Holding?)
  {
    hide Step, FinishStep, CanStep, HoldsUntil, HasId;
    StepTakes(s, t, now);
    StepTouches(s, t, now);
    if t.Reclaiming? || t.Stray? {
      FinishTakes(s, t.seen, t.at);
    } else if t.Finishing? {
      FinishTakes(s, t.id, t.at);
    }
    if HoldsUntil(t, ReleaseRadio) && !(t.Finishing? && t.dropping && t.at == ReleaseRadio) {
      StepHolds(s, t, now, ReleaseRadio);
    }
    if HoldsUntil(t, ClearClock) && !(t.Finishing? && t.dropping && t.at == ClearClock) {
      StepHolds(s, t, now, ClearClock);
    }
  }

  lemma StillHeld(s: Sys, s': Sys, t: nat, f: Finish)
    requires SomeoneHolds(s, f) && t < |s.threads| == |s'.threads|
    requires forall u :: 0 <= u < |s.threads| && u != t ==> s'.threads[u] == s.threads[u]
    requires HoldsUntil(s.threads[t], f) ==> HoldsUntil(s'.threads[t], f)
    ensures SomeoneHolds(s', f)
  {
    hide HoldsUntil;
    var u :| 0 <= u < |s.threads| && HoldsUntil(s.threads[u], f);
    assert HoldsUntil(s'.threads[u], f);
  }

  /** A step other than a client's answer parks nothing, and what it leaves parked is still its owner's if it was. */
  ghost predicate UpgradeKept(s: Sys, s': Sys) {
    s'.shared.upgrade.Some? ==>
      s'.shared.upgrade == s.shared.upgrade && (TaggedBy(s, s.shared.upgrade, ClearUpgrade) ==> TaggedBy(s', s'.shared.upgrade, ClearUpgrade))
  }

  lemma TagsAdvance(s: Sys, t: nat)
    requires Inv(s) && Belongings(s) && Legal(s, Advance(t))
    ensures var s' := Next(s, Advance(t));
      TaggedBy(s', s'.shared.abort, ClearAbort) && UpgradeKept(s, s')
  {
    hide Step, CanStep, HoldsUntil, Claims, History, SomeoneHolds;
    StepKeepsTags(s.shared, s.threads[t], s.now);
    StepIds(s.shared, s.threads[t], s.now);
    HoldersHaveIds();
  }

  lemma HeldAdvance(s: Sys, t: nat)
    requires Belongings(s) && Legal(s, Advance(t))
    ensures var s' := Next(s, Advance(t));
      && (s'.shared.wifiDirectActive ==> SomeoneHolds(s', ReleaseRadio))
      && (s'.shared.lastActivity.Some? ==> SomeoneHolds(s', ClearClock))
  {
    var s' := Next(s, Advance(t));
    StepKeepsRadio(s.shared, s.threads[t], s.now);
    assert s'.threads[t].Holding? ==> HoldsUntil(s'.threads[t], ClearClock);
    hide Step, CanStep, HoldsUntil, TaggedBy;
    if s'.shared.wifiDirectActive {
      StillHeld(s, s', t, ReleaseRadio);
    }
    if s'.shared.lastActivity.Some? && !s'.threads[t].Holding? {
      StillHeld(s, s', t, ClearClock);
    }
  }

  lemma HoldsAll(t: Thread)
    requires t.Holding? || (t.Finishing? && t.at == Drain)
    ensures forall f: Finish {:trigger HoldsUntil(t, f)} :: HoldsUntil(t, f)
  {
    forall f: Finish ensures HoldsUntil(t, f) {
      match f
      case Drain =>
      case FreeCurrent =>
      case FreePending =>
      case ClearUpgrade =>
      case ReleaseRadio =>
      case ClearAbort =>
      case ClearClock =>
    }
  }

  lemma BelongingsAct(s: Sys, t: nat, deed: Deed)
    requires Inv(s) && Belongings(s) && Legal(s, Act(t, deed))
    ensures Belongings(Next(s, Act(t, deed))) && UpgradeKept(s, Next(s, Act(t, deed)))
  {
    hide Claims, History;
    var s' := Next(s, Act(t, deed));
    HoldsAll(s'.threads[t]);
    if s'.shared.wifiDirectActive && s.shared.wifiDirectActive {
      StillHeld(s, s', t, ReleaseRadio);
    }
    if s'.shared.lastActivity.Some? && s.shared.lastActivity.Some? {
      StillHeld(s, s', t, ClearClock);
    }
  }

  lemma BelongingsOther(s: Sys, a: Action)
    requires Belongings(s) && !a.Advance? && !a.Act?
    ensures Belongings(Next(s, a))
  {
    hide HoldsUntil;
    var s' := Next(s, a);
    assert forall u :: 0 <= u < |s.threads| ==> s'.threads[u] == s.threads[u];
  }

  lemma {:induction false} BelongingsKept(actions: seq<Action>)
    requires Run(actions).Some?
    ensures Belongings(Run(actions).value)
    decreases |actions|
  {
    if actions != [] {
      hide Inv, Next, Legal, Belongings;
      var s, a := Run(actions[..|actions| - 1]).value, actions[|actions| - 1];
      Invariant(actions[..|actions| - 1]);
      BelongingsKept(actions[..|actions| - 1]);
      match a
      case Advance(t) => BelongingsAdvance(s, t);
      case Act(t, deed) => BelongingsAct(s, t, deed);
      case _ => BelongingsOther(s, a);
    }
  }

  lemma BelongingsAdvance(s: Sys, t: nat)
    requires Inv(s) && Belongings(s) && Legal(s, Advance(t))
    ensures Belongings(Next(s, Advance(t))) && UpgradeKept(s, Next(s, Advance(t)))
  {
    TagsAdvance(s, t);
    HeldAdvance(s, t);
    hide *;
    BelongingsParts(Next(s, Advance(t)));
  }

  lemma BelongingsParts(s: Sys)
    requires TaggedBy(s, s.shared.abort, ClearAbort)
    requires s.shared.wifiDirectActive ==> SomeoneHolds(s, ReleaseRadio)
    requires s.shared.lastActivity.Some? ==> SomeoneHolds(s, ClearClock)
    ensures Belongings(s)
  {
  }

  /** The state a run is in before its step `j`, or at its end. */
  function StateAt(actions: seq<Action>, j: nat): Sys
    requires j <= |actions| && Run(actions[..j]).Some?
  {
    Run(actions[..j]).value
  }

  lemma {:induction false} PrefixRuns(actions: seq<Action>, j: nat)
    requires Run(actions).Some? && j <= |actions|
    ensures Run(actions[..j]).Some?
    ensures j < |actions| ==> Legal(StateAt(actions, j), actions[j]) && Run(actions[..j + 1]) == Some(Next(StateAt(actions, j), actions[j]))
    decreases |actions|
  {
    hide Legal, Next;
    var n := |actions| - 1;
    if j < n {
      PrefixRuns(actions[..n], j);
      assert actions[..n][..j] == actions[..j] && actions[..n][..j + 1] == actions[..j + 1];
    } else if j == n {
      assert actions[..n + 1] == actions;
    } else {
      assert actions[..j] == actions;
    }
  }

  /** Some thread has claimed `id` and has yet to clear what clients left under it. */
  ghost predicate Awaits(s: Sys, id: nat) { TaggedBy(s, Some(id), ClearUpgrade) }

  /** A client answered for `id` when no thread was left, or not yet there, to clear it up. */
  ghost predicate AnsweredLate(actions: seq<Action>, id: nat) {
    exists j: nat :: j < |actions| && AnsweredLateAt(actions, j, id)
  }

  ghost predicate AnsweredLateAt(actions: seq<Action>, j: nat, id: nat)
    requires j < |actions|
  {
    actions[j] == Provide(id) && Run(actions[..j]).Some? && !Awaits(StateAt(actions, j), id)
  }

  lemma StillLate(actions: seq<Action>, id: nat)
    requires actions != [] && AnsweredLate(actions[..|actions| - 1], id)
    ensures AnsweredLate(actions, id)
  {
    hide Run, Awaits;
    var init := actions[..|actions| - 1];
    var j: nat :| j < |init| && AnsweredLateAt(init, j, id);
    assert init[..j] == actions[..j];
    assert AnsweredLateAt(actions, j, id);
  }

  /** A parked answer is in the hands of a thread that will clear it, or came for nobody. */
  lemma {:induction false} AnswersKept(actions: seq<Action>, id: nat)
    requires Run(actions).Some? && Run(actions).value.shared.upgrade == Some(id)
    ensures Awaits(Run(actions).value, id) || AnsweredLate(actions, id)
    decreases |actions|
  {
    if actions != [] {
      var n := |actions| - 1;
      var s, a := Run(actions[..n]).value, actions[n];
      Invariant(actions[..n]);
      BelongingsKept(actions[..n]);
      if a == Provide(id) {
        assert Awaits(Next(s, a), id) || AnsweredLateAt(actions, n, id);
      } else {
        AnswerStep(s, a);
        AnswersKept(actions[..n], id);
        if AnsweredLate(actions[..n], id) {
          StillLate(actions, id);
        }
      }
    }
  }

  lemma AnswerStep(s: Sys, a: Action)
    requires Inv(s) && Belongings(s) && Legal(s, a)
    ensures !a.Provide? ==> UpgradeKept(s, Next(s, a))
  {
    match a
    case Advance(t) =>
      hide *;
      BelongingsAdvance(s, t);
    case Act(t, deed) =>
      hide *;
      BelongingsAct(s, t, deed);
    case _ =>
  }

  /**
    Once every call has returned and every guard has dropped, nothing is left behind: both
    claims are free, the socket slot empty, the radio released and the clock stopped. All that
    can be parked still is a client's answer that came for a transfer already over, or not begun.
   */
  lemma NothingLeft(actions: seq<Action>)
    requires Run(actions).Some? && forall t :: 0 <= t < |Run(actions).value.threads| ==> Over(Run(actions).value.threads[t])
    ensures var s := Run(actions).value.shared;
      && s == IDLE.(next := s.next, needsAwdl := s.needsAwdl, upgrade := s.upgrade)
      && (s.upgrade.Some? ==> AnsweredLate(actions, s.upgrade.value))
  {
    hide Run, History, AnsweredLate;
    Invariant(actions);
    BelongingsKept(actions);
    var s := Run(actions).value.shared;
    if s.upgrade.Some? {
      AnswersKept(actions, s.upgrade.value);
    }
  }

  /** Whether a thread's next step is part of releasing `id`. */
  predicate Releases(t: Thread, id: nat) {
    (t.Reclaiming? && t.seen == id) || (t.Finishing? && t.id == id) || (t.Stray? && t.seen == id)
  }

  lemma StepReclaims(s: Shared, t: Thread, now: nat)
    requires CanStep(t)
    ensures Step(s, t, now).1.Reclaiming? && !t.Reclaiming? <==> t.Checking? && IsStale(s, now)
  {
    hide FinishStep;
  }

  /**
    A step takes another transfer's `current` only by setting out to release that very id, and
    a reclaimer sets out only on reading a stale clock. The tagged slots go the same way. A
    pending AirDrop claim is lost to its own release, or written over by a later claim.
   */
  lemma ReleasesOnlyItsOwn(s: Shared, t: Thread, now: nat)
    requires CanStep(t)
    ensures var (s', t') := Step(s, t, now);
      && (s.current != 0 && s'.current != s.current ==> s'.current == 0 && Releases(t, s.current))
      && (s.airdropPending != 0 && s'.airdropPending != s.airdropPending ==>
            (s'.airdropPending == 0 && Releases(t, s.airdropPending)) || t == Pending(s'.airdropPending))
      && (s.upgrade.Some? && s'.upgrade != s.upgrade ==> s'.upgrade == None && Releases(t, s.upgrade.value))
      && (s.abort.Some? && s'.abort != s.abort ==> s'.abort == None && Releases(t, s.abort.value))
      && (t'.Reclaiming? && !t.Reclaiming? <==> t.Checking? && IsStale(s, now))
  {
    hide Step, FinishStep, CanStep, IsStale;
    StepTakes(s, t, now);
    StepReclaims(s, t, now);
    if t.Reclaiming? || t.Stray? {
      FinishTakes(s, t.seen, t.at);
    } else if t.Finishing? {
      FinishTakes(s, t.id, t.at);
    }
  }

  /** A thread in a finish of whatever id, at this step of it. */
  predicate IsAt(t: Thread, f: Finish) { (t.Reclaiming? || t.Finishing? || t.Stray?) && t.at == f }

  /** The radio hold and the activity clock are untagged: a step takes them exactly when it is that step of a finish, of any id. */
  lemma TakesAnyones(s: Shared, t: Thread, now: nat)
    requires CanStep(t)
    ensures var s' := Step(s, t, now).0;
      && (s.wifiDirectActive && !s'.wifiDirectActive <==> s.wifiDirectActive && IsAt(t, ReleaseRadio))
      && (s.lastActivity.Some? && s'.lastActivity.None? <==> s.lastActivity.Some? && IsAt(t, ClearClock))
  {
    hide Step, FinishStep, CanStep;
    StepTakes(s, t, now);
    if t.Reclaiming? || t.Stray? {
      FinishTakes(s, t.seen, t.at);
    } else if t.Finishing? {
      FinishTakes(s, t.id, t.at);
    }
  }

  /** A thread at this step of finishing this very id. */
  predicate Clears(s: Sys, a: Action, f: Finish, id: nat) {
    a.Advance? && a.thread < |s.threads| && IsAt(s.threads[a.thread], f) && Releases(s.threads[a.thread], id)
  }

  predicate Does(s: Sys, a: Action, deed: Deed) { a.Act? && a.deed == deed }

  /**
    Who writes the slots beside the claims, and who takes from them, over every action there is:
    an answer replaces whatever is parked and goes to the transfer it was for, or with it; a socket
    is armed by its own transfer and goes by its own cancel, finish or disarming, or where another's
    could not be cloned; the radio hold is anyone's.
   */
  lemma SlotsChange(s: Sys, a: Action)
    requires Legal(s, a)
    ensures var t := Next(s, a).shared; var u, b := s.shared.upgrade, s.shared.abort;
      var taken := u.Some? && ((Does(s, a, TakeUpgrade) && s.threads[a.thread].id == u.value) || Clears(s, a, ClearUpgrade, u.value));
      var cut := b.Some? &&
        (a == CutOff(b.value) || Clears(s, a, ClearAbort, b.value) || (Does(s, a, DisarmAbort) && s.threads[a.thread].id == b.value));
      && t.upgrade == (if a.Provide? then Some(a.id) else if taken then None else u)
      && t.abort == (if Does(s, a, ArmAbort(true)) then Some(s.threads[a.thread].id) else if Does(s, a, ArmAbort(false)) || cut then None else b)
      && (t.wifiDirectActive <==>
            Does(s, a, HoldRadio) || (s.shared.wifiDirectActive && !(a.Advance? && IsAt(s.threads[a.thread], ReleaseRadio))))
  {
    if a.Advance? {
      hide Step, FinishStep;
      StepSlots(s.shared, s.threads[a.thread], s.now);
    }
  }

  lemma StepSlots(s: Shared, t: Thread, now: nat)
    requires CanStep(t)
    ensures var s' := Step(s, t, now).0;
      && s'.upgrade == (if s.upgrade.Some? && IsAt(t, ClearUpgrade) && Releases(t, s.upgrade.value) then None else s.upgrade)
      && s'.abort == (if s.abort.Some? && IsAt(t, ClearAbort) && Releases(t, s.abort.value) then None else s.abort)
      && s'.wifiDirectActive == (s.wifiDirectActive && !IsAt(t, ReleaseRadio))
  {
    hide FinishStep;
    if t.Reclaiming? || t.Stray? || t.Finishing? {
      FinishSlots(s, if t.Finishing? then t.id else t.seen, t.at);
    }
  }

  lemma FinishSlots(s: Shared, id: nat, f: Finish)
    ensures var s' := FinishStep(s, id, f);
      && s'.upgrade == (if f.ClearUpgrade? && s.upgrade == Some(id) then None else s.upgrade)
      && s'.abort == (if f.ClearAbort? && s.abort == Some(id) then None else s.abort)
      && s'.wifiDirectActive == (s.wifiDirectActive && !f.ReleaseRadio?)
  {
  }

  // ------------------------------------------------------------------ one live holder ---

  lemma {:induction false} HeldWasClaimed(log: seq<Mark>)
    requires Held(log).Some? && Held(log).value != 0
    ensures Claim(Held(log).value) in log
  {
    assert log[|log| - 1].Claim?;
  }

  lemma {:induction false} FreedWasClaimed(log: seq<Mark>, id: nat)
    requires Held(log).Some? && Free(id) in log
    ensures Claim(id) in log
    decreases |log|
  {
    hide Held;
    HeldInit(log);
    var init := log[..|log| - 1];
    if Free(id) in init {
      FreedWasClaimed(init, id);
    } else {
      HeldWasClaimed(init);
    }
  }

  /** A claim in a history is the one unreleased exactly when no release of it follows. */
  lemma {:induction false} HeldUnlessFreed(log: seq<Mark>, id: nat)
    requires Held(log).Some? && Claim(id) in log
    ensures Held(log).value == id <==> Free(id) !in log
    decreases |log|
  {
    hide Held;
    HeldInit(log);
    var init, m := log[..|log| - 1], log[|log| - 1];
    if m == Claim(id) {
      if Free(id) in init {
        FreedWasClaimed(init, id);
      }
    } else {
      HeldUnlessFreed(init, id);
      IdNotZero(log, Claim(id));
    }
  }

  lemma IdNotZero(log: seq<Mark>, m: Mark)
    requires Held(log).Some? && m in log
    ensures m.id != 0
  {
    var i: nat :| i < |log| && log[i] == m;
    ClaimNotZero(log, i);
  }

  /** A thread that has claimed and has not given its claim up in the drop of its guard. */
  predicate Live(t: Thread) { HoldsUntil(t, FreeCurrent) }

  /** A thread about to free `id` other than by dropping the guard. */
  predicate Takes(t: Thread, id: nat) {
    || (t.Reclaiming? && t.seen == id && t.at.FreeCurrent?)
    || (t.Stray? && t.seen == id && t.at.FreeCurrent?)
    || (t.Finishing? && t.id == id && t.at.FreeCurrent? && !t.dropping)
  }

  /** Some step has freed `id` other than by dropping the guard. */
  ghost predicate Taken(actions: seq<Action>, id: nat) { exists j: nat :: j < |actions| && TakenAt(actions, j, id) }

  predicate TakenAt(actions: seq<Action>, j: nat, id: nat)
    requires j < |actions|
  {
    var s, a := Run(actions[..j]), actions[j];
    s.Some? && s.value.shared.current == id && a.Advance? && a.thread < |s.value.threads| && Takes(s.value.threads[a.thread], id)
  }

  /** The owner of `id` has dropped its guard, and is past freeing it. */
  ghost predicate Dropped(s: Sys, id: nat) {
    Owned(s, id) && !s.threads[s.owner[id]].Swapping? && !Live(s.threads[s.owner[id]])
  }

  lemma StillTaken(actions: seq<Action>, id: nat)
    requires actions != [] && Taken(actions[..|actions| - 1], id)
    ensures Taken(actions, id)
  {
    hide Run, Takes;
    var init := actions[..|actions| - 1];
    var j: nat :| j < |init| && TakenAt(init, j, id);
    assert init[..j] == actions[..j];
    assert TakenAt(actions, j, id);
  }

  lemma StepFrees(s: Shared, t: Thread, now: nat)
    requires CanStep(t)
    ensures var (s', t') := Step(s, t, now);
      && (s.current != 0 && s'.current != s.current ==>
            s'.current == 0 && (Takes(t, s.current) || (HasId(t) && t.id == s.current && HasId(t') && t'.id == t.id && !t'.Swapping? && !Live(t'))))
      && (HasId(t) && !t.Swapping? && !Live(t) ==> HasId(t') && t'.id == t.id && !t'.Swapping? && !Live(t'))
  {
  }

  /** One step and one id: the id is freed by a taking or by its owner's drop, and a drop is not undone. */
  lemma FreeStep(s: Sys, t: nat, id: nat)
    requires Inv(s) && Legal(s, Advance(t))
    ensures var s' := Next(s, Advance(t));
      && (Dropped(s, id) ==> Dropped(s', id))
      && (Free(id) in s'.log && Free(id) !in s.log ==> s.shared.current == id && (Takes(s.threads[t], id) || Dropped(s', id)))
  {
    hide Step, CanStep, Held, Takes, Live, HasId, KeepsCurrent, KeepsPending;
    StepFrees(s.shared, s.threads[t], s.now);
    StepIds(s.shared, s.threads[t], s.now);
  }

  lemma {:induction false} HowFreed(actions: seq<Action>, id: nat)
    requires Run(actions).Some? && Free(id) in Run(actions).value.log
    ensures Taken(actions, id) || Dropped(Run(actions).value, id)
    decreases |actions|
  {
    hide Inv, Next, Legal, Dropped, Takes;
    if actions != [] {
      var n := |actions| - 1;
      var s, a := Run(actions[..n]).value, actions[n];
      Invariant(actions[..n]);
      HowFreedStep(s, a, id);
      if Free(id) in s.log {
        HowFreed(actions[..n], id);
        if Taken(actions[..n], id) {
          StillTaken(actions, id);
        }
      } else if Taking(s, a, id) {
        assert TakenAt(actions, n, id);
      }
    }
  }

  predicate Taking(s: Sys, a: Action, id: nat) {
    s.shared.current == id && a.Advance? && a.thread < |s.threads| && Takes(s.threads[a.thread], id)
  }

  lemma HowFreedStep(s: Sys, a: Action, id: nat)
    requires Inv(s) && Legal(s, a)
    ensures var s' := Next(s, a);
      && (Dropped(s, id) ==> Dropped(s', id))
      && (Free(id) in s'.log && Free(id) !in s.log ==> Taking(s, a, id) || Dropped(s', id))
  {
    hide Held, History, Claims, Takes;
    match a
    case Advance(t) => FreeStep(s, t, id);
    case _ =>
  }

  /** Whoever has an id and is past the swap has claimed it. */
  lemma {:induction false} ClaimLogged(actions: seq<Action>, t: nat)
    requires Run(actions).Some? && t < |Run(actions).value.threads|
    requires var th := Run(actions).value.threads[t]; HasId(th) && !th.Swapping?
    ensures Claim(Run(actions).value.threads[t].id) in Run(actions).value.log
    decreases |actions|
  {
    hide Next, Legal, HasId;
    if actions != [] {
      var n := |actions| - 1;
      var s, a := Run(actions[..n]).value, actions[n];
      Invariant(actions[..n]);
      ClaimStep(s, a, t);
      if !(a == Advance(t) && s.threads[t].Swapping?) {
        ClaimLogged(actions[..n], t);
      }
    }
  }

  lemma ClaimStep(s: Sys, a: Action, t: nat)
    requires Ids(s) && Legal(s, a) && t < |Next(s, a).threads|
    requires var th := Next(s, a).threads[t]; HasId(th) && !th.Swapping?
    ensures var s' := Next(s, a); var th := s'.threads[t];
      && t < |s.threads| && HasId(s.threads[t]) && s.threads[t].id == th.id
      && (if a == Advance(t) && s.threads[t].Swapping? then Claim(th.id) in s'.log else !s.threads[t].Swapping? && s.log <= s'.log)
  {
  }

  /** A taking of a claimed id is on record for good. */
  lemma {:induction false} TakenIsFreed(actions: seq<Action>, j: nat, id: nat)
    requires Run(actions).Some? && j < |actions| && TakenAt(actions, j, id) && id != 0
    ensures Free(id) in Run(actions).value.log
    decreases |actions|
  {
    hide Next, Legal, Takes;
    var n := |actions| - 1;
    var s, a := Run(actions[..n]).value, actions[n];
    if j < n {
      assert actions[..n][..j] == actions[..j];
      TakenIsFreed(actions[..n], j, id);
    }
    LogGrows(s, a, id);
  }

  lemma LogGrows(s: Sys, a: Action, id: nat)
    requires Legal(s, a)
    ensures s.log <= Next(s, a).log
    ensures Taking(s, a, id) && id != 0 ==> Free(id) in Next(s, a).log
  {
  }

  /**
    Whether a live holder still has its claim. It has lost it exactly when somebody freed it
    while it was current: a reclaimer, a caller of finish from outside, or itself by an explicit call.
   */
  lemma LostExactlyWhenTaken(actions: seq<Action>, t: nat)
    requires Run(actions).Some? && t < |Run(actions).value.threads| && Live(Run(actions).value.threads[t])
    ensures var s := Run(actions).value; var id := s.threads[t].id;
      && id != 0 && Claim(id) in s.log
      && (s.shared.current != id <==> Free(id) in s.log)
      && (s.shared.current != id <==> Taken(actions, id))
  {
    hide Run, TakenAt, Held, Claims;
    var s := Run(actions).value;
    var id := s.threads[t].id;
    Invariant(actions);
    ClaimLogged(actions, t);
    HeldUnlessFreed(s.log, id);
    if Free(id) in s.log {
      HowFreed(actions, id);
    }
    if Taken(actions, id) {
      var j: nat :| j < |actions| && TakenAt(actions, j, id);
      TakenIsFreed(actions, j, id);
    }
  }

  /** No two threads are live at once, unless the claim of one of them has been taken from it. */
  lemma OneUntaken(actions: seq<Action>, t: nat, u: nat)
    requires Run(actions).Some? && t < |Run(actions).value.threads| && u < |Run(actions).value.threads| && t != u
    requires Live(Run(actions).value.threads[t]) && Live(Run(actions).value.threads[u])
    ensures var threads := Run(actions).value.threads; Taken(actions, threads[t].id) || Taken(actions, threads[u].id)
  {
    hide Run, Taken, Claims, History;
    Invariant(actions);
    LostExactlyWhenTaken(actions, t);
    LostExactlyWhenTaken(actions, u);
  }

  /** No thread reclaims, none finishes a transfer from outside, and no holder finishes but by its drop. */
  ghost predicate Undisturbed(s: Sys) {
    forall t :: 0 <= t < |s.threads| ==> !s.threads[t].Reclaiming? && !s.threads[t].Stray? && (s.threads[t].Finishing? ==> s.threads[t].dropping)
  }

  ghost predicate UndisturbedAt(actions: seq<Action>, j: nat)
    requires j <= |actions|
  {
    Run(actions[..j]).Some? ==> Undisturbed(Run(actions[..j]).value)
  }

  /** Where nobody reclaims and finishing is left to the guards, a live thread is the current transfer, and the only one. */
  lemma SoleHolder(actions: seq<Action>)
    requires Run(actions).Some? && forall j: nat :: j <= |actions| ==> UndisturbedAt(actions, j)
    ensures var s := Run(actions).value;
      && (forall t: nat :: t < |s.threads| && Live(s.threads[t]) ==> s.threads[t].id == s.shared.current != 0)
      && (forall t: nat, u: nat :: t < |s.threads| && u < |s.threads| && Live(s.threads[t]) && Live(s.threads[u]) ==> t == u)
  {
    hide Run, Taken;
    var s := Run(actions).value;
    forall t: nat | t < |s.threads| && Live(s.threads[t]) ensures s.threads[t].id == s.shared.current != 0 {
      LostExactlyWhenTaken(actions, t);
      NothingTaken(actions, s.threads[t].id);
    }
    Invariant(actions);
    hide Claims, History;
    assert forall t: nat :: t < |s.threads| && Live(s.threads[t]) ==> s.owner[s.threads[t].id] == t;
  }

  lemma NothingTaken(actions: seq<Action>, id: nat)
    requires forall j: nat :: j <= |actions| ==> UndisturbedAt(actions, j)
    ensures !Taken(actions, id)
  {
    hide Run;
    forall j: nat | j < |actions| ensures !TakenAt(actions, j, id) {
      assert UndisturbedAt(actions, j);
    }
  }

  // A thread that reclaims has read a stale clock.

  /** At step `j` thread `u`, having seen `id` current, finds the activity clock stale. */
  predicate StaleReadAt(actions: seq<Action>, j: nat, u: nat, id: nat)
    requires j < |actions|
  {
    var s := Run(actions[..j]);
    s.Some? && actions[j] == Advance(u) && u < |s.value.threads| && s.value.threads[u].Checking? && s.value.threads[u].seen == id
    && IsStale(s.value.shared, s.value.now)
  }

  ghost predicate StaleRead(actions: seq<Action>, u: nat, id: nat) { exists j: nat :: j < |actions| && StaleReadAt(actions, j, u, id) }

  lemma StillStaleRead(actions: seq<Action>, u: nat, id: nat, n: nat)
    requires n <= |actions| && StaleRead(actions[..n], u, id)
    ensures StaleRead(actions, u, id)
  {
    hide Run;
    var j: nat :| j < n && StaleReadAt(actions[..n], j, u, id);
    assert actions[..n][..j] == actions[..j];
    assert StaleReadAt(actions, j, u, id);
  }

  /** Every thread that is reclaiming has itself read the clock stale, with that transfer the one it had found current. */
  lemma {:induction false} ReclaimerReadStale(actions: seq<Action>, u: nat)
    requires Run(actions).Some? && u < |Run(actions).value.threads| && Run(actions).value.threads[u].Reclaiming?
    ensures StaleRead(actions, u, Run(actions).value.threads[u].seen)
    decreases |actions|
  {
    if actions != [] {
      var n := |actions| - 1;
      var s, a := Run(actions[..n]).value, actions[n];
      var id := Run(actions).value.threads[u].seen;
      ReclaimStep(s, a, u);
      if s.threads[u].Reclaiming? {
        ReclaimerReadStale(actions[..n], u);
        StillStaleRead(actions, u, id, n);
      } else {
        assert StaleReadAt(actions, n, u, id);
      }
    }
  }

  lemma ReclaimStep(s: Sys, a: Action, u: nat)
    requires Legal(s, a) && u < |Next(s, a).threads| && Next(s, a).threads[u].Reclaiming?
    ensures var th := Next(s, a).threads[u];
      && u < |s.threads| && (s.threads[u].Reclaiming? || (a == Advance(u) && s.threads[u].Checking? && IsStale(s.shared, s.now)))
      && s.threads[u].seen == th.seen
  {
  }

  /** An action that finishes a transfer other than by a guard's drop or a reclaim. */
  predicate Meddles(a: Action) { a.FinishAny? || (a.Act? && a.deed.CallFinish?) }

  ghost predicate OnlyReclaims(s: Sys) {
    forall t :: 0 <= t < |s.threads| ==> !s.threads[t].Stray? && (s.threads[t].Finishing? ==> s.threads[t].dropping)
  }

  lemma MeddleStep(s: Sys, a: Action)
    requires Legal(s, a) && OnlyReclaims(s) && !Meddles(a)
    ensures OnlyReclaims(Next(s, a))
  {
    hide FinishStep;
  }

  lemma {:induction false} NoMeddling(actions: seq<Action>)
    requires Run(actions).Some? && forall a :: a in actions ==> !Meddles(a)
    ensures OnlyReclaims(Run(actions).value)
    decreases |actions|
  {
    if actions != [] {
      var n := |actions| - 1;
      NoMeddling(actions[..n]);
      assert actions[n] in actions;
      MeddleStep(Run(actions[..n]).value, actions[n]);
    }
  }

  /**
    Where every finish is a guard's drop or a reclaim, a live holder has lost its claim only to
    a thread that found it current and then read the clock stale.
   */
  lemma LostOnlyToStaleRead(actions: seq<Action>, t: nat) returns (u: nat)
    requires Run(actions).Some? && t < |Run(actions).value.threads| && Live(Run(actions).value.threads[t])
    requires forall a :: a in actions ==> !Meddles(a)
    requires Run(actions).value.shared.current != Run(actions).value.threads[t].id
    ensures StaleRead(actions, u, Run(actions).value.threads[t].id)
  {
    hide Run, Meddles, StaleRead;
    var id := Run(actions).value.threads[t].id;
    LostExactlyWhenTaken(actions, t);
    var j: nat :| j < |actions| && TakenAt(actions, j, id);
    u := actions[j].thread;
    NoMeddling(actions[..j]);
    ReclaimerReadStale(actions[..j], u);
    StillStaleRead(actions, u, id, j);
  }

  // ----------------------------------------------------------- what a stale clock is ---

  /** A claim's own touch, or a holder's. */
  predicate Touches(s: Sys, a: Action) {
    (a.Act? && a.deed.Touch?) || (a.Advance? && a.thread < |s.threads| && s.threads[a.thread].Touching?)
  }

  /** The last step of some finish. */
  predicate Wipes(s: Sys, a: Action) { a.Advance? && a.thread < |s.threads| && IsAt(s.threads[a.thread], ClearClock) }

  /** Step `j` is a touch at that hour, and no finish has ended and nobody touched since. */
  ghost predicate TouchedLastAt(actions: seq<Action>, j: nat, at: nat)
    requires Run(actions).Some? && j < |actions|
  {
    && StepAt(actions, j, Touches) && TimeAt(actions, j) == at
    && forall k: nat :: j < k < |actions| ==> !StepAt(actions, k, Touches) && !StepAt(actions, k, Wipes)
  }

  ghost predicate StepAt(actions: seq<Action>, j: nat, p: (Sys, Action) -> bool)
    requires Run(actions).Some? && j < |actions|
  {
    PrefixRuns(actions, j);
    p(StateAt(actions, j), actions[j])
  }

  ghost function TimeAt(actions: seq<Action>, j: nat): nat
    requires Run(actions).Some? && j < |actions|
  {
    PrefixRuns(actions, j);
    StateAt(actions, j).now
  }

  ghost predicate TouchedLast(actions: seq<Action>, at: nat)
    requires Run(actions).Some?
  {
    exists j: nat :: j < |actions| && TouchedLastAt(actions, j, at)
  }

  lemma ClockStep(s: Sys, a: Action)
    requires Legal(s, a)
    ensures Next(s, a).shared.lastActivity ==
            if Touches(s, a) then Some(s.now) else if Wipes(s, a) then None else s.shared.lastActivity
  {
    if a.Advance? {
      StepClock(s.shared, s.threads[a.thread], s.now);
    }
  }

  lemma StepClock(s: Shared, t: Thread, now: nat)
    requires CanStep(t)
    ensures Step(s, t, now).0.lastActivity ==
            if t.Touching? then Some(now) else if IsAt(t, ClearClock) then None else s.lastActivity
  {
  }

  lemma SamePrefix(actions: seq<Action>, j: nat)
    requires Run(actions).Some? && j < |actions| - 1
    ensures Run(actions[..|actions| - 1]).Some?
    ensures StepAt(actions[..|actions| - 1], j, Touches) == StepAt(actions, j, Touches)
    ensures StepAt(actions[..|actions| - 1], j, Wipes) == StepAt(actions, j, Wipes)
    ensures TimeAt(actions[..|actions| - 1], j) == TimeAt(actions, j)
  {
    hide Touches, Wipes;
    var n := |actions| - 1;
    PrefixRuns(actions, n);
    assert actions[..n][..j] == actions[..j];
  }

  /** The clock holds an hour exactly where the history says so: the last that wrote it was a touch, at that hour. */
  lemma {:induction false} ClockMeans(actions: seq<Action>, at: nat)
    requires Run(actions).Some?
    ensures Run(actions).value.shared.lastActivity == Some(at) <==> TouchedLast(actions, at)
    decreases |actions|
  {
    hide Run, Touches, Wipes, Next, Legal;
    if actions == [] {
      NobodyTouched();
    } else {
      var n := |actions| - 1;
      PrefixRuns(actions, n);
      assert actions[..n + 1] == actions;
      var s, a := StateAt(actions, n), actions[n];
      ClockStep(s, a);
      ClockMeans(actions[..n], at);
      forall j: nat | j < n ensures TouchedLastAt(actions, j, at) <==> TouchedLastAt(actions[..n], j, at) && !Touches(s, a) && !Wipes(s, a) {
        TouchedStill(actions, j, at);
      }
      TouchedNow(actions, at);
      WipedOnly(s, a);
    }
  }

  lemma WipedOnly(s: Sys, a: Action)
    ensures !(Touches(s, a) && Wipes(s, a))
  {
  }

  lemma NobodyTouched()
    ensures Run([]) == Some(START) && START.shared.lastActivity == None
  {
  }

  lemma TouchedNow(actions: seq<Action>, at: nat)
    requires Run(actions).Some? && actions != []
    ensures var n := |actions| - 1;
      && Run(actions[..n]).Some?
      && (TouchedLastAt(actions, n, at) <==> Touches(StateAt(actions, n), actions[n]) && StateAt(actions, n).now == at)
  {
    hide Run, Touches, Wipes;
    PrefixRuns(actions, |actions| - 1);
  }

  lemma TouchedStill(actions: seq<Action>, j: nat, at: nat)
    requires Run(actions).Some? && j < |actions| - 1
    ensures var n := |actions| - 1;
      && Run(actions[..n]).Some?
      && (TouchedLastAt(actions, j, at) <==>
        TouchedLastAt(actions[..n], j, at) && !Touches(StateAt(actions, n), actions[n]) && !Wipes(StateAt(actions, n), actions[n]))
  {
    hide Run, Touches, Wipes;
    var n := |actions| - 1;
    PrefixRuns(actions, n);
    SamePrefix(actions, j);
    forall k: nat | j < k < n
      ensures StepAt(actions[..n], k, Touches) == StepAt(actions, k, Touches) && StepAt(actions[..n], k, Wipes) == StepAt(actions, k, Wipes)
    {
      SamePrefix(actions, k);
    }
    assert StepAt(actions, n, Touches) == Touches(StateAt(actions, n), actions[n]);
    assert StepAt(actions, n, Wipes) == Wipes(StateAt(actions, n), actions[n]);
  }

  /** The last touch is more than three minutes old, and no finish has ended since. */
  ghost predicate Lapsed(actions: seq<Action>)
    requires Run(actions).Some?
  {
    exists at: nat :: TouchedLast(actions, at) && Run(actions).value.now - at > 180_000
  }

  /**
    A thread that found the slot taken goes on to reclaim it exactly where the history's last
    touch is more than three minutes old and no finish has ended since; otherwise it is refused.
    Either way it changes nothing in that step.
   */
  lemma ReclaimsExactlyWhenLapsed(actions: seq<Action>, t: nat)
    requires Run(actions).Some? && t < |Run(actions).value.threads| && Run(actions).value.threads[t].Checking?
    ensures var s := Run(actions).value; var (shared, th) := Step(s.shared, s.threads[t], s.now);
      && shared == s.shared
      && (Lapsed(actions) ==> th == Reclaiming(s.threads[t].awdl, s.threads[t].seen, Drain))
      && (!Lapsed(actions) ==> th == Refused)
  {
    hide Run, TouchedLast;
    StaleMeans(actions);
  }

  lemma StaleMeans(actions: seq<Action>)
    requires Run(actions).Some?
    ensures var s := Run(actions).value; IsStale(s.shared, s.now) <==> Lapsed(actions)
  {
    hide Run, TouchedLast;
    var s := Run(actions).value;
    forall at: nat ensures s.shared.lastActivity == Some(at) <==> TouchedLast(actions, at) {
      ClockMeans(actions, at);
    }
    if s.shared.lastActivity.Some? {
      assert TouchedLast(actions, s.shared.lastActivity.value);
    }
  }

  /** At step `j` a transfer is current and was touched within three minutes, with no finish ended since. */
  ghost predicate BusyAt(actions: seq<Action>, j: nat)
    requires Run(actions).Some? && j <= |actions|
  {
    PrefixRuns(actions, j);
    && StateAt(actions, j).shared.current != 0
    && exists at: nat :: TouchedLast(actions[..j], at) && StateAt(actions, j).now <= at + 180_000
  }

  /** A thread that has neither claimed nor set out to reclaim. */
  predicate Outside(t: Thread) { t.Loading? || t.Checking? || t.Refused? || t.Stray? || t.Out? }

  /** Nobody who comes while the slot is busy gets in for as long as it stays so. */
  lemma {:induction false} RefusedWhileBusy(actions: seq<Action>, i: nat, t: nat)
    requires Run(actions).Some? && i <= |actions| && Run(actions[..i]).Some?
    requires forall j: nat :: i <= j <= |actions| ==> BusyAt(actions, j)
    requires |StateAt(actions, i).threads| <= t < |Run(actions).value.threads|
    ensures Outside(Run(actions).value.threads[t])
    decreases |actions|
  {
    hide Run, BusyAt, Outside, Next;
    assert actions[..|actions|] == actions;
    if i < |actions| {
      var n := |actions| - 1;
      PrefixRuns(actions, n);
      assert actions[..n + 1] == actions && actions[..n][..i] == actions[..i];
      forall j: nat | i <= j <= n ensures BusyAt(actions[..n], j) {
        assert BusyAt(actions, j);
        BusyBefore(actions, j);
      }
      var s := StateAt(actions, n);
      assert BusyAt(actions[..n], n);
      BusyIsFresh(actions[..n]);
      if t < |s.threads| {
        RefusedWhileBusy(actions[..n], i, t);
      }
      OutsideStep(s, actions[n], t);
    }
  }

  lemma BusyBefore(actions: seq<Action>, j: nat)
    requires Run(actions).Some? && j < |actions| && BusyAt(actions, j)
    ensures Run(actions[..|actions| - 1]).Some? && BusyAt(actions[..|actions| - 1], j)
  {
    hide Run, TouchedLast;
    PrefixRuns(actions, |actions| - 1);
    assert actions[..|actions| - 1][..j] == actions[..j];
  }

  lemma BusyIsFresh(actions: seq<Action>)
    requires Run(actions).Some? && BusyAt(actions, |actions|)
    ensures var s := Run(actions).value; s.shared.current != 0 && !IsStale(s.shared, s.now)
  {
    hide Run, TouchedLast;
    assert actions[..|actions|] == actions;
    var at: nat :| TouchedLast(actions, at) && Run(actions).value.now <= at + 180_000;
    ClockMeans(actions, at);
  }

  lemma OutsideStep(s: Sys, a: Action, t: nat)
    requires Legal(s, a) && s.shared.current != 0 && !IsStale(s.shared, s.now)
    requires t < |s.threads| ==> Outside(s.threads[t])
    requires t < |Next(s, a).threads|
    ensures Outside(Next(s, a).threads[t])
  {
    hide FinishStep, IsStale;
  }

  /** Alone too: a slot touched within three minutes refuses, and nothing changes. */
  lemma RefusedAlone(s: Shared, awdl: bool, now: nat)
    requires s.current != 0 && s.lastActivity.Some? && now <= s.lastActivity.value + 180_000
    ensures Alone(s, Loading(awdl), now) == (s, Refused)
  {
    hide Alone;
    AloneSteps(s, awdl, now);
  }

  // ------------------------------------------------------- a claim reclaimed at birth ---

  /** What a run has come to, the records apart. */
  ghost predicate Reaches(actions: seq<Action>, shared: Shared, threads: seq<Thread>, now: nat) {
    var s := Run(actions);
    s.Some? && s.value.shared == shared && s.value.threads == threads && s.value.now == now
  }

  lemma Stepped(actions: seq<Action>, shared: Shared, threads: seq<Thread>, now: nat, t: nat) returns (more: seq<Action>)
    requires Reaches(actions, shared, threads, now) && t < |threads| && CanStep(threads[t])
    ensures actions <= more
    ensures var (s, th) := Step(shared, threads[t], now); Reaches(more, s, threads[t := th], now)
  {
    more := actions + [Advance(t)];
    assert more[..|more| - 1] == actions;
  }

  lemma Acted(actions: seq<Action>, shared: Shared, threads: seq<Thread>, now: nat, a: Action) returns (more: seq<Action>)
    requires Reaches(actions, shared, threads, now) && !a.Advance? && !a.Provide? && !a.CutOff?
    requires a.Act? ==> a.thread < |threads| && threads[a.thread].Holding?
    ensures actions <= more
    ensures match a
      case Begin(awdl) => Reaches(more, shared, threads + [Loading(awdl)], now)
      case FinishAny(id) => Reaches(more, shared, threads + [Stray(id, Drain)], now)
      case Tick(elapsed) => Reaches(more, shared, threads, now + elapsed)
      case Act(t, deed) => var (s, th) := Do(shared, threads[t].id, deed, now); Reaches(more, s, threads[t := th], now)
      case _ => true
  {
    more := actions + [a];
    assert more[..|more| - 1] == actions;
  }

  /** A thread that runs on without interference is `Alone`. */
  lemma {:induction false} RanAlone(actions: seq<Action>, shared: Shared, threads: seq<Thread>, now: nat, t: nat) returns (more: seq<Action>)
    requires Reaches(actions, shared, threads, now) && t < |threads|
    ensures actions <= more
    ensures var (s, th) := Alone(shared, threads[t], now); Reaches(more, s, threads[t := th], now)
    decreases Far(threads[t])
  {
    hide Reaches, Step, CanStep;
    if CanStep(threads[t]) {
      var (s, th) := Step(shared, threads[t], now);
      FarFalls(shared, threads[t], now);
      var next := Stepped(actions, shared, threads, now, t);
      more := RanAlone(next, s, threads[t := th], now, t);
      assert threads[t := th][t := Alone(s, th, now).1] == threads[t := Alone(s, th, now).1];
    } else {
      more := actions;
      assert threads[t := threads[t]] == threads;
    }
  }

  lemma FarFalls(s: Shared, t: Thread, now: nat)
    requires CanStep(t)
    ensures Far(Step(s, t, now).1) < Far(t)
  {
  }

  const LATE := STALE_TRANSFER + 1

  /** The first transfer, stale, has given up `current` and not yet its clock. */
  const HALF_FREED := Shared(0, 1, false, 0, None, false, None, Some(0))
  const LEAVING := Finishing(1, FreePending, true)

  lemma FirstLeaves() returns (actions: seq<Action>)
    ensures Reaches(actions, HALF_FREED, [LEAVING], LATE)
  {
    hide Run, Alone, Reaches;
    actions := NobodyYet();
    actions := Acted(actions, IDLE, [], 0, Begin(false));
    assert [] + [Loading(false)] == [Loading(false)];
    actions := RanAlone(actions, IDLE, [Loading(false)], 0, 0);
    AloneSteps(IDLE, false, 0);
    var held := Claimed(IDLE, false, 0);
    assert [Loading(false)][0 := Holding(1)] == [Holding(1)];
    actions := Acted(actions, held, [Holding(1)], 0, Tick(LATE));
    actions := Acted(actions, held, [Holding(1)], LATE, Act(0, Drop));
    assert [Holding(1)][0 := Finishing(1, Drain, true)] == [Finishing(1, Drain, true)];
    actions := Stepped(actions, held, [Finishing(1, Drain, true)], LATE, 0);
    assert [Finishing(1, Drain, true)][0 := Finishing(1, FreeCurrent, true)] == [Finishing(1, FreeCurrent, true)];
    actions := Stepped(actions, held, [Finishing(1, FreeCurrent, true)], LATE, 0);
    assert [Finishing(1, FreeCurrent, true)][0 := LEAVING] == [LEAVING];
  }

  /** The second has claimed, and not yet touched the clock. */
  const CLAIMED := Shared(2, 2, false, 0, None, false, None, Some(0))
  const BORN := Noting(false, 2)

  lemma SecondClaims() returns (actions: seq<Action>)
    ensures Reaches(actions, CLAIMED, [LEAVING, BORN], LATE)
  {
    hide Run, Alone, Reaches;
    actions := FirstLeaves();
    actions := Acted(actions, HALF_FREED, [LEAVING], LATE, Begin(false));
    assert [LEAVING] + [Loading(false)] == [LEAVING, Loading(false)];
    actions := Stepped(actions, HALF_FREED, [LEAVING, Loading(false)], LATE, 1);
    assert [LEAVING, Loading(false)][1 := Allocating(false)] == [LEAVING, Allocating(false)];
    actions := Stepped(actions, HALF_FREED, [LEAVING, Allocating(false)], LATE, 1);
    assert [LEAVING, Allocating(false)][1 := Swapping(false, 2)] == [LEAVING, Swapping(false, 2)];
    actions := Stepped(actions, HALF_FREED.(next := 2), [LEAVING, Swapping(false, 2)], LATE, 1);
    assert [LEAVING, Swapping(false, 2)][1 := BORN] == [LEAVING, BORN];
  }

  const TAKEN := Shared(3, 3, false, 0, None, false, None, Some(LATE))

  lemma ThirdReclaims() returns (actions: seq<Action>)
    ensures Reaches(actions, TAKEN, [LEAVING, BORN, Holding(3)], LATE)
  {
    hide Run, Alone, Reaches;
    actions := SecondClaims();
    actions := Acted(actions, CLAIMED, [LEAVING, BORN], LATE, Begin(false));
    assert [LEAVING, BORN] + [Loading(false)] == [LEAVING, BORN, Loading(false)];
    actions := RanAlone(actions, CLAIMED, [LEAVING, BORN, Loading(false)], LATE, 2);
    AloneSteps(CLAIMED, false, LATE);
    FinishSteps(CLAIMED, 2);
    assert [LEAVING, BORN, Loading(false)][2 := Holding(3)] == [LEAVING, BORN, Holding(3)];
  }

  /**
    The clock does not say whose it is. While a stale transfer is being finished, its clock
    outlives its claim, and a transfer claimed in between can be reclaimed before its first
    touch: two calls of `try_begin` have then succeeded, and both threads hold a guard.
   */
  lemma TwoHolders() returns (actions: seq<Action>)
    ensures Run(actions).Some?
    ensures var s := Run(actions).value;
      |s.threads| == 3 && s.threads[1] == Holding(2) && s.threads[2] == Holding(3) && s.shared.current == 3
  {
    hide Run, Reaches;
    actions := ThirdReclaims();
    actions := Stepped(actions, TAKEN, [LEAVING, BORN, Holding(3)], LATE, 1);
    assert [LEAVING, BORN, Holding(3)][1 := Touching(2)] == [LEAVING, Touching(2), Holding(3)];
    actions := Stepped(actions, TAKEN, [LEAVING, Touching(2), Holding(3)], LATE, 1);
    assert [LEAVING, Touching(2), Holding(3)][1 := Holding(2)] == [LEAVING, Holding(2), Holding(3)];
    ReachedState(actions, TAKEN, [LEAVING, Holding(2), Holding(3)], LATE);
  }

  // ------------------------------------------------- a hold taken by another's drop ---

  lemma {:induction false} FinishAlone(s: Shared, id: nat, f: Finish, dropping: bool, now: nat)
    ensures Alone(s, Finishing(id, f, dropping), now) == (FinishFrom(s, id, f), if dropping then Gone(id) else Holding(id))
    decreases ToGo(f)
  {
    if Following(f).Some? {
      FinishAlone(FinishStep(s, id, f), id, Following(f).value, dropping, now);
    }
  }

  /** The second transfer is current and holds the radio; the first was finished by its own call, and its guard has not dropped. */
  const HELD := Shared(2, 2, false, 0, None, true, None, Some(0))

  lemma SecondHolds() returns (actions: seq<Action>)
    ensures Reaches(actions, HELD, [Holding(1), Holding(2)], 0)
  {
    hide Run, Alone, Reaches, FinishFrom;
    actions := NobodyYet();
    actions := Acted(actions, IDLE, [], 0, Begin(false));
    assert [] + [Loading(false)] == [Loading(false)];
    actions := RanAlone(actions, IDLE, [Loading(false)], 0, 0);
    AloneSteps(IDLE, false, 0);
    var first := Claimed(IDLE, false, 0);
    assert [Loading(false)][0 := Holding(1)] == [Holding(1)];
    actions := Acted(actions, first, [Holding(1)], 0, Act(0, CallFinish));
    assert [Holding(1)][0 := Finishing(1, Drain, false)] == [Finishing(1, Drain, false)];
    actions := RanAlone(actions, first, [Finishing(1, Drain, false)], 0, 0);
    FinishAlone(first, 1, Drain, false, 0);
    FinishSteps(first, 1);
    var free := IDLE.(next := 1);
    assert [Finishing(1, Drain, false)][0 := Holding(1)] == [Holding(1)];
    actions := Acted(actions, free, [Holding(1)], 0, Begin(false));
    assert [Holding(1)] + [Loading(false)] == [Holding(1), Loading(false)];
    actions := RanAlone(actions, free, [Holding(1), Loading(false)], 0, 1);
    AloneSteps(free, false, 0);
    var second := Claimed(free, false, 0);
    assert [Holding(1), Loading(false)][1 := Holding(2)] == [Holding(1), Holding(2)];
    actions := Acted(actions, second, [Holding(1), Holding(2)], 0, Act(1, HoldRadio));
    assert [Holding(1), Holding(2)][1 := Holding(2)] == [Holding(1), Holding(2)];
  }

  /**
    A finished transfer's guard takes what is another's: dropped late, it frees nothing of the
    second transfer's but its radio hold and its clock, while that transfer is live and current.
   */
  lemma HoldTakenByAnother() returns (before: seq<Action>, after: seq<Action>)
    ensures Reaches(before, HELD, [Holding(1), Holding(2)], 0) && before <= after
    ensures Reaches(after, HELD.(wifiDirectActive := false, lastActivity := None), [Gone(1), Holding(2)], 0)
  {
    hide Run, Alone, Reaches, FinishFrom;
    before := SecondHolds();
    after := Acted(before, HELD, [Holding(1), Holding(2)], 0, Act(0, Drop));
    assert [Holding(1), Holding(2)][0 := Finishing(1, Drain, true)] == [Finishing(1, Drain, true), Holding(2)];
    after := RanAlone(after, HELD, [Finishing(1, Drain, true), Holding(2)], 0, 0);
    FinishAlone(HELD, 1, Drain, true, 0);
    FinishSteps(HELD, 1);
    assert [Finishing(1, Drain, true), Holding(2)][0 := Gone(1)] == [Gone(1), Holding(2)];
  }

  lemma NobodyYet() returns (actions: seq<Action>)
    ensures Reaches(actions, IDLE, [], 0)
  {
    actions := [];
  }

  lemma ReachedState(actions: seq<Action>, shared: Shared, threads: seq<Thread>, now: nat)
    requires Reaches(actions, shared.(lastActivity := Some(now)), threads, now)
    ensures Run(actions).Some? && Run(actions).value.threads == threads && Run(actions).value.shared.current == shared.current
  {
  }
}
