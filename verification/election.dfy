// Leader election over the locker (cloud/lock/election.go).
//
// The class is the campaign loop and the term of one instance, writing down the steps it
// takes; the fleet below interleaves the steps of many instances on one key with the
// locker's own.
module Elections {
  import opened Options
  import opened LeaseProtocol

  /** Where an instance is in its campaign loop and its term. */
  datatype Stage =
    | Campaigning
    | Elected      // the lock has just been acquired
    | Started      // the leader flag is up
    | Waiting      // the leader's work is launched; waiting for the end of the term
    | Woken        // the context ended or Lost closed
    | Resigned     // the flag is down and the work's context cancelled
    | Joined       // the work has returned
    | Dismissed    // OnStoppedLeading has run
    | Freed        // the locker's half of Unlock has run

  datatype Step =
    | Win
    | BecomeLeader
    | Launch
    | Wake(lost: bool)
    | Resign
    | Join
    | StepDown
    | Free
    | Signal

  function Advance(stage: Stage, step: Step): Option<Stage> {
    match (stage, step)
    case (Campaigning, Win) => Some(Elected)
    case (Elected, BecomeLeader) => Some(Started)
    case (Started, Launch) => Some(Waiting)
    case (Waiting, Wake(_)) => Some(Woken)
    case (Woken, Resign) => Some(Resigned)
    case (Resigned, Join) => Some(Joined)
    case (Joined, StepDown) => Some(Dismissed)
    case (Dismissed, Free) => Some(Freed)
    case (Freed, Signal) => Some(Campaigning)
    case _ => None
  }

  function Follow(stage: Stage, steps: seq<Step>): Option<Stage>
    decreases |steps|
  {
    if steps == [] then Some(stage)
    else
      match Advance(stage, steps[0])
      case None => None
      case Some(next) => Follow(next, steps[1..])
  }

  lemma {:induction false} FollowAppend(stage: Stage, steps: seq<Step>, more: seq<Step>)
    requires Follow(stage, steps).Some?
    ensures Follow(stage, steps + more) == Follow(Follow(stage, steps).value, more)
    decreases |steps|
  {
    hide Advance;
    if steps == [] {
      assert steps + more == more;
    } else {
      assert (steps + more)[1..] == steps[1..] + more;
      FollowAppend(Advance(stage, steps[0]).value, steps[1..], more);
    }
  }

  /** One turn of the campaign loop, as the context and the locker decide it. */
  datatype Round = Round(
    doneBefore: bool,
    acquired: bool,
    doneAfterAcquire: bool,
    slept: bool,
    lost: bool,
    doneAfterTerm: bool)

  class Election {
    var leader: bool
    var trace: seq<Step>

    constructor ()
      ensures !leader && trace == []
    {
      leader, trace := false, [];
    }

    method Note(step: Step)
      modifies this`trace
      ensures trace == old(trace) + [step]
    {
      trace := trace + [step];
    }

    /** One term: Unlock comes last, after the work's context is cancelled and the work has returned. */
    method ServeTerm(lost: bool)
      modifies this
      ensures !leader
      ensures trace == old(trace) + [BecomeLeader, Launch, Wake(lost), Resign, Join, StepDown, Free, Signal]
    {
      leader := true;
      Note(BecomeLeader);
      Note(Launch);
      Note(Wake(lost));
      leader := false;
      Note(Resign);
      Note(Join);
      Note(StepDown);
      Note(Free);
      Note(Signal);
    }

    method WinThenServe(lost: bool)
      modifies this
      ensures !leader && trace == old(trace) + ([Win] + Term(lost))
    {
      Note(Win);
      ServeTerm(lost);
      TermIs(lost);
    }

    /** The loop serves a term for every round it gets to that acquires the lock, and ends as soon as its context has ended. */
    method Run(rounds: seq<Round>)
      requires trace == [] && !leader
      modifies this
      ensures !leader && trace == Campaigned(rounds)
    {
      hide Campaigned, Term;
      CampaignedRound(rounds, |rounds|);
      for k := 0 to |rounds|
        invariant !leader && Campaigned(rounds) == trace + Campaigned(rounds[k..])
      {
        CampaignedRound(rounds, k);
        if rounds[k].doneBefore {
          return;
        }
        if !rounds[k].acquired {
          if rounds[k].doneAfterAcquire || !rounds[k].slept {
            return;
          }
          continue;
        }
        ghost var before, rest := trace, if rounds[k].doneAfterTerm then [] else Campaigned(rounds[k + 1..]);
        WinThenServe(rounds[k].lost);
        Regroup(before, [Win] + Term(rounds[k].lost), rest);
        if rounds[k].doneAfterTerm {
          return;
        }
      }
    }
  }

  function Term(lost: bool): seq<Step> {
    [BecomeLeader, Launch, Wake(lost), Resign, Join, StepDown, Free, Signal]
  }

  lemma TermIs(lost: bool)
    ensures Term(lost) == [BecomeLeader, Launch, Wake(lost), Resign, Join, StepDown, Free, Signal]
  {
  }

  lemma Regroup(a: seq<Step>, b: seq<Step>, c: seq<Step>)
    ensures a + (b + c) == (a + b) + c && a + [] == a
  {
  }

  /** The steps of a campaign, round by round. */
  function Campaigned(rounds: seq<Round>): seq<Step>
    decreases |rounds|
  {
    if rounds == [] || rounds[0].doneBefore then []
    else if !rounds[0].acquired then
      if rounds[0].doneAfterAcquire || !rounds[0].slept then [] else Campaigned(rounds[1..])
    else
      [Win] + Term(rounds[0].lost) + if rounds[0].doneAfterTerm then [] else Campaigned(rounds[1..])
  }

  /** What round k contributes. */
  lemma CampaignedRound(rounds: seq<Round>, k: nat)
    requires k <= |rounds|
    ensures rounds[0..] == rounds && Campaigned([]) == [] && rounds[|rounds|..] == []
    ensures k < |rounds| ==>
              var r, rest := rounds[k], Campaigned(rounds[k + 1..]);
              Campaigned(rounds[k..]) ==
                if r.doneBefore then []
                else if !r.acquired then (if r.doneAfterAcquire || !r.slept then [] else rest)
                else [Win] + Term(r.lost) + if r.doneAfterTerm then [] else rest
  {
    if k < |rounds| {
      assert rounds[k..][0] == rounds[k] && rounds[k..][1..] == rounds[k + 1..];
    }
  }

  /** The loop sees its context ended somewhere in this round. */
  predicate EndsIn(r: Round) {
    r.doneBefore || if r.acquired then r.doneAfterTerm else r.doneAfterAcquire || !r.slept
  }

  /** A term for every round that has the lock. */
  function TermsOf(rounds: seq<Round>): seq<Step>
    decreases |rounds|
  {
    if rounds == [] then [] else (if rounds[0].acquired then [Win] + Term(rounds[0].lost) else []) + TermsOf(rounds[1..])
  }

  /**
   * The campaign goes on until its context ends, and until then serves every lock it gets: with
   * n the first round that sees the context ended, a term for each round before it that has the
   * lock, and one for round n if the context was still alive when it got the lock.
   */
  lemma {:induction false} CampaignServesUntilDone(rounds: seq<Round>, n: nat)
    requires n <= |rounds| && forall k :: 0 <= k < n ==> !EndsIn(rounds[k])
    requires n < |rounds| ==> EndsIn(rounds[n])
    ensures Campaigned(rounds) ==
              TermsOf(rounds[..n])
              + if n < |rounds| && !rounds[n].doneBefore && rounds[n].acquired then [Win] + Term(rounds[n].lost) else []
    decreases n
  {
    hide Term;
    if n == 0 {
      assert rounds[..0] == [];
    } else {
      CampaignServesUntilDone(rounds[1..], n - 1);
      assert rounds[..n][1..] == rounds[1..][..n - 1];
      assert n < |rounds| ==> rounds[1..][n - 1] == rounds[n];
    }
  }

  /** Whenever the loop looks at its context it is between terms. */
  lemma {:induction false} CampaignIsComplete(rounds: seq<Round>)
    ensures Follow(Campaigning, Campaigned(rounds)) == Some(Campaigning)
    decreases |rounds|
  {
    if rounds != [] && !rounds[0].doneBefore {
      if rounds[0].acquired {
        WinAndServe(rounds[0].lost);
        if !rounds[0].doneAfterTerm {
          CampaignIsComplete(rounds[1..]);
          FollowAppend(Campaigning, [Win] + Term(rounds[0].lost), Campaigned(rounds[1..]));
        }
      } else if !rounds[0].doneAfterAcquire && rounds[0].slept {
        CampaignIsComplete(rounds[1..]);
      }
      hide Follow, Term;
    }
  }

  lemma WinAndServe(lost: bool)
    ensures Follow(Campaigning, [Win] + Term(lost)) == Some(Campaigning)
    ensures [Win] + Term(lost) + [] == [Win] + Term(lost)
  {
    TermCloses(lost);
    assert ([Win] + Term(lost))[1..] == Term(lost);
    assert Advance(Campaigning, Win) == Some(Elected);
  }

  lemma TermCloses(lost: bool)
    ensures Follow(Elected, [BecomeLeader, Launch, Wake(lost), Resign, Join, StepDown, Free, Signal]) == Some(Campaigning)
  {
    assert Follow(Freed, [Signal]) == Some(Campaigning);
    assert Follow(Dismissed, [Free, Signal]) == Some(Campaigning);
    assert Follow(Joined, [StepDown, Free, Signal]) == Some(Campaigning);
    assert Follow(Resigned, [Join, StepDown, Free, Signal]) == Some(Campaigning);
    assert Follow(Woken, [Resign, Join, StepDown, Free, Signal]) == Some(Campaigning);
    assert Follow(Waiting, [Wake(lost), Resign, Join, StepDown, Free, Signal]) == Some(Campaigning);
    assert Follow(Started, [Launch, Wake(lost), Resign, Join, StepDown, Free, Signal]) == Some(Campaigning);
  }

  // ---- Many instances on one key ------------------------------------------

  datatype Candidate = Candidate(
    stage: Stage,
    gen: nat,            // the lease generation of the current term
    leader: bool,        // IsLeader
    working: bool,       // OnStartedLeading is running
    done: bool)          // the context has ended

  const NEWCOMER := Candidate(Campaigning, 0, false, false, false)

  datatype Fleet = Fleet(
    key: string,
    world: World,
    nodes: seq<Candidate>,
    reclaims: nat)       // how often an expired lease on the key has been taken from its holder

  datatype Happening =
    | Campaign(node: nat, options: LockOptions, now: int, stamp: int)
    | Move(node: nat, step: Step)
    | WorkReturns(node: nat)
    | ContextEnds(node: nat)
    | Outside(event: Event)   // renew ticks, other users of the locker, its Close

  predicate InTerm(c: Candidate) {
    c.stage != Campaigning
  }

  predicate Holding(c: Candidate) {
    InTerm(c) && c.stage != Freed
  }

  predicate Owned(f: Fleet, g: nat) {
    exists i :: 0 <= i < |f.nodes| && InTerm(f.nodes[i]) && f.nodes[i].gen == g
  }

  function Reclaimed(f: Fleet, key: string, now: int): nat
    requires Indexed(f.world)
  {
    if key == f.key && key in f.world.locks && !Contended(f.world, key, now) then 1 else 0
  }

  /** The lock event a step performs, if any. */
  function LockEvent(c: Candidate, step: Step): Option<Event> {
    match step
    case Free => Some(Release(c.gen))
    case Signal => Some(SignalLost(c.gen))
    case _ => None
  }

  predicate Enabled(f: Fleet, c: Candidate, step: Step) {
    && step != Win
    && (step.Wake? ==> if step.lost then c.gen < |f.world.gens| && f.world.gens[c.gen].lost else c.done)
    && (step.Join? ==> !c.working)
  }

  function Stepped(c: Candidate, step: Step, stage: Stage): Candidate {
    match step
    case BecomeLeader => c.(stage := stage, leader := true)
    case Launch => c.(stage := stage, working := true)
    case Resign => c.(stage := stage, leader := false)
    case _ => c.(stage := stage)
  }

  function Follows(f: Fleet, h: Happening): Option<Fleet>
    requires Indexed(f.world)
  {
    match h
    case Campaign(i, o, now, stamp) =>
      if i < |f.nodes| && f.nodes[i].stage == Campaigning then
        if Contended(f.world, f.key, now) then Some(f)
        else Some(Fleet(f.key, Taken(f.world, f.key, o, now, stamp),
                        f.nodes[i := f.nodes[i].(stage := Elected, gen := |f.world.gens|)],
                        f.reclaims + Reclaimed(f, f.key, now)))
      else None
    case Move(i, step) =>
      if i < |f.nodes| && Enabled(f, f.nodes[i], step) && Advance(f.nodes[i].stage, step).Some? then
        var c := f.nodes[i];
        var nodes := f.nodes[i := Stepped(c, step, Advance(c.stage, step).value)];
        (match LockEvent(c, step)
         case None => Some(f.(nodes := nodes))
         case Some(e) =>
           (match Next(f.world, e)
            case None => None
            case Some(world) => Some(f.(world := world, nodes := nodes))))
      else None
    case WorkReturns(i) =>
      if i < |f.nodes| && f.nodes[i].working then Some(f.(nodes := f.nodes[i := f.nodes[i].(working := false)])) else None
    case ContextEnds(i) =>
      if i < |f.nodes| then Some(f.(nodes := f.nodes[i := f.nodes[i].(done := true)])) else None
    case Outside(e) =>
      if (e.Release? || e.SignalLost?) && Owned(f, e.gen) then None
      else
        (match Next(f.world, e)
         case None => None
         case Some(world) =>
           Some(f.(world := world, reclaims := f.reclaims + if e.Take? then Reclaimed(f, e.key, e.now) else 0)))
  }

  // ---- What every step keeps ----------------------------------------------

  /** A candidate's stage decides its flag, when its work may run, and its handle's phase. */
  predicate NodeInv(w: World, key: string, c: Candidate) {
    && (c.leader <==> c.stage in {Started, Waiting, Woken})
    && (c.working ==> c.stage in {Waiting, Woken, Resigned})
    && (InTerm(c) ==>
          && c.gen < |w.gens| && w.gens[c.gen].key == key
          && w.gens[c.gen].phase == if c.stage == Freed then Released else Held)
  }

  ghost predicate TermsApart(nodes: seq<Candidate>) {
    forall i, j :: 0 <= i < j < |nodes| && InTerm(nodes[i]) && InTerm(nodes[j]) ==> nodes[i].gen != nodes[j].gen
  }

  /** Until a lease has been reclaimed, every term holds the key. */
  ghost predicate TermsKeepTheKey(f: Fleet)
    requires Indexed(f.world)
  {
    f.reclaims == 0 ==>
      forall i :: 0 <= i < |f.nodes| && Holding(f.nodes[i]) && f.nodes[i].gen < |f.world.gens| ==>
                    Live(f.world, f.nodes[i].gen)
  }

  ghost predicate FleetInv(f: Fleet) {
    && Exclusive(f.world)
    && (forall i :: 0 <= i < |f.nodes| ==> NodeInv(f.world, f.key, f.nodes[i]))
    && TermsApart(f.nodes)
    && TermsKeepTheKey(f)
  }

  /** What no step of the locker changes about the generations there are. */
  lemma GenerationsPersist(w: World, e: Event)
    requires Indexed(w) && Next(w, e).Some?
    ensures var w' := Next(w, e).value;
            && |w.gens| <= |w'.gens|
            && forall g :: 0 <= g < |w.gens| ==>
                 && w'.gens[g].key == w.gens[g].key
                 && w'.gens[g].phase ==
                      (if e == Release(g) then Released else if e == SignalLost(g) then Ended else w.gens[g].phase)
  {
  }

  lemma CampaignIsTake(f: Fleet, h: Happening)
    requires Indexed(f.world) && h.Campaign? && Follows(f, h).Some?
    ensures Follows(f, h).value.world == Next(f.world, Take(f.key, h.options, h.now, h.stamp)).value
  {
  }

  /** The winner of an attempt starts a term of its own; the other terms keep their handles. */
  lemma CampaignKeepsNodes(f: Fleet, h: Happening)
    requires FleetInv(f) && h.Campaign? && Follows(f, h).Some?
    ensures var f' := Follows(f, h).value;
            && (forall i :: 0 <= i < |f'.nodes| ==> NodeInv(f'.world, f'.key, f'.nodes[i]))
            && TermsApart(f'.nodes)
  {
    var f' := Follows(f, h).value;
    GenerationsPersist(f.world, Take(f.key, h.options, h.now, h.stamp));
    CampaignIsTake(f, h);
    if !Contended(f.world, f.key, h.now) {
      WinnerIsLive(f.world, f.key, h.options, h.now, h.stamp);
      hide Exclusive, TermsKeepTheKey, Taken, Next;
      forall i | 0 <= i < |f'.nodes|
        ensures NodeInv(f'.world, f'.key, f'.nodes[i])
      {
        assert NodeInv(f.world, f.key, f.nodes[i]);
      }
    }
  }

  lemma WinnerIsLive(w: World, key: string, o: LockOptions, now: int, stamp: int)
    requires Indexed(w) && !Contended(w, key, now)
    ensures var w' := Taken(w, key, o, now, stamp);
            |w'.gens| == |w.gens| + 1 && w'.gens[|w.gens|].key == key && Live(w', |w.gens|)
  {
  }

  lemma TermHasTheEntry(f: Fleet, i: nat)
    requires FleetInv(f) && f.reclaims == 0 && i < |f.nodes|
    ensures Holding(f.nodes[i]) ==> f.key in f.world.locks
  {
    assert NodeInv(f.world, f.key, f.nodes[i]);
    if Holding(f.nodes[i]) {
      assert Live(f.world, f.nodes[i].gen);
      assert IsCurrent(f.world, f.nodes[i].gen);
    }
  }

  /** If nothing has been reclaimed, an attempt succeeds only while no term holds the key. */
  lemma CampaignKeepsTheKey(f: Fleet, h: Happening)
    requires FleetInv(f) && h.Campaign? && Follows(f, h).Some?
    requires Indexed(Follows(f, h).value.world)
    ensures TermsKeepTheKey(Follows(f, h).value)
  {
    var f' := Follows(f, h).value;
    if !Contended(f.world, f.key, h.now) && f'.reclaims == 0 {
      forall i | 0 <= i < |f.nodes|
        ensures Holding(f.nodes[i]) ==> f.key in f.world.locks
      {
        TermHasTheEntry(f, i);
      }
      WinnerIsLive(f.world, f.key, h.options, h.now, h.stamp);
    }
  }

  lemma CampaignKeepsInv(f: Fleet, h: Happening)
    requires FleetInv(f) && h.Campaign? && Follows(f, h).Some?
    ensures FleetInv(Follows(f, h).value)
  {
    TakeKeepsExclusive(f.world, Take(f.key, h.options, h.now, h.stamp));
    CampaignIsTake(f, h);
    CampaignKeepsNodes(f, h);
    assert Indexed(Follows(f, h).value.world);
    CampaignKeepsTheKey(f, h);
    hide Exclusive, NodeInv, TermsApart, TermsKeepTheKey, Follows, Next;
  }

  predicate IsQuiet(h: Happening) {
    h.WorkReturns? || h.ContextEnds? || (h.Move? && !h.step.Free? && !h.step.Signal?)
  }

  lemma QuietEffect(f: Fleet, h: Happening)
    requires Indexed(f.world) && IsQuiet(h) && Follows(f, h).Some?
    ensures var f' := Follows(f, h).value;
            && f'.world == f.world && f'.key == f.key && f'.reclaims == f.reclaims && |f'.nodes| == |f.nodes|
            && (forall i :: 0 <= i < |f.nodes| ==>
                  && f'.nodes[i].gen == f.nodes[i].gen
                  && (f'.nodes[i] != f.nodes[i] ==>
                        InTerm(f'.nodes[i]) == InTerm(f.nodes[i]) && Holding(f'.nodes[i]) == Holding(f.nodes[i])))
  {
  }

  lemma QuietKeepsNodes(f: Fleet, h: Happening)
    requires FleetInv(f) && IsQuiet(h) && Follows(f, h).Some?
    ensures var f' := Follows(f, h).value;
            forall i :: 0 <= i < |f'.nodes| ==> NodeInv(f'.world, f'.key, f'.nodes[i])
  {
    assert Indexed(f.world);
    hide Exclusive, TermsApart, TermsKeepTheKey, Next;
    var f' := Follows(f, h).value;
    forall i | 0 <= i < |f'.nodes|
      ensures NodeInv(f'.world, f'.key, f'.nodes[i])
    {
      assert NodeInv(f.world, f.key, f.nodes[i]);
    }
  }

  lemma QuietKeepsInv(f: Fleet, h: Happening)
    requires FleetInv(f) && IsQuiet(h) && Follows(f, h).Some?
    ensures FleetInv(Follows(f, h).value)
  {
    QuietKeepsNodes(f, h);
    QuietEffect(f, h);
    assert Indexed(f.world);
    hide Exclusive, NodeInv, Follows, Holding, InTerm, Live, Indexed;
  }

  predicate IsUnlock(h: Happening) {
    h.Move? && (h.step.Free? || h.step.Signal?)
  }

  lemma UnlockEffect(f: Fleet, h: Happening)
    requires Indexed(f.world) && IsUnlock(h) && Follows(f, h).Some?
    ensures h.node < |f.nodes| && LockEvent(f.nodes[h.node], h.step).Some?
    ensures var e := LockEvent(f.nodes[h.node], h.step).value;
            var f' := Follows(f, h).value;
            && f.nodes[h.node].stage == (if h.step.Free? then Dismissed else Freed)
            && Next(f.world, e).Some? && f'.world == Next(f.world, e).value
            && f' == Fleet(f.key, f'.world,
                           f.nodes[h.node := f.nodes[h.node].(stage := if h.step.Free? then Freed else Campaigning)],
                           f.reclaims)
  {
  }

  lemma UnlockKeepsNodes(f: Fleet, h: Happening)
    requires FleetInv(f) && IsUnlock(h) && Follows(f, h).Some?
    ensures var f' := Follows(f, h).value;
            && (forall i :: 0 <= i < |f'.nodes| ==> NodeInv(f'.world, f'.key, f'.nodes[i]))
            && TermsApart(f'.nodes)
  {
    UnlockEffect(f, h);
    GenerationsPersist(f.world, LockEvent(f.nodes[h.node], h.step).value);
    hide Exclusive, TermsKeepTheKey, Next, Follows;
    var f' := Follows(f, h).value;
    forall i | 0 <= i < |f'.nodes|
      ensures NodeInv(f'.world, f'.key, f'.nodes[i])
    {
      assert NodeInv(f.world, f.key, f.nodes[i]);
      assert NodeInv(f.world, f.key, f.nodes[h.node]);
    }
  }

  lemma UnlockKeepsTheKey(f: Fleet, h: Happening)
    requires FleetInv(f) && FreshTokens(f.world) && IsUnlock(h) && Follows(f, h).Some?
    requires Indexed(Follows(f, h).value.world)
    ensures TermsKeepTheKey(Follows(f, h).value)
  {
    UnlockEffect(f, h);
    hide Follows, Next, Exclusive;
    var f' := Follows(f, h).value;
    var e := LockEvent(f.nodes[h.node], h.step).value;
    if f'.reclaims == 0 {
      forall i | 0 <= i < |f'.nodes| && Holding(f'.nodes[i]) && f'.nodes[i].gen < |f'.world.gens|
        ensures Live(f'.world, f'.nodes[i].gen)
      {
        assert i != h.node && f'.nodes[i] == f.nodes[i];
        assert NodeInv(f.world, f.key, f.nodes[i]);
        assert NodeInv(f.world, f.key, f.nodes[h.node]);
        assert f.nodes[i].gen != f.nodes[h.node].gen;
        LiveEndsOnlyBy(f.world, e, f.nodes[i].gen);
      }
    }
  }

  lemma {:induction false} UnlockKeepsInv(f: Fleet, h: Happening)
    requires FleetInv(f) && FreshTokens(f.world) && IsUnlock(h) && Follows(f, h).Some?
    ensures FleetInv(Follows(f, h).value)
  {
    UnlockEffect(f, h);
    NextKeepsExclusive(f.world, LockEvent(f.nodes[h.node], h.step).value);
    UnlockKeepsNodes(f, h);
    assert Indexed(Follows(f, h).value.world);
    UnlockKeepsTheKey(f, h);
    hide Exclusive, NodeInv, TermsApart, TermsKeepTheKey, Follows, Next;
  }

  lemma OutsideEffect(f: Fleet, h: Happening)
    requires Indexed(f.world) && h.Outside? && Follows(f, h).Some?
    ensures Next(f.world, h.event).Some?
    ensures h.event.Release? || h.event.SignalLost? ==> !Owned(f, h.event.gen)
    ensures Follows(f, h).value ==
              Fleet(f.key, Next(f.world, h.event).value, f.nodes,
                    f.reclaims + if h.event.Take? then Reclaimed(f, h.event.key, h.event.now) else 0)
  {
  }

  lemma OutsideKeepsNodes(f: Fleet, h: Happening)
    requires FleetInv(f) && h.Outside? && Follows(f, h).Some?
    ensures var f' := Follows(f, h).value;
            forall i :: 0 <= i < |f'.nodes| ==> NodeInv(f'.world, f'.key, f'.nodes[i])
  {
    OutsideEffect(f, h);
    GenerationsPersist(f.world, h.event);
    hide Exclusive, TermsKeepTheKey, TermsApart, Next, Follows;
    var f' := Follows(f, h).value;
    forall i | 0 <= i < |f'.nodes|
      ensures NodeInv(f'.world, f'.key, f'.nodes[i])
    {
      assert NodeInv(f.world, f.key, f.nodes[i]);
    }
  }

  lemma OutsideKeepsTheKey(f: Fleet, h: Happening)
    requires FleetInv(f) && FreshTokens(f.world) && h.Outside? && Follows(f, h).Some?
    requires Indexed(Follows(f, h).value.world)
    ensures TermsKeepTheKey(Follows(f, h).value)
  {
    OutsideEffect(f, h);
    hide Follows, Next;
    var f' := Follows(f, h).value;
    if f'.reclaims == 0 {
      forall i | 0 <= i < |f'.nodes| && Holding(f'.nodes[i]) && f'.nodes[i].gen < |f'.world.gens|
        ensures Live(f'.world, f'.nodes[i].gen)
      {
        var g := f.nodes[i].gen;
        assert NodeInv(f.world, f.key, f.nodes[i]);
        assert Owned(f, g);
        assert IsCurrent(f.world, g);
        LiveEndsOnlyBy(f.world, h.event, g);
      }
    }
  }

  lemma {:induction false} OutsideKeepsInv(f: Fleet, h: Happening)
    requires FleetInv(f) && FreshTokens(f.world) && h.Outside? && Follows(f, h).Some?
    ensures FleetInv(Follows(f, h).value)
  {
    OutsideEffect(f, h);
    NextKeepsExclusive(f.world, h.event);
    OutsideKeepsNodes(f, h);
    assert Indexed(Follows(f, h).value.world);
    OutsideKeepsTheKey(f, h);
    hide Exclusive, NodeInv, TermsApart, TermsKeepTheKey, Follows, Next;
  }

  lemma {:induction false} FollowsKeepsInv(f: Fleet, h: Happening)
    requires FleetInv(f) && FreshTokens(f.world) && Follows(f, h).Some?
    ensures FleetInv(Follows(f, h).value)
  {
    hide FleetInv, FreshTokens, Follows;
    if h.Campaign? {
      CampaignKeepsInv(f, h);
    } else if h.Outside? {
      OutsideKeepsInv(f, h);
    } else if IsUnlock(h) {
      UnlockKeepsInv(f, h);
    } else {
      QuietKeepsInv(f, h);
    }
  }

  // ---- Every run ----------------------------------------------------------

  function Assembled(key: string, instances: nat): Fleet {
    Fleet(key, NEW_LOCKER, seq(instances, _ => NEWCOMER), 0)
  }

  ghost function History(f: Fleet, happenings: seq<Happening>): Option<Fleet>
    requires Indexed(f.world)
  {
    if happenings == [] then Some(f)
    else
      var before := History(f, happenings[..|happenings| - 1]);
      if before.None? || !Indexed(before.value.world) then None
      else Follows(before.value, happenings[|happenings| - 1])
  }

  lemma FollowsKeepsTokens(f: Fleet, h: Happening)
    requires Indexed(f.world) && Follows(f, h).Some? && FreshTokens(Follows(f, h).value.world)
    ensures FreshTokens(f.world)
  {
    if h.Campaign? {
      CampaignIsTake(f, h);
      TokensOnlyGrow(f.world, Take(f.key, h.options, h.now, h.stamp));
    } else if h.Outside? {
      OutsideEffect(f, h);
      TokensOnlyGrow(f.world, h.event);
    } else if IsUnlock(h) {
      UnlockEffect(f, h);
      TokensOnlyGrow(f.world, LockEvent(f.nodes[h.node], h.step).value);
    } else {
      QuietEffect(f, h);
    }
  }

  lemma AssembledInv(key: string, instances: nat)
    ensures FleetInv(Assembled(key, instances))
  {
  }

  lemma {:induction false} HistoryKeepsInv(key: string, instances: nat, happenings: seq<Happening>)
    requires History(Assembled(key, instances), happenings).Some?
    requires FreshTokens(History(Assembled(key, instances), happenings).value.world)
    ensures FleetInv(History(Assembled(key, instances), happenings).value)
  {
    var f := Assembled(key, instances);
    if happenings == [] {
      AssembledInv(key, instances);
    } else {
      hide FleetInv, FreshTokens, Follows, Assembled;
      var rest, last := happenings[..|happenings| - 1], happenings[|happenings| - 1];
      var before := History(f, rest).value;
      FollowsKeepsTokens(before, last);
      HistoryKeepsInv(key, instances, rest);
      FollowsKeepsInv(before, last);
    }
  }

  /** Which steps of the fleet there are, and what counts as a reclaim. */
  lemma HappensIff(f: Fleet, i: nat, e: Event)
    requires Indexed(f.world) && i < |f.nodes|
    ensures Follows(f, WorkReturns(i)).Some? <==> f.nodes[i].working
    ensures f.nodes[i].working ==> !Follows(f, WorkReturns(i)).value.nodes[i].working
    ensures Follows(f, ContextEnds(i)).Some? && Follows(f, ContextEnds(i)).value.nodes[i].done
    ensures Follows(f, Outside(e)).Some? <==>
              && Next(f.world, e).Some?
              && forall k :: 0 <= k < |f.nodes| && f.nodes[k].stage != Campaigning ==>
                   e != Release(f.nodes[k].gen) && e != SignalLost(f.nodes[k].gen)
    ensures e.Take? ==>
              var expired := f.key in f.world.locks && f.world.gens[f.world.locks[f.key]].expireAt <= e.now;
              Follows(f, Outside(e)).value.reclaims == f.reclaims + if e.key == f.key && expired then 1 else 0
    ensures Follows(f, Outside(e)).Some? && !e.Take? ==> Follows(f, Outside(e)).value.reclaims == f.reclaims
  {
    hide Taken, Unlocked;
    if (e.Release? || e.SignalLost?) && !Owned(f, e.gen) {
      forall k | 0 <= k < |f.nodes| && f.nodes[k].stage != Campaigning
        ensures e != Release(f.nodes[k].gen) && e != SignalLost(f.nodes[k].gen)
      {
        assert InTerm(f.nodes[k]);
      }
    }
  }

  ghost predicate CanMove(f: Fleet, i: nat) {
    Indexed(f.world) && exists step :: Follows(f, Move(i, step)).Some?
  }

  /**
   * In every run a term can go on except in two places: it waits for the context to end or for
   * Lost, and it waits for the work to return.
   */
  lemma {:induction false} TermGoesOnIff(key: string, instances: nat, happenings: seq<Happening>, i: nat)
    requires History(Assembled(key, instances), happenings).Some?
    requires FreshTokens(History(Assembled(key, instances), happenings).value.world)
    requires i < |History(Assembled(key, instances), happenings).value.nodes|
    ensures var f := History(Assembled(key, instances), happenings).value;
            var c := f.nodes[i];
            CanMove(f, i) <==>
              && c.stage != Campaigning
              && (c.stage == Waiting ==> c.done || (c.gen < |f.world.gens| && f.world.gens[c.gen].lost))
              && (c.stage == Resigned ==> !c.working)
  {
    HistoryKeepsInv(key, instances, happenings);
    var f := History(Assembled(key, instances), happenings).value;
    assert NodeInv(f.world, f.key, f.nodes[i]);
    hide FleetInv, History;
    GoesOnIff(f, i);
  }

  /** What ends the wait of a term: the context if that is the reason it gives, else a closed Lost. */
  lemma WakesIff(f: Fleet, i: nat, lost: bool)
    requires Indexed(f.world) && i < |f.nodes|
    ensures Follows(f, Move(i, Wake(lost))).Some? <==>
              var c := f.nodes[i];
              && c.stage == Waiting
              && if lost then c.gen < |f.world.gens| && f.world.gens[c.gen].lost else c.done
  {
  }

  lemma GoesOnIff(f: Fleet, i: nat)
    requires Indexed(f.world) && i < |f.nodes| && NodeInv(f.world, f.key, f.nodes[i])
    ensures var c := f.nodes[i];
            CanMove(f, i) <==>
              && c.stage != Campaigning
              && (c.stage == Waiting ==> c.done || (c.gen < |f.world.gens| && f.world.gens[c.gen].lost))
              && (c.stage == Resigned ==> !c.working)
  {
    var c := f.nodes[i];
    var next := match c.stage
                case Elected => BecomeLeader
                case Started => Launch
                case Waiting => Wake(!c.done)
                case Woken => Resign
                case Resigned => Join
                case Joined => StepDown
                case Dismissed => Free
                case _ => Signal;
    hide Taken, Unlocked, Finished;
    if && c.stage != Campaigning
       && (c.stage == Waiting ==> c.done || (c.gen < |f.world.gens| && f.world.gens[c.gen].lost))
       && (c.stage == Resigned ==> !c.working) {
      assert Follows(f, Move(i, next)).Some?;
    }
  }

  /**
   * However many instances contend, however their steps interleave with expiry, renewal and
   * other users of the key: no two of them are waiting inside a term with an open Lost.
   */
  lemma {:induction false} OneOpenTerm(key: string, instances: nat, happenings: seq<Happening>, i: nat, j: nat)
    requires History(Assembled(key, instances), happenings).Some?
    requires FreshTokens(History(Assembled(key, instances), happenings).value.world)
    requires var f := History(Assembled(key, instances), happenings).value;
             && i < |f.nodes| && j < |f.nodes| && f.nodes[i].stage == Waiting && f.nodes[j].stage == Waiting
             && f.nodes[i].gen < |f.world.gens| && f.nodes[j].gen < |f.world.gens|
             && !f.world.gens[f.nodes[i].gen].lost && !f.world.gens[f.nodes[j].gen].lost
    ensures i == j
  {
    HistoryKeepsInv(key, instances, happenings);
    hide FleetInv;
    if i != j {
      ApartUnlessLost(History(Assembled(key, instances), happenings).value, i, j);
    }
  }

  lemma ApartUnlessLost(f: Fleet, i: nat, j: nat)
    requires FleetInv(f) && i < |f.nodes| && j < |f.nodes| && i != j
    requires Holding(f.nodes[i]) && Holding(f.nodes[j])
    requires f.nodes[i].gen < |f.world.gens| && f.nodes[j].gen < |f.world.gens|
    ensures f.world.gens[f.nodes[i].gen].lost || f.world.gens[f.nodes[j].gen].lost
  {
    var c, d := f.nodes[i], f.nodes[j];
    assert NodeInv(f.world, f.key, c) && NodeInv(f.world, f.key, d);
    assert c.gen != d.gen;
    assert Live(f.world, c.gen) <==> IsCurrent(f.world, c.gen);
    assert Live(f.world, d.gen) <==> IsCurrent(f.world, d.gen);
  }

  /**
   * Two instances can have their work running, or call themselves leader, at the same time
   * only while one of them has been told that its lease is lost.
   */
  lemma {:induction false} OverlapNeedsALostLease(key: string, instances: nat, happenings: seq<Happening>, i: nat, j: nat)
    requires History(Assembled(key, instances), happenings).Some?
    requires FreshTokens(History(Assembled(key, instances), happenings).value.world)
    requires var f := History(Assembled(key, instances), happenings).value;
             && i < |f.nodes| && j < |f.nodes| && i != j
             && (f.nodes[i].working || f.nodes[i].leader) && (f.nodes[j].working || f.nodes[j].leader)
    ensures var f := History(Assembled(key, instances), happenings).value;
            && f.nodes[i].gen < |f.world.gens| && f.nodes[j].gen < |f.world.gens|
            && (f.world.gens[f.nodes[i].gen].lost || f.world.gens[f.nodes[j].gen].lost)
  {
    HistoryKeepsInv(key, instances, happenings);
    var f := History(Assembled(key, instances), happenings).value;
    assert NodeInv(f.world, f.key, f.nodes[i]) && NodeInv(f.world, f.key, f.nodes[j]);
    ApartUnlessLost(f, i, j);
  }

  /**
   * In a run in which no expired lease on the key has been reclaimed, the work of different
   * instances never overlaps: each term unlocks only after its work has returned.
   */
  lemma WorkNeverOverlaps(key: string, instances: nat, happenings: seq<Happening>, i: nat, j: nat)
    requires History(Assembled(key, instances), happenings).Some?
    requires FreshTokens(History(Assembled(key, instances), happenings).value.world)
    requires var f := History(Assembled(key, instances), happenings).value;
             f.reclaims == 0 && i < |f.nodes| && j < |f.nodes| && f.nodes[i].working && f.nodes[j].working
    ensures i == j
  {
    HistoryKeepsInv(key, instances, happenings);
    var f := History(Assembled(key, instances), happenings).value;
    assert NodeInv(f.world, f.key, f.nodes[i]) && NodeInv(f.world, f.key, f.nodes[j]);
    if i != j {
      ApartUnlessLost(f, i, j);
    }
  }

  lemma {:induction false} HistoryChain(f: Fleet, happenings: seq<Happening>, states: seq<Fleet>)
    requires |states| == |happenings| + 1 && states[0] == f
    requires forall i :: 0 <= i <= |happenings| ==> Indexed(states[i].world)
    requires forall i :: 0 <= i < |happenings| ==> Follows(states[i], happenings[i]) == Some(states[i + 1])
    ensures History(f, happenings) == Some(states[|happenings|])
  {
    hide Follows, Indexed;
    if happenings != [] {
      HistoryChain(f, happenings[..|happenings| - 1], states[..|happenings|]);
    }
  }

  /** A reclaim is all it takes: while one instance's term stands, another's attempt wins exactly if that lease has run out. */
  lemma AttemptWinsIff(f: Fleet, i: nat, j: nat, o: LockOptions, now: int, stamp: int)
    requires FleetInv(f) && i < |f.nodes| && j < |f.nodes|
    requires Holding(f.nodes[i]) && f.nodes[i].gen < |f.world.gens| && Live(f.world, f.nodes[i].gen)
    requires f.nodes[j].stage == Campaigning
    ensures Follows(f, Campaign(j, o, now, stamp)).Some?
    ensures var f' := Follows(f, Campaign(j, o, now, stamp)).value;
            && |f'.nodes| == |f.nodes| && f'.nodes[i] == f.nodes[i]
            && if f.world.gens[f.nodes[i].gen].expireAt <= now
               then f'.nodes[j] == f.nodes[j].(stage := Elected, gen := |f.world.gens|)
               else f' == f
  {
    assert NodeInv(f.world, f.key, f.nodes[i]);
    assert IsCurrent(f.world, f.nodes[i].gen);
    hide Exclusive, NodeInv, TermsApart, TermsKeepTheKey, Taken;
  }

  lemma HistoryMore(f: Fleet, happenings: seq<Happening>, h: Happening)
    requires Indexed(f.world) && History(f, happenings).Some? && Indexed(History(f, happenings).value.world)
    ensures History(f, happenings + [h]) == Follows(History(f, happenings).value, h)
  {
    hide Follows, Indexed;
    assert (happenings + [h])[..|happenings|] == happenings;
  }

  lemma HistoryEnded(f: Fleet, happenings: seq<Happening>, h: Happening)
    requires Indexed(f.world) && History(f, happenings).None?
    ensures History(f, happenings + [h]).None?
  {
    hide Follows, Indexed;
    assert (happenings + [h])[..|happenings|] == happenings;
  }

  lemma InvIsIndexed(f: Fleet)
    requires FleetInv(f)
    ensures Indexed(f.world)
  {
  }

  /** A fresh winner goes on to launch its work; a follower has nothing to launch. */
  lemma LaunchSteps(f: Fleet, j: nat)
    requires Indexed(f.world) && j < |f.nodes|
    ensures f.nodes[j].stage == Campaigning ==> Follows(f, Move(j, BecomeLeader)).None?
    ensures f.nodes[j].stage == Elected ==>
              var c := f.nodes[j].(stage := Started, leader := true);
              && Follows(f, Move(j, BecomeLeader)) == Some(f.(nodes := f.nodes[j := c]))
              && Follows(f.(nodes := f.nodes[j := c]), Move(j, Launch))
                   == Some(f.(nodes := f.nodes[j := c.(stage := Waiting, working := true)]))
  {
    var c := f.nodes[j].(stage := Started, leader := true);
    assert f.nodes[j := c][j := c.(stage := Waiting, working := true)] == f.nodes[j := c.(stage := Waiting, working := true)];
  }

  /**
   * From every reachable fleet in which one instance works under a live lease: another
   * instance's attempt, followed by its launch, is a run exactly if that lease has run out
   * by then, and the two then work at the same time. The new leader does not wait for the
   * old one's work.
   */
  lemma {:induction false} WorkOverlapsIff(key: string, instances: nat, happenings: seq<Happening>, i: nat, j: nat,
                        o: LockOptions, now: int, stamp: int)
    requires History(Assembled(key, instances), happenings).Some?
    requires FreshTokens(History(Assembled(key, instances), happenings).value.world)
    requires var f := History(Assembled(key, instances), happenings).value;
             && i < |f.nodes| && j < |f.nodes| && f.nodes[i].working && f.nodes[j].stage == Campaigning
             && f.nodes[i].gen < |f.world.gens| && Live(f.world, f.nodes[i].gen)
    ensures var f := History(Assembled(key, instances), happenings).value;
            var all := happenings + [Campaign(j, o, now, stamp)] + [Move(j, BecomeLeader)] + [Move(j, Launch)];
            var overlap := History(Assembled(key, instances), all);
            && (overlap.Some? <==> f.world.gens[f.nodes[i].gen].expireAt <= now)
            && (overlap.Some? ==>
                  |overlap.value.nodes| == |f.nodes| && overlap.value.nodes[i].working && overlap.value.nodes[j].working)
  {
    HistoryKeepsInv(key, instances, happenings);
    var start := Assembled(key, instances);
    var f := History(start, happenings).value;
    var attempt := Campaign(j, o, now, stamp);
    assert Holding(f.nodes[i]) by {
      assert NodeInv(f.world, f.key, f.nodes[i]);
    }
    AttemptWinsIff(f, i, j, o, now, stamp);
    var f1 := Follows(f, attempt).value;
    FollowsKeepsInv(f, attempt);
    InvIsIndexed(f);
    InvIsIndexed(f1);
    hide FleetInv, Follows, History, Indexed, Assembled, FreshTokens;
    HistoryMore(start, happenings, attempt);
    LaunchSteps(f1, j);
    HistoryMore(start, happenings + [attempt], Move(j, BecomeLeader));
    if f1.nodes[j].stage == Elected {
      HistoryMore(start, happenings + [attempt] + [Move(j, BecomeLeader)], Move(j, Launch));
    } else {
      HistoryEnded(start, happenings + [attempt] + [Move(j, BecomeLeader)], Move(j, Launch));
    }
  }

  /** Such a run from the start: two instances, and a lease of one nanosecond. */
  lemma WorkOverlapsAfterReclaim(key: string, token: string, other: string)
    ensures var o := LockOptions(1, -1, 1, token);
            var happenings := [Campaign(0, o, 0, 0), Move(0, BecomeLeader), Move(0, Launch),
                               Campaign(1, o.(token := other), 1, 1), Move(1, BecomeLeader), Move(1, Launch)];
            && History(Assembled(key, 2), happenings).Some?
            && var f := History(Assembled(key, 2), happenings).value;
               |f.nodes| == 2 && f.nodes[0].working && f.nodes[1].working && f.reclaims == 1
  {
    var o := LockOptions(1, -1, 1, token);
    var o' := o.(token := other);
    var happenings := [Campaign(0, o, 0, 0), Move(0, BecomeLeader), Move(0, Launch),
                       Campaign(1, o', 1, 1), Move(1, BecomeLeader), Move(1, Launch)];
    var fst := Generation(key, token, 1, 1, -1, false, false, LeaseProtocol.Held);
    var gone := fst.(lost := true, renewStopped := true);
    var snd := Generation(key, other, 2, 1, -1, false, false, LeaseProtocol.Held);
    var w1 := World([fst], map[key := 0], false);
    var w2 := World([gone, snd], map[key := 1], false);
    var c0 := Candidate(Elected, 0, false, false, false);
    var c1 := Candidate(Elected, 1, false, false, false);
    var lead0 := c0.(stage := Waiting, leader := true, working := true);
    var f0 := Fleet(key, NEW_LOCKER, [NEWCOMER, NEWCOMER], 0);
    var f1 := Fleet(key, w1, [c0, NEWCOMER], 0);
    var f2 := f1.(nodes := [c0.(stage := Started, leader := true), NEWCOMER]);
    var f3 := f1.(nodes := [lead0, NEWCOMER]);
    var f4 := Fleet(key, w2, [lead0, c1], 1);
    var f5 := f4.(nodes := [lead0, c1.(stage := Started, leader := true)]);
    var f6 := f4.(nodes := [lead0, c1.(stage := Waiting, leader := true, working := true)]);
    assert Assembled(key, 2).nodes == f0.nodes;
    TakeFirst(key, o, o');
    assert Follows(f0, happenings[0]) == Some(f1) by {
      assert f0.nodes[0 := c0] == f1.nodes;
    }
    assert Follows(f1, happenings[1]) == Some(f2) by {
      assert f1.nodes[0 := c0.(stage := Started, leader := true)] == f2.nodes;
    }
    assert Follows(f2, happenings[2]) == Some(f3) by {
      assert f2.nodes[0 := lead0] == f3.nodes;
    }
    assert Follows(f3, happenings[3]) == Some(f4) by {
      assert f3.nodes[1 := c1] == f4.nodes;
    }
    assert Follows(f4, happenings[4]) == Some(f5) by {
      assert f4.nodes[1 := c1.(stage := Started, leader := true)] == f5.nodes;
    }
    assert Follows(f5, happenings[5]) == Some(f6) by {
      assert f5.nodes[1 := f6.nodes[1]] == f6.nodes;
    }
    hide Follows;
    HistoryChain(f0, happenings, [f0, f1, f2, f3, f4, f5, f6]);
  }

  lemma TakeFirst(key: string, o: LockOptions, o': LockOptions)
    requires o.ttl == 1 && o'.ttl == 1 && o.renewEvery == -1 && o'.renewEvery == -1
    ensures var fst := Generation(key, o.token, 1, 1, -1, false, false, LeaseProtocol.Held);
            var snd := Generation(key, o'.token, 2, 1, -1, false, false, LeaseProtocol.Held);
            && Taken(NEW_LOCKER, key, o, 0, 0) == World([fst], map[key := 0], false)
            && Taken(World([fst], map[key := 0], false), key, o', 1, 1)
                 == World([fst.(lost := true, renewStopped := true), snd], map[key := 1], false)
  {
    var fst := Generation(key, o.token, 1, 1, -1, false, false, LeaseProtocol.Held);
    var gone := fst.(lost := true, renewStopped := true);
    var w1 := World([fst], map[key := 0], false);
    assert NEW_LOCKER.locks[key := 0] == w1.locks;
    assert w1.locks - {key} == map[] && w1.gens[0 := gone] == [gone];
    assert Drop(w1, key) == World([gone], map[], false);
  }
}
