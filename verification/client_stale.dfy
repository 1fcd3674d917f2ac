// Which runs of the outbound registry leave a stale executor behind
// (cloud/resilience/client_manager.go, manager.go).
//
// Building again after a push is not the whole fix: a push that lands after the last check
// and before the store is never seen.
module StaleClients {
  import opened Options
  import opened Sets
  import opened ClientRegistry

  predicate Begins(e: Event) {
    e.ApplyBegin? || e.CloseBegin?
  }

  /** The settings a push or a close puts in force. */
  function InForce(e: Event): Settings
    requires Begins(e)
  {
    if e.ApplyBegin? then e.settings else NO_SETTINGS
  }

  /** The label a push has overtaken: its executor passed the last check under another policy. */
  datatype Debt = Settled | InFlight(name: string) | Left(name: string)

  /** What a run owes, read off its events and what the builder had checked at each of them. */
  function Owed(events: seq<Event>): Debt
    requires Run(UNARMED, events).Some?
  {
    if events == [] then Settled
    else
      var e := events[|events| - 1];
      var rest := events[..|events| - 1];
      After(Owed(rest), Run(UNARMED, rest).value.builder, e)
  }

  function After(d: Debt, builder: Builder, e: Event): Debt {
    if Begins(e) then
      if builder.Checked? && builder.policy != PolicyFor(InForce(e), builder.name) then InFlight(builder.name) else Settled
    else if e.Store? && d.InFlight? then Left(d.name)
    else if e.Visit? && d == Left(e.name) then Settled
    else d
  }

  function Labels(d: Debt): set<string> {
    if d.Left? then {d.name} else {}
  }

  /** The stale entries no walk will come to are what is owed, and nothing else is stale in flight. */
  predicate Accounted(m: Manager, d: Debt) {
    && Unseen(m) == Labels(d)
    && (StaleInFlight(m) <==> d.InFlight?)
    && (d.InFlight? ==> m.builder.Checked? && m.builder.name == d.name)
  }

  lemma BuilderAccounted(m: Manager, d: Debt, e: Event)
    requires Accounted(m, d) && IsBuilderStep(e) && Next(m, e).Some?
    ensures Accounted(Next(m, e).value, After(d, m.builder, e))
  {
    BuilderEffect(m, e);
    NotChecked(m, e);
    hide PolicyFor, Stale, Next, StaleInFlight;
    assert Unseen(Next(m, e).value) == Unseen(m);
  }

  lemma NotChecked(m: Manager, e: Event)
    requires IsBuilderStep(e) && Next(m, e).Some?
    ensures !StaleInFlight(m)
  {
  }

  /** The store makes stale what was stale in flight, and nothing else. */
  lemma StoreAddsInFlight(m: Manager, e: Event)
    requires BuilderInv(m) && WalkInv(m) && e.Store? && Next(m, e).Some?
    ensures Unseen(Next(m, e).value) == Unseen(m) + if StaleInFlight(m) then {m.builder.name} else {}
  {
    StoreEffect(m, e);
    hide PolicyFor, Next;
  }

  lemma {:induction false} StoreAccounted(m: Manager, d: Debt, e: Event)
    requires Accounted(m, d) && Inv(m) && e.Store? && Next(m, e).Some?
    ensures Accounted(Next(m, e).value, After(d, m.builder, e))
  {
    StoreAddsInFlight(m, e);
    StoreEffect(m, e);
    hide Next, Inv, Unseen, PolicyFor;
  }

  lemma BeginAccounted(m: Manager, d: Debt, e: Event)
    requires Begins(e) && Next(m, e).Some?
    ensures Accounted(Next(m, e).value, After(d, m.builder, e))
  {
    hide PolicyFor;
    assert Unseen(Next(m, e).value) == {};
  }

  lemma VisitAccounted(m: Manager, d: Debt, e: Event)
    requires Accounted(m, d) && e.Visit? && Next(m, e).Some?
    ensures Accounted(Next(m, e).value, After(d, m.builder, e))
  {
    VisitEffect(m, e);
    hide PolicyFor, Next;
    var m' := Next(m, e).value;
    assert Unseen(m') == Unseen(m) - {e.name};
    hide Unseen;
  }

  lemma {:induction false} NextAccounted(m: Manager, d: Debt, e: Event)
    requires Accounted(m, d) && Inv(m) && Next(m, e).Some?
    ensures Accounted(Next(m, e).value, After(d, m.builder, e))
  {
    hide Accounted, Inv, Next, After;
    if IsBuilderStep(e) {
      BuilderAccounted(m, d, e);
    } else if e.Store? {
      StoreAccounted(m, d, e);
    } else if Begins(e) {
      BeginAccounted(m, d, e);
    } else if e.Visit? {
      VisitAccounted(m, d, e);
    } else {
      WalkEndAccounted(m, d, e);
    }
  }

  lemma WalkEndAccounted(m: Manager, d: Debt, e: Event)
    requires Accounted(m, d) && e.WalkEnd? && Next(m, e).Some?
    ensures Accounted(Next(m, e).value, After(d, m.builder, e))
  {
    hide PolicyFor, Stale;
    assert Unseen(Next(m, e).value) == Unseen(m);
  }

  lemma {:induction false} RunAccounted(events: seq<Event>)
    requires Run(UNARMED, events).Some?
    ensures Inv(Run(UNARMED, events).value) && Accounted(Run(UNARMED, events).value, Owed(events))
  {
    UnarmedIsFine();
    RunKeepsInv(UNARMED, events);
    if events == [] {
      assert Unseen(UNARMED) == {};
    } else {
      var rest := events[..|events| - 1];
      hide Accounted, Inv, Next, After;
      RunAccounted(rest);
      NextAccounted(Run(UNARMED, rest).value, Owed(rest), events[|events| - 1]);
    }
  }

  /**
   * Exactly which runs leave what stale: with no walk running, the stale labels are the one
   * that the latest Apply or Close overtook between its last check and its store, if it has
   * been stored since and that sweep did not come across it.
   */
  lemma StaleIsOwed(events: seq<Event>)
    requires Run(UNARMED, events).Some? && Run(UNARMED, events).value.walk.Resting?
    ensures var m := Run(UNARMED, events).value; StaleLabels(m.settings, m.entries) == Labels(Owed(events))
  {
    RunAccounted(events);
    var m := Run(UNARMED, events).value;
    assert Unseen(m) == StaleLabels(m.settings, m.entries);
  }

  // ---- No push between check and store ------------------------------------

  /** No Apply or Close begins while a builder is between its last check and its store. */
  predicate NeverOvertaken(events: seq<Event>)
    requires Run(UNARMED, events).Some?
  {
    events == []
    || (var rest := events[..|events| - 1];
        NeverOvertaken(rest) && (Begins(events[|events| - 1]) ==> !Run(UNARMED, rest).value.builder.Checked?))
  }

  lemma {:induction false} NotOvertakenOwesNothing(events: seq<Event>)
    requires Run(UNARMED, events).Some? && NeverOvertaken(events)
    ensures Owed(events) == Settled
  {
    hide Next;
    if events != [] {
      NotOvertakenOwesNothing(events[..|events| - 1]);
    }
  }

  /** Then reading the settings again is the whole fix: no executor is stale. */
  lemma NotOvertakenLeavesNothing(events: seq<Event>)
    requires Run(UNARMED, events).Some? && NeverOvertaken(events) && Run(UNARMED, events).value.walk.Resting?
    ensures var m := Run(UNARMED, events).value; StaleLabels(m.settings, m.entries) == {}
  {
    StaleIsOwed(events);
    NotOvertakenOwesNothing(events);
  }

  /** Executors of the driver belong to an armed side, up to what a Close has yet to drain. */
  predicate Armed(m: Manager) {
    && (m.builder.Ready? && m.builder.exec.Built? ==> m.builder.active)
    && (m.builder.Checked? ==> (m.builder.exec.Built? ==> m.applied) && !m.walk.Draining?)
    && (forall l :: l in m.entries && m.entries[l].exec.Built? ==> m.applied || (m.walk.Draining? && l in m.walk.todo))
    && (m.walk.Sweeping? ==> m.applied)
  }

  lemma {:induction false} NextKeepsArmed(m: Manager, e: Event)
    requires Armed(m) && Next(m, e).Some? && (Begins(e) ==> !m.builder.Checked?)
    ensures Armed(Next(m, e).value)
  {
    hide PolicyFor, Stale;
  }

  lemma {:induction false} NotOvertakenIsArmed(events: seq<Event>)
    requires Run(UNARMED, events).Some? && NeverOvertaken(events)
    ensures Armed(Run(UNARMED, events).value)
  {
    if events != [] {
      hide Next, Armed;
      NotOvertakenIsArmed(events[..|events| - 1]);
      NextKeepsArmed(Run(UNARMED, events[..|events| - 1]).value, events[|events| - 1]);
    }
  }

  /** The second comparison of the last check: without such an overtaking, an unarmed side never has an executor of the driver. */
  lemma UnarmedHasNoDriverExecutor(events: seq<Event>, name: string)
    requires Run(UNARMED, events).Some? && NeverOvertaken(events) && Run(UNARMED, events).value.walk.Resting?
    requires name in Run(UNARMED, events).value.entries
    ensures var m := Run(UNARMED, events).value; m.entries[name].exec.Built? ==> m.applied
  {
    NotOvertakenIsArmed(events);
  }

  // ---- A push in between --------------------------------------------------

  lemma RunMore(m: Manager, events: seq<Event>, e: Event)
    requires Run(m, events).Some?
    ensures Run(m, events + [e]) == Next(Run(m, events).value, e)
  {
    hide Next;
    assert (events + [e])[..|events|] == events;
  }

  /** The sweep visits whatever it still has to. */
  lemma {:induction false} SweepAll(events: seq<Event>, left: nat) returns (all: seq<Event>)
    requires Run(UNARMED, events).Some? && Run(UNARMED, events).value.walk.Sweeping?
    requires |Run(UNARMED, events).value.walk.todo| == left
    ensures |all| >= |events| && all[..|events|] == events && Run(UNARMED, all).Some?
    ensures forall k :: |events| <= k < |all| ==> all[k].Visit?
    ensures var m, m' := Run(UNARMED, events).value, Run(UNARMED, all).value;
            m'.walk.Sweeping? && m'.walk.todo == {} && m'.builder == m.builder && m'.settings == m.settings
    decreases left
  {
    hide Run, Next, Inv;
    if left == 0 {
      all := events;
    } else {
      var m := Run(UNARMED, events).value;
      var name :| name in m.walk.todo;
      Walked(events, name);
      RunMore(UNARMED, events, Visit(name));
      VisitStep(m, name);
      var more := events + [Visit(name)];
      all := SweepAll(more, left - 1);
      assert all[..|events|] == more[..|events|];
      assert all[|events|] == more[|events|];
    }
  }

  lemma Walked(events: seq<Event>, name: string)
    requires Run(UNARMED, events).Some?
    requires var m := Run(UNARMED, events).value; !m.walk.Resting? && name in m.walk.todo
    ensures name in Run(UNARMED, events).value.entries
  {
    UnarmedIsFine();
    RunKeepsInv(UNARMED, events);
    hide Run;
  }

  lemma VisitStep(m: Manager, name: string)
    requires m.walk.Sweeping? && name in m.walk.todo && name in m.entries
    ensures Next(m, Visit(name)).Some?
    ensures var m' := Next(m, Visit(name)).value;
            && m'.walk == Sweeping(m.walk.before, m.walk.todo - {name})
            && m'.builder == m.builder && m'.settings == m.settings
  {
    hide Stale;
  }

  lemma {:induction false} VisitsKeepDebt(events: seq<Event>, all: seq<Event>, name: string)
    requires |all| >= |events| && all[..|events|] == events && Run(UNARMED, all).Some?
    requires forall k :: |events| <= k < |all| ==> all[k].Visit?
    requires Run(UNARMED, events).Some? && Owed(events) == InFlight(name)
    ensures Owed(all) == InFlight(name)
  {
    hide Next;
    if |all| > |events| {
      assert all[..|all| - 1][..|events|] == events;
      VisitsKeepDebt(events, all[..|all| - 1], name);
    } else {
      assert all == events;
    }
  }

  /**
   * From every reachable state in which an executor has passed its last check: a push that
   * gives its label another policy, swept to the end before the store, leaves that label
   * stale and no other, for as long as no Apply or Close follows.
   */
  lemma {:induction false} OvertakenStaysStale(events: seq<Event>, s: Settings) returns (all: seq<Event>)
    requires Run(UNARMED, events).Some?
    requires var m := Run(UNARMED, events).value;
             m.walk.Resting? && m.builder.Checked? && PolicyFor(s, m.builder.name) != m.builder.policy
    ensures |all| > |events| && all[..|events|] == events && all[|events|] == ApplyBegin(s)
    ensures Run(UNARMED, all).Some? && Run(UNARMED, all).value.walk.Resting?
    ensures forall more: seq<Event> ::
              (forall k :: 0 <= k < |more| ==> !Begins(more[k])) && Run(UNARMED, all + more).Some? ==>
                var m := Run(UNARMED, all + more).value;
                StaleLabels(m.settings, m.entries) == {Run(UNARMED, events).value.builder.name}
  {
    var name := Run(UNARMED, events).value.builder.name;
    all := Overtake(events, s);
    hide Run, Owed, Begins, StaleLabels, PolicyFor;
    forall more: seq<Event> | (forall k :: 0 <= k < |more| ==> !Begins(more[k])) && Run(UNARMED, all + more).Some?
      ensures var m := Run(UNARMED, all + more).value; StaleLabels(m.settings, m.entries) == {name}
    {
      DebtLasts(all, more, name);
      StaleIsOwed(all + more);
    }
  }

  /** The push, its sweep, and the store after it. */
  lemma {:induction false} Overtake(events: seq<Event>, s: Settings) returns (all: seq<Event>)
    requires Run(UNARMED, events).Some?
    requires var m := Run(UNARMED, events).value;
             m.walk.Resting? && m.builder.Checked? && PolicyFor(s, m.builder.name) != m.builder.policy
    ensures |all| > |events| && all[..|events|] == events && all[|events|] == ApplyBegin(s)
    ensures Run(UNARMED, all).Some? && Run(UNARMED, all).value.walk.Resting?
    ensures Owed(all) == Left(Run(UNARMED, events).value.builder.name)
  {
    hide Run, Owed, Next, PolicyFor;
    var m := Run(UNARMED, events).value;
    var pushed := events + [ApplyBegin(s)];
    PushStep(m, s);
    RunMore(UNARMED, events, ApplyBegin(s));
    OwedMore(events, ApplyBegin(s));
    var swept := SweepAll(pushed, |Run(UNARMED, pushed).value.walk.todo|);
    VisitsKeepDebt(pushed, swept, m.builder.name);
    LastSteps(Run(UNARMED, swept).value);
    RunMore(UNARMED, swept, WalkEnd);
    OwedMore(swept, WalkEnd);
    RunMore(UNARMED, swept + [WalkEnd], Store);
    OwedMore(swept + [WalkEnd], Store);
    all := swept + [WalkEnd] + [Store];
    assert all[..|pushed|] == swept[..|pushed|];
    assert all[..|events|] == all[..|pushed|][..|events|] == events && all[|events|] == all[..|pushed|][|events|];
  }

  lemma OwedMore(events: seq<Event>, e: Event)
    requires Run(UNARMED, events).Some? && Run(UNARMED, events + [e]).Some?
    ensures Owed(events + [e]) == After(Owed(events), Run(UNARMED, events).value.builder, e)
  {
    hide Next, After;
    assert (events + [e])[..|events|] == events;
  }

  lemma PushStep(m: Manager, s: Settings)
    requires m.walk.Resting?
    ensures Next(m, ApplyBegin(s)).Some?
    ensures var m' := Next(m, ApplyBegin(s)).value; m'.walk.Sweeping? && m'.builder == m.builder && m'.settings == s
  {
  }

  lemma LastSteps(m: Manager)
    requires m.walk.Sweeping? && m.walk.todo == {} && m.builder.Checked?
    ensures Next(m, WalkEnd) == Some(m.(walk := Resting))
    ensures Next(m.(walk := Resting), Store).Some? && Next(m.(walk := Resting), Store).value.walk.Resting?
  {
  }

  /** At rest, with neither Apply nor Close, nothing is visited and the debt stays. */
  lemma {:induction false} DebtLasts(events: seq<Event>, more: seq<Event>, name: string)
    requires Run(UNARMED, events).Some? && Run(UNARMED, events).value.walk.Resting? && Owed(events) == Left(name)
    requires (forall k :: 0 <= k < |more| ==> !Begins(more[k])) && Run(UNARMED, events + more).Some?
    ensures Owed(events + more) == Left(name) && Run(UNARMED, events + more).value.walk.Resting?
  {
    if more == [] {
      assert events + more == events;
    } else {
      var rest := more[..|more| - 1];
      assert (events + more)[..|events + more| - 1] == events + rest;
      DebtLasts(events, rest, name);
      StaysResting(Run(UNARMED, events + rest).value, more[|more| - 1]);
      hide Next;
    }
  }

  lemma StaysResting(m: Manager, e: Event)
    requires m.walk.Resting? && !Begins(e) && Next(m, e).Some?
    ensures !e.Visit? && Next(m, e).value.walk.Resting?
  {
    hide PolicyFor, Stale;
  }

  // ---- Pass-through executors ---------------------------------------------

  /**
   * The pass-through an unarmed side registers is compared by policy only: when the first
   * push has been swept it is still there, on an armed manager, exactly if the label's new
   * policy is the zero policy.
   */
  lemma PassThroughSurvivesIff(events: seq<Event>, name: string, id: nat)
    requires Run(UNARMED, events).Some?
    requires var m := Run(UNARMED, events).value;
             m.walk.Sweeping? && m.walk.todo == {} && name in m.walk.before && m.walk.before[name] == Entry(Noop(id), Zero)
    ensures var m := Run(UNARMED, events).value;
            m.applied && (name in m.entries && m.entries[name].exec == Noop(id) <==> PolicyFor(m.settings, name) == Zero)
  {
    SweepIsExact(events, name);
    RunAccounted(events);
    hide PolicyFor, Run;
  }
}
