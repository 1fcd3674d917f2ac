// The outbound executor registry (cloud/resilience/client_manager.go, manager.go).
//
// Builds of missing executors race with Apply and Close: the registry is written after
// the last check has released the manager's lock. The class proves the sequential
// methods; the state machine below interleaves their atomic steps.
module ClientRegistry {
  import opened Options
  import opened Sets

  /** A policy is only ever compared; Zero is the pass-through. */
  datatype Policy = Zero | Policy(document: string)

  datatype Rule = Rule(service: string, policy: Policy)

  datatype Settings = Settings(fallback: Policy, rules: seq<Rule>)

  const NO_SETTINGS := Settings(Zero, [])

  /** A noop passes calls through; a built executor comes from the driver. */
  datatype Exec = Noop(id: nat) | Built(id: nat)

  datatype Entry = Entry(exec: Exec, policy: Policy)

  type Entries = map<string, Entry>

  /** The policy of the first rule for the label, else the fallback. */
  function PolicyFor(s: Settings, name: string): (p: Policy)
    ensures (forall i :: 0 <= i < |s.rules| ==> s.rules[i].service != name) ==> p == s.fallback
    ensures forall i :: (0 <= i < |s.rules| && s.rules[i].service == name
                         && (forall j :: 0 <= j < i ==> s.rules[j].service != name)) ==> p == s.rules[i].policy
    decreases |s.rules|
  {
    if s.rules == [] then s.fallback
    else if s.rules[0].service == name then s.rules[0].policy
    else
      var rest := s.(rules := s.rules[1..]);
      assert forall i :: 0 <= i < |rest.rules| ==> rest.rules[i] == s.rules[i + 1];
      PolicyFor(rest, name)
  }

  predicate Stale(s: Settings, entries: Entries, name: string) {
    name in entries && entries[name].policy != PolicyFor(s, name)
  }

  lemma NewEntryIsFresh(s: Settings, entries: Entries, name: string, entry: Entry)
    requires entry.policy == PolicyFor(s, name)
    ensures !Stale(s, entries[name := entry], name)
  {
  }

  function StaleLabels(s: Settings, entries: Entries): set<string> {
    set l | l in entries && Stale(s, entries, l)
  }

  /** The registry with every stale entry dropped and every other entry untouched. */
  function Evicted(s: Settings, entries: Entries): Entries {
    map l | l in entries && !Stale(s, entries, l) :: entries[l]
  }

  /** What lands while a driver builds. */
  datatype Landing = Nothing | Pushed(settings: Settings) | Closed

  /** How many of them there are. */
  function Landed(landings: seq<Landing>): nat {
    if landings == [] then 0
    else Landed(landings[..|landings| - 1]) + if landings[|landings| - 1].Nothing? then 0 else 1
  }

  lemma LandedNext(landings: seq<Landing>, k: nat)
    ensures Landed(landings[..0]) == 0
    ensures k < |landings| ==>
              Landed(landings[..k + 1]) == Landed(landings[..k]) + if landings[k].Nothing? then 0 else 1
  {
    assert k < |landings| ==> landings[..k + 1][..k] == landings[..k];
  }

  class ClientSide {
    var settings: Settings
    var applied: bool
    var entries: Entries
    var nextId: nat
    ghost var epoch: nat   // how many Apply and Close calls there have been

    constructor ()
      ensures Abs() == UNARMED
    {
      settings, applied, entries, nextId, epoch := NO_SETTINGS, false, map[], 0, 0;
    }

    /** The manager between operations. */
    ghost function Abs(): Manager
      reads this
    {
      Manager(settings, applied, epoch, entries, nextId, Nobody, Resting)
    }

    method PolicyLocked(name: string) returns (p: Policy)
      ensures p == PolicyFor(settings, name)
    {
      for i := 0 to |settings.rules|
        invariant forall j :: 0 <= j < i ==> settings.rules[j].service != name
      {
        if settings.rules[i].service == name {
          return settings.rules[i].policy;
        }
      }
      return settings.fallback;
    }

    method EvictChangedLocked()
      modifies this`entries
      ensures entries == Evicted(settings, old(entries))
    {
      var todo := entries.Keys;
      while todo != {}
        invariant todo <= old(entries).Keys
        invariant entries == map l | l in old(entries) && (l in todo || !Stale(settings, old(entries), l)) :: old(entries)[l]
        decreases todo
      {
        var name :| name in todo;
        var current := PolicyLocked(name);
        if entries[name].policy != current {
          entries := entries - {name};
        }
        todo := todo - {name};
      }
    }

    /** Adopts the pushed settings and drops what they invalidate; an unchanged label keeps its executor. */
    method Apply(s: Settings)
      modifies this`settings, this`applied, this`entries, this`epoch
      ensures settings == s && applied && epoch == old(epoch) + 1
      ensures entries == Evicted(s, old(entries))
      ensures StaleLabels(settings, entries) == {}
    {
      settings, applied, epoch := s, true, epoch + 1;
      EvictChangedLocked();
    }

    /** Empties the registry and returns the executors that were in it. */
    method DrainClientCache() returns (execs: set<Exec>)
      modifies this`entries
      ensures entries == map[]
      ensures execs == set l | l in old(entries) :: old(entries)[l].exec
    {
      execs := {};
      var todo := entries.Keys;
      while todo != {}
        invariant todo <= old(entries).Keys
        invariant entries == map l | l in todo :: old(entries)[l]
        invariant execs == set l | l in old(entries) && l !in todo :: old(entries)[l].exec
        decreases todo
      {
        var name :| name in todo;
        execs := execs + {entries[name].exec};
        entries := entries - {name};
        todo := todo - {name};
      }
    }

    method Close() returns (execs: set<Exec>)
      modifies this`settings, this`applied, this`entries, this`epoch
      ensures settings == NO_SETTINGS && !applied && entries == map[] && epoch == old(epoch) + 1
      ensures execs == set l | l in old(entries) :: old(entries)[l].exec
    {
      applied, settings, epoch := false, NO_SETTINGS, epoch + 1;
      execs := DrainClientCache();
    }

    /** An armed side asks the driver; a pass-through stands in where it is not asked or cannot build. */
    method Drive(active: bool, driverOk: bool) returns (exec: Exec)
      modifies this`nextId
      ensures exec == if active && driverOk then Built(old(nextId)) else Noop(old(nextId))
      ensures nextId == old(nextId) + 1
    {
      exec := Noop(nextId);
      if active && driverOk {
        exec := Built(nextId);
      }
      nextId := nextId + 1;
    }

    method Land(landing: Landing)
      modifies this`settings, this`applied, this`entries, this`epoch
      ensures landing.Nothing? ==> Abs() == old(Abs())
      ensures landing.Pushed? ==> applied && settings == landing.settings && epoch == old(epoch) + 1
      ensures landing.Closed? ==> !applied && settings == NO_SETTINGS && epoch == old(epoch) + 1
      ensures entries.Keys <= old(entries).Keys
    {
      match landing {
        case Nothing =>
        case Pushed(s) => Apply(s);
        case Closed => var execs := Close();
      }
    }

    /** One round of a build: it registers what it built unless what it had read no longer holds. */
    method BuildRound(name: string, landing: Landing, driverOk: bool) returns (exec: Exec, done: bool)
      requires name !in entries
      modifies this
      ensures epoch == old(epoch) + (if landing.Nothing? then 0 else 1) && nextId == old(nextId) + 1
      ensures exec.id == old(nextId)
      ensures done ==>
                && name in entries && entries[name].exec == exec && !Stale(settings, entries, name)
                && (exec.Built? <==> applied && driverOk)
      ensures !done ==> name !in entries && !landing.Nothing?
      ensures landing.Nothing? ==> Abs() == BuiltIn(old(Abs()), name, driverOk)
    {
      hide PolicyFor, Stale, Evicted;
      var active := applied;
      var policy := PolicyLocked(name);
      exec := Drive(active, driverOk);
      Land(landing);
      var activeNow := applied;
      var current := PolicyLocked(name);
      done := activeNow == active && current == policy;
      if done {
        NewEntryIsFresh(settings, entries, name, Entry(exec, policy));
        entries := entries[name := Entry(exec, policy)];
      }
    }

    /**
     * Builds and registers the label's executor. landed[k] is the Apply or Close, if any, that
     * lands while the driver builds in round k, and driverOk[k] whether the driver could build.
     * The executor that is registered always carries the policy in force at the last check,
     * and another round needs another Apply or Close.
     */
    method BuildLocked(name: string, landed: seq<Landing>, driverOk: seq<bool>)
      returns (exec: Exec, rounds: nat)
      requires name !in entries && |driverOk| == |landed| + 1
      modifies this
      ensures name in entries && entries[name].exec == exec && !Stale(settings, entries, name)
      ensures old(nextId) <= exec.id < nextId
      ensures 1 <= rounds <= |landed| + 1
      ensures epoch == old(epoch) + Landed(landed[..if rounds <= |landed| then rounds else |landed|])
      ensures exec.Built? <==> applied && driverOk[rounds - 1]
      ensures (forall k :: 0 <= k < |landed| ==> landed[k].Nothing?) ==>
                rounds == 1 && Abs() == BuiltIn(old(Abs()), name, driverOk[0])
    {
      hide Abs, BuiltIn, Stale, Landed;
      rounds := 0;
      LandedNext(landed, 0);
      while true
        invariant 0 <= rounds <= |landed|
        invariant name !in entries && old(nextId) <= nextId
        invariant rounds > 0 ==> exists k :: 0 <= k < |landed| && !landed[k].Nothing?
        invariant rounds == 0 ==> Abs() == old(Abs())
        invariant epoch == old(epoch) + Landed(landed[..rounds])
        decreases |landed| - rounds
      {
        LandedNext(landed, rounds);
        var landing := if rounds < |landed| then landed[rounds] else Nothing;
        var done;
        exec, done := BuildRound(name, landing, driverOk[rounds]);
        rounds := rounds + 1;
        if done {
          return;
        }
      }
    }

    /** The executor a label runs under, built and registered on first use. */
    method Backing(name: string, landed: seq<Landing>, driverOk: seq<bool>) returns (exec: Exec, rounds: nat)
      requires |driverOk| == |landed| + 1
      modifies this
      ensures name in entries && entries[name].exec == exec && rounds <= |driverOk|
      ensures name in old(entries) ==> exec == old(entries)[name].exec && unchanged(this)
      ensures name !in old(entries) ==>
                && rounds > 0 && !Stale(settings, entries, name)
                && (exec.Built? <==> applied && driverOk[rounds - 1])
    {
      hide Stale, PolicyFor, BuiltIn;
      if name in entries {
        return entries[name].exec, 0;
      }
      exec, rounds := BuildLocked(name, landed, driverOk);
    }
  }

  // ---- Builds, Apply and Close interleaved --------------------------------

  /** The one build in progress; buildMu admits a single builder. */
  datatype Builder =
    | Nobody
    | Missed(name: string)
    | Decided(name: string, active: bool, policy: Policy, epoch: nat)
    | Ready(name: string, active: bool, policy: Policy, epoch: nat, exec: Exec)
    | Checked(name: string, policy: Policy, exec: Exec)   // the check passed and the lock is free again

  /** A walk over the registry by Apply or Close, which hold the manager's lock while it runs. */
  datatype Walk =
    | Resting
    | Sweeping(before: Entries, todo: set<string>)
    | Draining(before: Entries, todo: set<string>)

  datatype Manager = Manager(
    settings: Settings,
    applied: bool,
    epoch: nat,          // how many Apply and Close calls there have been
    entries: Entries,
    nextId: nat,
    builder: Builder,
    walk: Walk)

  datatype Event =
    | StartBuild(name: string)
    | ReadSettings
    | Drive(ok: bool)
    | Recheck
    | Store
    | ApplyBegin(settings: Settings)
    | CloseBegin
    | Visit(name: string)
    | WalkEnd

  function Unregister(m: Manager, name: string): Manager {
    m.(entries := m.entries - {name})
  }

  function Next(m: Manager, e: Event): Option<Manager> {
    match e
    case StartBuild(name) =>
      if m.builder.Nobody? && name !in m.entries then Some(m.(builder := Missed(name))) else None
    case ReadSettings =>
      if m.builder.Missed? && m.walk.Resting? then
        Some(m.(builder := Decided(m.builder.name, m.applied, PolicyFor(m.settings, m.builder.name), m.epoch)))
      else None
    case Drive(ok) =>
      if m.builder.Decided? then
        var b := m.builder;
        var exec := if b.active && ok then Built(m.nextId) else Noop(m.nextId);
        Some(m.(nextId := m.nextId + 1, builder := Ready(b.name, b.active, b.policy, b.epoch, exec)))
      else None
    case Recheck =>
      if m.builder.Ready? && m.walk.Resting? then
        var b := m.builder;
        if m.applied == b.active && PolicyFor(m.settings, b.name) == b.policy
        then Some(m.(builder := Checked(b.name, b.policy, b.exec)))
        else Some(m.(builder := Missed(b.name)))
      else None
    case Store =>
      if m.builder.Checked? then
        Some(m.(entries := m.entries[m.builder.name := Entry(m.builder.exec, m.builder.policy)], builder := Nobody))
      else None
    case ApplyBegin(settings) =>
      if m.walk.Resting? then
        Some(m.(settings := settings, applied := true, epoch := m.epoch + 1, walk := Sweeping(m.entries, m.entries.Keys)))
      else None
    case CloseBegin =>
      if m.walk.Resting? then
        Some(m.(settings := NO_SETTINGS, applied := false, epoch := m.epoch + 1, walk := Draining(m.entries, m.entries.Keys)))
      else None
    case Visit(name) =>
      if name !in m.entries then None
      else
        (match m.walk
         case Resting => None
         case Sweeping(before, todo) =>
           var done := m.(walk := Sweeping(before, todo - {name}));
           if Stale(m.settings, m.entries, name) then Some(Unregister(done, name)) else Some(done)
         case Draining(before, todo) =>
           Some(Unregister(m.(walk := Draining(before, todo - {name})), name)))
    case WalkEnd =>
      if !m.walk.Resting? && m.walk.todo == {} then Some(m.(walk := Resting)) else None
  }

  function Run(m: Manager, events: seq<Event>): Option<Manager> {
    if events == [] then Some(m)
    else
      match Run(m, events[..|events| - 1])
      case None => None
      case Some(before) => Next(before, events[|events| - 1])
  }

  /**
   * The manager after a build that nothing lands in: the driver's executor if the side is armed
   * and the driver could build it, a pass-through otherwise, under the label's policy.
   */
  function BuiltIn(m: Manager, name: string, ok: bool): Manager {
    WithEntry(m, name, Entry(if m.applied && ok then Built(m.nextId) else Noop(m.nextId), PolicyFor(m.settings, name)))
  }

  /** m with one more executor made and registered. */
  function WithEntry(m: Manager, name: string, entry: Entry): Manager {
    m.(entries := m.entries[name := entry], nextId := m.nextId + 1)
  }

  /** The steps of a build that nothing lands in. */
  function BuildEvents(name: string, ok: bool): seq<Event> {
    [StartBuild(name), ReadSettings, Drive(ok), Recheck, Store]
  }

  /** m with a build in progress and id executors made so far. */
  function Building(m: Manager, builder: Builder, id: nat): Manager {
    Manager(m.settings, m.applied, m.epoch, m.entries, id, builder, m.walk)
  }

  lemma {:induction false} BuildReads(m: Manager, name: string, policy: Policy)
    requires m.builder == Nobody && m.walk == Resting && name !in m.entries && policy == PolicyFor(m.settings, name)
    ensures Next(m, StartBuild(name)) == Some(Building(m, Missed(name), m.nextId))
    ensures Next(Building(m, Missed(name), m.nextId), ReadSettings)
              == Some(Building(m, Decided(name, m.applied, policy, m.epoch), m.nextId))
  {
    hide PolicyFor;
  }

  predicate DriverMakes(m: Manager, ok: bool, exec: Exec) {
    exec == if m.applied && ok then Built(m.nextId) else Noop(m.nextId)
  }

  lemma {:induction false} BuildDrives(m: Manager, name: string, policy: Policy, ok: bool, exec: Exec)
    requires m.walk == Resting && policy == PolicyFor(m.settings, name) && DriverMakes(m, ok, exec)
    ensures Next(Building(m, Decided(name, m.applied, policy, m.epoch), m.nextId), Drive(ok))
              == Some(Building(m, Ready(name, m.applied, policy, m.epoch, exec), m.nextId + 1))
  {
    hide PolicyFor;
  }

  lemma {:induction false} BuildRechecks(m: Manager, name: string, policy: Policy, exec: Exec)
    requires m.walk == Resting && policy == PolicyFor(m.settings, name)
    ensures Next(Building(m, Ready(name, m.applied, policy, m.epoch, exec), m.nextId + 1), Recheck)
              == Some(Building(m, Checked(name, policy, exec), m.nextId + 1))
  {
    hide PolicyFor;
  }

  lemma {:induction false} BuildStores(m: Manager, name: string, policy: Policy, exec: Exec)
    requires m.builder == Nobody
    ensures Next(Building(m, Checked(name, policy, exec), m.nextId + 1), Store) == Some(WithEntry(m, name, Entry(exec, policy)))
  {
  }

  lemma DriverMakesOne(m: Manager, name: string, ok: bool) returns (exec: Exec)
    ensures DriverMakes(m, ok, exec)
    ensures BuiltIn(m, name, ok) == WithEntry(m, name, Entry(exec, PolicyFor(m.settings, name)))
  {
    exec := if m.applied && ok then Built(m.nextId) else Noop(m.nextId);
  }

  /** A build that nothing lands in is a run of the interleaving. */
  lemma {:induction false} UndisturbedBuild(m: Manager, name: string, ok: bool)
    requires m.builder.Nobody? && m.walk.Resting? && name !in m.entries
    ensures Run(m, BuildEvents(name, ok)) == Some(BuiltIn(m, name, ok))
  {
    hide PolicyFor, Next, Run, Building, BuiltIn, WithEntry, DriverMakes;
    var policy := PolicyFor(m.settings, name);
    var exec := DriverMakesOne(m, name, ok);
    BuildReads(m, name, policy);
    BuildDrives(m, name, policy, ok, exec);
    BuildRechecks(m, name, policy, exec);
    BuildStores(m, name, policy, exec);
    FiveSteps(BuildEvents(name, ok),
              [m, Building(m, Missed(name), m.nextId), Building(m, Decided(name, m.applied, policy, m.epoch), m.nextId),
               Building(m, Ready(name, m.applied, policy, m.epoch, exec), m.nextId + 1),
               Building(m, Checked(name, policy, exec), m.nextId + 1), BuiltIn(m, name, ok)]);
  }

  lemma {:induction false} FiveSteps(events: seq<Event>, states: seq<Manager>)
    requires |events| == 5 && |states| == 6
    requires Next(states[0], events[0]) == Some(states[1]) && Next(states[1], events[1]) == Some(states[2])
    requires Next(states[2], events[2]) == Some(states[3]) && Next(states[3], events[3]) == Some(states[4])
    requires Next(states[4], events[4]) == Some(states[5])
    ensures Run(states[0], events) == Some(states[5])
  {
    hide Next;
    forall i | 0 <= i < |events|
      ensures Next(states[i], events[i]) == Some(states[i + 1])
    {
      assert i == 0 || i == 1 || i == 2 || i == 3 || i == 4;
    }
    Chain(states[0], events, states);
  }

  const UNARMED := Manager(NO_SETTINGS, false, 0, map[], 0, Nobody, Resting)

  /** The settings of the latest Apply, unless a Close has come in since. */
  function LatestPush(events: seq<Event>): Option<Settings> {
    if events == [] then None
    else
      match events[|events| - 1]
      case ApplyBegin(settings) => Some(settings)
      case CloseBegin => None
      case _ => LatestPush(events[..|events| - 1])
  }

  function Pushes(events: seq<Event>): nat {
    if events == [] then 0
    else
      var last := events[|events| - 1];
      Pushes(events[..|events| - 1]) + if last.ApplyBegin? || last.CloseBegin? then 1 else 0
  }

  /** In every interleaving the manager is armed, with the settings of the latest Apply, exactly until a Close. */
  lemma {:induction false} ArmedUntilClosed(events: seq<Event>)
    requires Run(UNARMED, events).Some?
    ensures var m := Run(UNARMED, events).value;
            && m.epoch == Pushes(events) && (m.applied <==> LatestPush(events).Some?)
            && m.settings == (match LatestPush(events) case Some(s) => s case None => Settings(Zero, []))
  {
    if events != [] {
      ArmedUntilClosed(events[..|events| - 1]);
    }
  }

  /** The stale entries the running walk will not come back to. */
  function Unseen(m: Manager): set<string> {
    StaleLabels(m.settings, m.entries) - (if m.walk.Resting? then {} else m.walk.todo)
  }

  predicate StaleInFlight(m: Manager) {
    m.builder.Checked? && m.builder.policy != PolicyFor(m.settings, m.builder.name)
  }

  predicate FewStale(m: Manager) {
    |Unseen(m)| + (if StaleInFlight(m) then 1 else 0) <= 1
  }

  /** What the builder knows: its label is unregistered, and what it read holds unless an Apply or Close came in. */
  predicate BuilderInv(m: Manager) {
    && (!m.builder.Nobody? ==> m.builder.name !in m.entries)
    && (m.builder.Decided? || m.builder.Ready? ==>
          && m.builder.epoch <= m.epoch
          && (m.builder.epoch == m.epoch ==>
                m.builder.active == m.applied && m.builder.policy == PolicyFor(m.settings, m.builder.name)))
  }

  /** How far the walk has come: what it has passed is dropped or kept as it was. */
  ghost predicate WalkInv(m: Manager) {
    !m.walk.Resting? ==>
      && (m.walk.Sweeping? ==> m.applied)
      && m.walk.todo <= m.walk.before.Keys && m.walk.todo <= m.entries.Keys
      && (!m.builder.Nobody? && !m.builder.Missed? ==> m.builder.name !in m.walk.before)
      && (forall l :: l in m.walk.before && l in m.entries ==> m.entries[l] == m.walk.before[l])
      && (forall l :: l in m.walk.before ==>
            (l in m.entries <==> l in m.walk.todo || (m.walk.Sweeping? && !Stale(m.settings, m.walk.before, l))))
  }

  ghost predicate Inv(m: Manager) {
    FewStale(m) && BuilderInv(m) && WalkInv(m)
  }

  predicate IsBuilderStep(e: Event) {
    e.StartBuild? || e.ReadSettings? || e.Drive? || e.Recheck?
  }

  /** The builder's steps before the store touch neither the registry nor the walk. */
  lemma BuilderEffect(m: Manager, e: Event)
    requires IsBuilderStep(e) && Next(m, e).Some?
    ensures var m' := Next(m, e).value;
            && m'.settings == m.settings && m'.applied == m.applied && m'.epoch == m.epoch
            && m'.entries == m.entries && m'.walk == m.walk
            && !StaleInFlight(m')
  {
    hide PolicyFor;
  }

  lemma BuilderKeepsFewStale(m: Manager, e: Event)
    requires FewStale(m) && IsBuilderStep(e) && Next(m, e).Some?
    ensures FewStale(Next(m, e).value)
  {
    BuilderEffect(m, e);
    hide PolicyFor, Stale, Next, StaleInFlight;
    assert Unseen(Next(m, e).value) == Unseen(m);
  }

  lemma BuilderKeepsBuilderInv(m: Manager, e: Event)
    requires BuilderInv(m) && IsBuilderStep(e) && Next(m, e).Some?
    ensures BuilderInv(Next(m, e).value)
  {
    hide PolicyFor;
  }

  lemma BuilderKeepsWalkInv(m: Manager, e: Event)
    requires WalkInv(m) && IsBuilderStep(e) && Next(m, e).Some?
    ensures WalkInv(Next(m, e).value)
  {
    BuilderEffect(m, e);
    hide PolicyFor, Stale, StaleInFlight;
  }

  lemma BuilderKeepsInv(m: Manager, e: Event)
    requires Inv(m) && IsBuilderStep(e) && Next(m, e).Some?
    ensures Inv(Next(m, e).value)
  {
    hide FewStale, WalkInv, BuilderInv, Next;
    BuilderKeepsFewStale(m, e);
    BuilderKeepsBuilderInv(m, e);
    BuilderKeepsWalkInv(m, e);
  }

  lemma {:induction false} StoreEffect(m: Manager, e: Event)
    requires e.Store? && Next(m, e).Some?
    ensures m.builder.Checked?
    ensures var m' := Next(m, e).value;
            && m'.settings == m.settings && m'.applied == m.applied && m'.builder == Nobody && m'.walk == m.walk
            && m'.entries == m.entries[m.builder.name := Entry(m.builder.exec, m.builder.policy)]
  {
  }

  lemma {:induction false} StoreKeepsFewStale(m: Manager, e: Event)
    requires FewStale(m) && BuilderInv(m) && e.Store? && Next(m, e).Some?
    ensures FewStale(Next(m, e).value)
  {
    StoreEffect(m, e);
    hide PolicyFor, Next;
    var m' := Next(m, e).value;
    var name := m.builder.name;
    assert name !in Unseen(m);
    forall x | x != name
      ensures x in Unseen(m) <==> x in Unseen(m')
    {
    }
    assert name in Unseen(m') ==> StaleInFlight(m);
    hide Unseen, StaleInFlight, BuilderInv;
    OneChanges(Unseen(m), Unseen(m'), name);
  }

  lemma StoreKeepsWalkInv(m: Manager, e: Event)
    requires WalkInv(m) && e.Store? && Next(m, e).Some?
    ensures WalkInv(Next(m, e).value)
  {
    StoreEffect(m, e);
    hide Stale, Next;
  }

  /** The store adds at most the one entry that was stale in flight. */
  lemma StoreKeepsInv(m: Manager, e: Event)
    requires Inv(m) && e.Store? && Next(m, e).Some?
    ensures Inv(Next(m, e).value)
  {
    StoreKeepsFewStale(m, e);
    StoreKeepsWalkInv(m, e);
    StoreEffect(m, e);
    hide Next, FewStale, WalkInv;
  }

  lemma BeginKeepsFewStale(m: Manager, e: Event)
    requires (e.ApplyBegin? || e.CloseBegin?) && Next(m, e).Some?
    ensures FewStale(Next(m, e).value)
  {
    hide PolicyFor;
    assert Unseen(Next(m, e).value) == {};
  }

  lemma BeginKeepsWalkInv(m: Manager, e: Event)
    requires BuilderInv(m) && (e.ApplyBegin? || e.CloseBegin?) && Next(m, e).Some?
    ensures WalkInv(Next(m, e).value)
  {
    hide PolicyFor, Stale;
  }

  lemma BeginKeepsBuilderInv(m: Manager, e: Event)
    requires BuilderInv(m) && (e.ApplyBegin? || e.CloseBegin?) && Next(m, e).Some?
    ensures BuilderInv(Next(m, e).value)
  {
    hide PolicyFor;
  }

  lemma BeginKeepsInv(m: Manager, e: Event)
    requires Inv(m) && (e.ApplyBegin? || e.CloseBegin?) && Next(m, e).Some?
    ensures Inv(Next(m, e).value)
  {
    hide FewStale, WalkInv, BuilderInv, Next;
    BeginKeepsFewStale(m, e);
    BeginKeepsBuilderInv(m, e);
    BeginKeepsWalkInv(m, e);
  }

  lemma VisitEffect(m: Manager, e: Event)
    requires e.Visit? && Next(m, e).Some?
    ensures var m' := Next(m, e).value;
            && m'.settings == m.settings && m'.applied == m.applied && m'.builder == m.builder
            && !m.walk.Resting? && !m'.walk.Resting? && m'.walk.todo == m.walk.todo - {e.name}
            && (m'.entries == m.entries || m'.entries == m.entries - {e.name})
            && (Stale(m.settings, m.entries, e.name) ==> m'.entries == m.entries - {e.name})
  {
    hide Stale;
  }

  /** A visited entry is dropped if it is stale, so passing it leaves nothing stale behind. */
  lemma VisitKeepsFewStale(m: Manager, e: Event)
    requires FewStale(m) && e.Visit? && Next(m, e).Some?
    ensures FewStale(Next(m, e).value)
  {
    VisitEffect(m, e);
    hide PolicyFor, Next;
    var m' := Next(m, e).value;
    assert forall x :: x in Unseen(m') ==> x in Unseen(m);
    SubsetSize(Unseen(m'), Unseen(m));
    assert StaleInFlight(m') == StaleInFlight(m);
  }

  lemma VisitKeepsWalkInv(m: Manager, e: Event)
    requires WalkInv(m) && e.Visit? && Next(m, e).Some?
    ensures WalkInv(Next(m, e).value)
  {
    hide PolicyFor;
  }

  lemma VisitKeepsBuilderInv(m: Manager, e: Event)
    requires BuilderInv(m) && e.Visit? && Next(m, e).Some?
    ensures BuilderInv(Next(m, e).value)
  {
    hide PolicyFor, Stale;
  }

  lemma WalkEndKeepsInv(m: Manager, e: Event)
    requires Inv(m) && e.WalkEnd? && Next(m, e).Some?
    ensures Inv(Next(m, e).value)
  {
    hide PolicyFor, Stale;
    assert Unseen(Next(m, e).value) == Unseen(m);
  }

  lemma NextKeepsInv(m: Manager, e: Event)
    requires Inv(m) && Next(m, e).Some?
    ensures Inv(Next(m, e).value)
  {
    hide Next, FewStale, BuilderInv, WalkInv;
    match e
    case StartBuild(_) => BuilderKeepsInv(m, e);
    case ReadSettings => BuilderKeepsInv(m, e);
    case Drive(_) => BuilderKeepsInv(m, e);
    case Recheck => BuilderKeepsInv(m, e);
    case Store => StoreKeepsInv(m, e);
    case ApplyBegin(_) => BeginKeepsInv(m, e);
    case CloseBegin => BeginKeepsInv(m, e);
    case Visit(_) =>
      VisitKeepsFewStale(m, e);
      VisitKeepsBuilderInv(m, e);
      VisitKeepsWalkInv(m, e);
    case WalkEnd => WalkEndKeepsInv(m, e);
  }

  lemma {:induction false} RunKeepsInv(m: Manager, events: seq<Event>)
    requires Inv(m) && Run(m, events).Some?
    ensures Inv(Run(m, events).value)
  {
    hide Inv, Next;
    if events != [] {
      RunKeepsInv(m, events[..|events| - 1]);
      NextKeepsInv(Run(m, events[..|events| - 1]).value, events[|events| - 1]);
    }
  }

  lemma UnarmedIsFine()
    ensures Inv(UNARMED)
  {
    assert Unseen(UNARMED) == {};
  }

  /**
   * In any interleaving of builds, Apply and Close, whenever no walk is running at most one
   * registered executor carries a policy other than the one its label resolves to.
   */
  lemma AtMostOneStale(events: seq<Event>)
    requires Run(UNARMED, events).Some?
    ensures var m := Run(UNARMED, events).value;
            m.walk.Resting? ==> |StaleLabels(m.settings, m.entries)| <= 1
  {
    UnarmedIsFine();
    RunKeepsInv(UNARMED, events);
    var m := Run(UNARMED, events).value;
    if m.walk.Resting? {
      assert Unseen(m) == StaleLabels(m.settings, m.entries);
    }
  }

  /**
   * When Apply's sweep ends, every entry it started from is gone if its policy changed and
   * otherwise untouched, executor and all.
   */
  lemma SweepIsExact(events: seq<Event>, name: string)
    requires Run(UNARMED, events).Some?
    requires var m := Run(UNARMED, events).value; m.walk.Sweeping? && m.walk.todo == {} && name in m.walk.before
    ensures var m := Run(UNARMED, events).value;
            if m.walk.before[name].policy == PolicyFor(m.settings, name)
            then name in m.entries && m.entries[name] == m.walk.before[name]
            else name !in m.entries
  {
    UnarmedIsFine();
    RunKeepsInv(UNARMED, events);
  }

  /** When Close's drain ends, nothing it started from is left. */
  lemma DrainIsComplete(events: seq<Event>, name: string)
    requires Run(UNARMED, events).Some?
    requires var m := Run(UNARMED, events).value; m.walk.Draining? && m.walk.todo == {} && name in m.walk.before
    ensures name !in Run(UNARMED, events).value.entries
  {
    UnarmedIsFine();
    RunKeepsInv(UNARMED, events);
  }

  /** A build goes round again only if an Apply or a Close came in after it read the settings. */
  lemma RebuildNeedsApply(events: seq<Event>)
    requires Run(UNARMED, events).Some?
    requires var m := Run(UNARMED, events).value; m.builder.Ready? && Next(m, Recheck).Some?
    ensures var m := Run(UNARMED, events).value;
            Next(m, Recheck).value.builder.Missed? ==> m.builder.epoch < m.epoch
  {
    UnarmedIsFine();
    RunKeepsInv(UNARMED, events);
  }

  /**
   * The bound is reached: an Apply that lands between the last check and the store leaves
   * one registered executor a generation behind until the next push.
   */
  lemma OneStaleIsReachable(name: string, document: string)
    ensures var events := [StartBuild(name), ReadSettings, Drive(true), Recheck,
                           ApplyBegin(Settings(Policy.Policy(document), [])), WalkEnd, Store];
            && Run(UNARMED, events).Some?
            && Stale(Run(UNARMED, events).value.settings, Run(UNARMED, events).value.entries, name)
            && Run(UNARMED, events).value.walk.Resting?
  {
    var pushed := Settings(Policy.Policy(document), []);
    var events := [StartBuild(name), ReadSettings, Drive(true), Recheck, ApplyBegin(pushed), WalkEnd, Store];
    var m1 := UNARMED.(builder := Missed(name));
    var m2 := m1.(builder := Decided(name, false, Zero, 0));
    var m3 := m2.(nextId := 1, builder := Ready(name, false, Zero, 0, Noop(0)));
    var m4 := m3.(builder := Checked(name, Zero, Noop(0)));
    var m5 := m4.(settings := pushed, applied := true, epoch := 1, walk := Sweeping(map[], {}));
    var m6 := m5.(walk := Resting);
    var m7 := m6.(entries := map[name := Entry(Noop(0), Zero)], builder := Nobody);
    assert Next(UNARMED, StartBuild(name)) == Some(m1);
    assert Next(m1, ReadSettings) == Some(m2);
    assert Next(m2, Drive(true)) == Some(m3);
    assert Next(m3, Recheck) == Some(m4);
    assert m4.entries.Keys == {};
    assert Next(m4, ApplyBegin(pushed)) == Some(m5);
    assert Next(m5, WalkEnd) == Some(m6);
    assert m6.entries[name := Entry(Noop(0), Zero)] == m7.entries;
    assert Next(m6, Store) == Some(m7);
    hide Next;
    Chain(UNARMED, events, [UNARMED, m1, m2, m3, m4, m5, m6, m7]);
  }

  lemma {:induction false} Chain(m: Manager, events: seq<Event>, states: seq<Manager>)
    requires |states| == |events| + 1 && states[0] == m
    requires forall i :: 0 <= i < |events| ==> Next(states[i], events[i]) == Some(states[i + 1])
    ensures Run(m, events) == Some(states[|events|])
  {
    hide Next;
    if events != [] {
      Chain(m, events[..|events| - 1], states[..|events|]);
    }
  }
}
