// Lease generations of the in-process locker (cloud/lock/memory.go) as a state machine.
//
// Every critical section of the locker's mutex is one step, and Unlock takes two: it
// releases the key first and closes the handle's Lost channel afterwards.
module LeaseProtocol {
  import opened Options

  const DEFAULT_TTL := 30_000_000_000
  const DEFAULT_RETRY := 100_000_000

  datatype LockOptions = LockOptions(ttl: int, renewEvery: int, retryEvery: int, token: string)

  /** Fills what the caller left open; random is the token drawn when none was given. */
  function Normalize(o: LockOptions, random: string): (r: LockOptions)
    ensures r.ttl == if o.ttl > 0 then o.ttl else 30_000_000_000
    ensures r.retryEvery == if o.retryEvery > 0 then o.retryEvery else 100_000_000
    ensures r.renewEvery < 0 <==> o.renewEvery < 0
    ensures o.renewEvery != 0 ==> r.renewEvery == o.renewEvery
    ensures o.renewEvery == 0 ==> 0 <= r.ttl - 3 * r.renewEvery < 3
    ensures o.token != "" ==> r.token == o.token
    ensures o.token == "" ==> r.token == random
  {
    var ttl := if o.ttl <= 0 then DEFAULT_TTL else o.ttl;
    LockOptions(
      ttl,
      if o.renewEvery == 0 then ttl / 3 else o.renewEvery,
      if o.retryEvery <= 0 then DEFAULT_RETRY else o.retryEvery,
      if o.token == "" then random else o.token)
  }

  /** How far the handle's one effective Unlock has come. */
  datatype Phase = Held | Released | Ended

  datatype Generation = Generation(
    key: string,
    token: string,
    expireAt: int,
    ttl: int,
    renewEvery: int,
    lost: bool,          // the Lost channel is closed
    renewStopped: bool,
    phase: Phase)

  /** All generations ever handed out, in order, and the current one of each held key. */
  datatype World = World(gens: seq<Generation>, locks: map<string, nat>, stopped: bool)

  const NEW_LOCKER := World([], map[], false)

  datatype Event =
    | Take(key: string, options: LockOptions, now: int, stamp: int)
    | Renew(gen: nat, now: int)
    | Release(gen: nat)
    | SignalLost(gen: nat)
    | Shutdown

  datatype UnlockResult = Nothing | NotHeld

  predicate Indexed(w: World) {
    forall key :: key in w.locks ==> w.locks[key] < |w.gens|
  }

  predicate Contended(w: World, key: string, now: int)
    requires Indexed(w)
  {
    key in w.locks && now < w.gens[w.locks[key]].expireAt
  }

  function Drop(w: World, key: string): World
    requires Indexed(w) && key in w.locks
  {
    var g := w.locks[key];
    w.(locks := w.locks - {key}, gens := w.gens[g := w.gens[g].(renewStopped := true, lost := true)])
  }

  function Granted(w: World, key: string, o: LockOptions, stamp: int): World {
    World(w.gens + [Generation(key, o.token, stamp + o.ttl, o.ttl, o.renewEvery, false, false, Held)],
          w.locks[key := |w.gens|], w.stopped)
  }

  /** One attempt: refused while the lease runs, else the expired generation is reclaimed. */
  function Taken(w: World, key: string, o: LockOptions, now: int, stamp: int): World
    requires Indexed(w)
  {
    if Contended(w, key, now) then w
    else Granted(if key in w.locks then Drop(w, key) else w, key, o, stamp)
  }

  predicate IsCurrent(w: World, g: nat)
    requires g < |w.gens|
  {
    var key := w.gens[g].key;
    key in w.locks && w.locks[key] == g
  }

  function Renewed(w: World, g: nat, now: int): World
    requires g < |w.gens|
  {
    if IsCurrent(w, g) then w.(gens := w.gens[g := w.gens[g].(expireAt := now + w.gens[g].ttl)]) else w
  }

  /** The locker's half of Unlock: it compares tokens, not generations. */
  function UnlockAnswer(w: World, key: string, token: string): UnlockResult
    requires Indexed(w)
  {
    if key in w.locks && w.gens[w.locks[key]].token != token then NotHeld else Nothing
  }

  function Unlocked(w: World, key: string, token: string): World
    requires Indexed(w)
  {
    if key in w.locks && w.gens[w.locks[key]].token == token then
      var g := w.locks[key];
      w.(locks := w.locks - {key}, gens := w.gens[g := w.gens[g].(renewStopped := true)])
    else w
  }

  function InPhase(w: World, g: nat, phase: Phase): World
    requires g < |w.gens|
  {
    w.(gens := w.gens[g := w.gens[g].(phase := phase)])
  }

  function Finished(w: World, g: nat): World
    requires g < |w.gens|
  {
    w.(gens := w.gens[g := w.gens[g].(phase := Ended, lost := true)])
  }

  function Next(w: World, e: Event): Option<World>
    requires Indexed(w)
  {
    match e
    case Take(key, o, now, stamp) => Some(Taken(w, key, o, now, stamp))
    case Renew(g, now) =>
      if g < |w.gens| && w.gens[g].renewEvery > 0 then Some(Renewed(w, g, now)) else None
    case Release(g) =>
      if g < |w.gens| && w.gens[g].phase == Held
      then Some(Unlocked(InPhase(w, g, Released), w.gens[g].key, w.gens[g].token)) else None
    case SignalLost(g) =>
      if g < |w.gens| && w.gens[g].phase == Released then Some(Finished(w, g)) else None
    case Shutdown => Some(w.(stopped := true))
  }

  /** Which steps there are: an attempt always, a tick of a renewed lease, and one Unlock per handle. */
  lemma StepsIff(w: World, e: Event)
    requires Indexed(w)
    ensures Next(w, e).Some? <==>
              match e
              case Take(_, _, _, _) => true
              case Renew(g, _) => g < |w.gens| && w.gens[g].renewEvery > 0
              case Release(g) => g < |w.gens| && w.gens[g].phase == Held
              case SignalLost(g) => g < |w.gens| && w.gens[g].phase == Released
              case Shutdown => true
  {
  }

  // ---- What every step keeps ----------------------------------------------

  /** The handle has not called Unlock and its Lost channel is open. */
  predicate Live(w: World, g: nat)
    requires g < |w.gens|
  {
    w.gens[g].phase == Held && !w.gens[g].lost
  }

  ghost predicate FreshTokens(w: World) {
    forall i, j :: 0 <= i < j < |w.gens| && w.gens[i].key == w.gens[j].key ==> w.gens[i].token != w.gens[j].token
  }

  /** The locker's entry for a key is a generation of that key, and so is nothing else. */
  ghost predicate Sound(w: World) {
    && Indexed(w)
    && (forall key :: key in w.locks ==> w.gens[w.locks[key]].key == key)
  }

  /** A handle is live exactly if its generation is the key's entry. */
  ghost predicate Exclusive(w: World) {
    Sound(w) && forall g :: 0 <= g < |w.gens| ==> (Live(w, g) <==> IsCurrent(w, g))
  }

  lemma DropKeepsExclusive(w: World, key: string)
    requires Exclusive(w) && key in w.locks
    ensures Exclusive(Drop(w, key))
  {
    var w' := Drop(w, key);
    forall g | 0 <= g < |w'.gens|
      ensures Live(w', g) <==> IsCurrent(w', g)
    {
      assert Live(w, g) <==> IsCurrent(w, g);
    }
  }

  lemma GrantKeepsExclusive(w: World, key: string, o: LockOptions, stamp: int)
    requires Exclusive(w) && key !in w.locks
    ensures Exclusive(Granted(w, key, o, stamp))
  {
    var w' := Granted(w, key, o, stamp);
    forall g | 0 <= g < |w'.gens|
      ensures Live(w', g) <==> IsCurrent(w', g)
    {
      if g < |w.gens| {
        assert Live(w, g) <==> IsCurrent(w, g);
      }
    }
  }

  /** Reclaiming an expired lease closes the old handle's Lost before the new one is handed out. */
  lemma TakeKeepsExclusive(w: World, e: Event)
    requires Exclusive(w) && e.Take? && Next(w, e).Some?
    ensures Exclusive(Next(w, e).value)
  {
    assert Indexed(w);
    hide Exclusive, Granted, Drop;
    var freed := if e.key in w.locks then Drop(w, e.key) else w;
    if !Contended(w, e.key, e.now) {
      if e.key in w.locks {
        DropKeepsExclusive(w, e.key);
        DropFrees(w, e.key);
      }
      GrantKeepsExclusive(freed, e.key, e.options, e.stamp);
    }
  }

  lemma DropFrees(w: World, key: string)
    requires Indexed(w) && key in w.locks
    ensures key !in Drop(w, key).locks
  {
  }

  lemma RenewKeepsExclusive(w: World, e: Event)
    requires Exclusive(w) && (e.Renew? || e.SignalLost? || e.Shutdown?) && Next(w, e).Some?
    ensures Exclusive(Next(w, e).value)
  {
    var w' := Next(w, e).value;
    assert w'.locks == w.locks;
    assert forall g :: 0 <= g < |w.gens| ==> w'.gens[g].key == w.gens[g].key && Live(w', g) == Live(w, g);
  }

  /** A live handle's own Unlock frees the key; with fresh tokens nobody else's does. */
  lemma ReleaseKeepsExclusive(w: World, e: Event)
    requires Exclusive(w) && FreshTokens(w) && e.Release? && Next(w, e).Some?
    ensures Exclusive(Next(w, e).value)
  {
    var w' := Next(w, e).value;
    var key := w.gens[e.gen].key;
    if key in w.locks {
      var c := w.locks[key];
      assert IsCurrent(w, c);
      if c != e.gen {
        assert w.gens[c].token != w.gens[e.gen].token;
      }
    }
    forall g | 0 <= g < |w'.gens|
      ensures Live(w', g) <==> IsCurrent(w', g)
    {
      assert Live(w, g) <==> IsCurrent(w, g);
    }
  }

  lemma NextKeepsExclusive(w: World, e: Event)
    requires Exclusive(w) && FreshTokens(w) && Next(w, e).Some?
    ensures Exclusive(Next(w, e).value)
  {
    hide Exclusive, FreshTokens, Next;
    match e
    case Take(_, _, _, _) => TakeKeepsExclusive(w, e);
    case Release(_) => ReleaseKeepsExclusive(w, e);
    case _ => RenewKeepsExclusive(w, e);
  }

  /** Generations keep their key and token, so fresh tokens at the end were fresh all along. */
  lemma TokensOnlyGrow(w: World, e: Event)
    requires Indexed(w) && Next(w, e).Some? && FreshTokens(Next(w, e).value)
    ensures FreshTokens(w)
  {
    var w' := Next(w, e).value;
    assert |w.gens| <= |w'.gens|;
    assert forall i :: 0 <= i < |w.gens| ==> w'.gens[i].key == w.gens[i].key && w'.gens[i].token == w.gens[i].token;
  }

  ghost function Run(w: World, events: seq<Event>): Option<World>
    requires Indexed(w)
  {
    if events == [] then Some(w)
    else
      var before := Run(w, events[..|events| - 1]);
      if before.None? || !Indexed(before.value) then None
      else Next(before.value, events[|events| - 1])
  }

  lemma {:induction false} RunKeepsExclusive(events: seq<Event>)
    requires Run(NEW_LOCKER, events).Some? && FreshTokens(Run(NEW_LOCKER, events).value)
    ensures Exclusive(Run(NEW_LOCKER, events).value)
  {
    if events != [] {
      hide Exclusive, FreshTokens, Next;
      var before := Run(NEW_LOCKER, events[..|events| - 1]).value;
      TokensOnlyGrow(before, events[|events| - 1]);
      RunKeepsExclusive(events[..|events| - 1]);
      NextKeepsExclusive(before, events[|events| - 1]);
    }
  }

  /**
   * Mutual exclusion. With fresh tokens, over every interleaving of attempts, expiry, renew
   * ticks and the two halves of Unlock, a key has at most one live handle, and that handle's
   * generation is the locker's entry for the key.
   */
  lemma MutualExclusion(events: seq<Event>, g: nat, h: nat)
    requires Run(NEW_LOCKER, events).Some? && FreshTokens(Run(NEW_LOCKER, events).value)
    requires var w := Run(NEW_LOCKER, events).value;
             g < |w.gens| && h < |w.gens| && w.gens[g].key == w.gens[h].key && Live(w, g) && Live(w, h)
    ensures g == h
    ensures var w := Run(NEW_LOCKER, events).value;
            w.gens[g].key in w.locks && w.locks[w.gens[g].key] == g
  {
    RunKeepsExclusive(events);
  }

  /** The attempt that handed generation g out. */
  ghost function GrantedBy(events: seq<Event>, g: nat): Event
    requires Run(NEW_LOCKER, events).Some? && g < |Run(NEW_LOCKER, events).value.gens|
    decreases |events|
  {
    var rest := events[..|events| - 1];
    if g < |Run(NEW_LOCKER, rest).value.gens| then GrantedBy(rest, g) else events[|events| - 1]
  }

  lemma GenerationsKeepOptions(w: World, e: Event)
    requires Indexed(w) && Next(w, e).Some?
    ensures var w' := Next(w, e).value;
            && |w.gens| <= |w'.gens| <= |w.gens| + 1
            && (forall g :: 0 <= g < |w.gens| ==>
                  && w'.gens[g].key == w.gens[g].key && w'.gens[g].token == w.gens[g].token
                  && w'.gens[g].ttl == w.gens[g].ttl && w'.gens[g].renewEvery == w.gens[g].renewEvery)
            && (|w'.gens| > |w.gens| ==>
                  var h := w'.gens[|w.gens|];
                  && e.Take? && h.key == e.key && h.token == e.options.token
                  && h.ttl == e.options.ttl && h.renewEvery == e.options.renewEvery)
  {
  }

  /** A generation has the key, token, lease and renewal of the attempt that handed it out, to the end. */
  lemma {:induction false} GenerationIsAsAsked(events: seq<Event>, g: nat)
    requires Run(NEW_LOCKER, events).Some? && g < |Run(NEW_LOCKER, events).value.gens|
    ensures var h, e := Run(NEW_LOCKER, events).value.gens[g], GrantedBy(events, g);
            && e.Take? && h.key == e.key && h.token == e.options.token
            && h.ttl == e.options.ttl && h.renewEvery == e.options.renewEvery
    decreases |events|
  {
    hide Next;
    var rest := events[..|events| - 1];
    var before := Run(NEW_LOCKER, rest).value;
    GenerationsKeepOptions(before, events[|events| - 1]);
    if g < |before.gens| {
      GenerationIsAsAsked(rest, g);
    }
  }

  /** A renewal loop is stopped exactly when its generation is no longer the entry of its key. */
  lemma {:induction false} RenewalStopsWithTheEntry(events: seq<Event>, g: nat)
    requires Run(NEW_LOCKER, events).Some? && g < |Run(NEW_LOCKER, events).value.gens|
    ensures var w := Run(NEW_LOCKER, events).value; w.gens[g].renewStopped <==> !IsCurrent(w, g)
  {
    EntriesAreRenewed(events);
  }

  ghost predicate Renewing(w: World) {
    Sound(w) && forall g :: 0 <= g < |w.gens| ==> (w.gens[g].renewStopped <==> !IsCurrent(w, g))
  }

  lemma {:induction false} EntriesAreRenewed(events: seq<Event>)
    requires Run(NEW_LOCKER, events).Some?
    ensures Renewing(Run(NEW_LOCKER, events).value)
  {
    if events != [] {
      hide Next, Renewing;
      EntriesAreRenewed(events[..|events| - 1]);
      NextKeepsRenewing(Run(NEW_LOCKER, events[..|events| - 1]).value, events[|events| - 1]);
    } else {
      assert Renewing(NEW_LOCKER);
    }
  }

  lemma {:induction false} NextKeepsRenewing(w: World, e: Event)
    requires Renewing(w) && Indexed(w) && Next(w, e).Some?
    ensures Renewing(Next(w, e).value)
  {
    if e.Take? {
      TakeKeepsRenewing(w, e);
    } else if e.Release? {
      ReleaseKeepsRenewing(w, e.gen);
    } else {
      var w' := Next(w, e).value;
      assert w'.locks == w.locks && |w'.gens| == |w.gens|;
      assert forall g :: 0 <= g < |w.gens| ==>
                w'.gens[g].key == w.gens[g].key && w'.gens[g].renewStopped == w.gens[g].renewStopped;
    }
  }

  lemma {:induction false} TakeKeepsRenewing(w: World, e: Event)
    requires Renewing(w) && e.Take? && Next(w, e).Some?
    ensures Renewing(Next(w, e).value)
  {
    var w' := Next(w, e).value;
    if !Contended(w, e.key, e.now) {
      var freed := if e.key in w.locks then Drop(w, e.key) else w;
      assert Renewing(freed) && e.key !in freed.locks by {
        assert forall g :: 0 <= g < |w.gens| ==> freed.gens[g].key == w.gens[g].key;
      }
      assert w' == Granted(freed, e.key, e.options, e.stamp);
      assert forall g :: 0 <= g < |freed.gens| ==> w'.gens[g] == freed.gens[g];
      hide Drop;
    }
  }

  lemma {:induction false} ReleaseKeepsRenewing(w: World, g: nat)
    requires Renewing(w) && Next(w, Release(g)).Some?
    ensures Renewing(Next(w, Release(g)).value)
  {
    var w' := Next(w, Release(g)).value;
    assert forall h :: 0 <= h < |w.gens| ==> w'.gens[h].key == w.gens[h].key;
  }

  /** Whether an attempt has found the lease of generation g expired and reclaimed it. */
  ghost predicate Reclaimed(events: seq<Event>, g: nat)
    requires Run(NEW_LOCKER, events).Some? && g < |Run(NEW_LOCKER, events).value.gens|
    decreases |events|
  {
    var rest, last := events[..|events| - 1], events[|events| - 1];
    var before := Run(NEW_LOCKER, rest).value;
    && g < |before.gens|
    && (|| Reclaimed(rest, g)
        || (last.Take? && last.key == before.gens[g].key && IsCurrent(before, g) && before.gens[g].expireAt <= last.now))
  }

  lemma {:induction false} HandleMoves(w: World, e: Event, g: nat)
    requires Sound(w) && Next(w, e).Some? && g < |Next(w, e).value.gens|
    ensures var after := Next(w, e).value.gens[g];
            if g >= |w.gens| then
              e.Take? && !after.lost && after.phase == Held && after.expireAt == e.stamp + after.ttl
            else
              var before := w.gens[g];
              && (after.lost <==>
                    || before.lost || e == SignalLost(g)
                    || (e.Take? && e.key == before.key && IsCurrent(w, g) && before.expireAt <= e.now))
              && after.phase == (if e == Release(g) then Released else if e == SignalLost(g) then Ended else before.phase)
              && (e == Release(g) ==> before.phase == Held) && (e == SignalLost(g) ==> before.phase == Released)
              && (before.renewEvery <= 0 ==> after.expireAt == before.expireAt)
  {
  }

  /** A handle is there before its Unlock. */
  lemma {:induction false} ReleasesAreOfHandles(events: seq<Event>, g: nat)
    requires Run(NEW_LOCKER, events).Some? && (Release(g) in events || SignalLost(g) in events)
    ensures g < |Run(NEW_LOCKER, events).value.gens|
  {
    if events != [] {
      var n := |events| - 1;
      var before := Run(NEW_LOCKER, events[..n]).value;
      GenerationsKeepOptions(before, events[n]);
      if Release(g) in events[..n] || SignalLost(g) in events[..n] {
        ReleasesAreOfHandles(events[..n], g);
      }
    }
  }

  /**
   * For every run a handle tells its history: Lost is closed exactly if its Unlock closed it or
   * its lease was reclaimed, its phase is how far its own Unlock has come, and without a renewal
   * interval its lease runs from when it was handed out.
   */
  lemma {:induction false} HandleTellsItsHistory(events: seq<Event>, g: nat)
    requires Run(NEW_LOCKER, events).Some? && g < |Run(NEW_LOCKER, events).value.gens|
    ensures var h := Run(NEW_LOCKER, events).value.gens[g];
            && (h.lost <==> SignalLost(g) in events || Reclaimed(events, g))
            && h.phase == (if SignalLost(g) in events then Ended else if Release(g) in events then Released else Held)
            && (h.renewEvery <= 0 ==> GrantedBy(events, g).Take? && h.expireAt == GrantedBy(events, g).stamp + h.ttl)
    decreases |events|
  {
    hide Next, Sound;
    var n := |events| - 1;
    var rest, e := events[..n], events[n];
    var before := Run(NEW_LOCKER, rest).value;
    EntriesAreRenewed(rest);
    HandleMoves(before, e, g);
    GenerationsKeepOptions(before, e);
    assert events == rest + [e];
    if g < |before.gens| {
      HandleTellsItsHistory(rest, g);
    } else if Release(g) in rest || SignalLost(g) in rest {
      ReleasesAreOfHandles(rest, g);
    }
  }

  lemma {:induction false} StoppedIffClosed(events: seq<Event>)
    requires Run(NEW_LOCKER, events).Some?
    ensures Run(NEW_LOCKER, events).value.stopped <==> Shutdown in events
  {
    if events != [] {
      StoppedIffClosed(events[..|events| - 1]);
      assert events == events[..|events| - 1] + [events[|events| - 1]];
    }
  }

  // ---- Where fresh tokens come from ---------------------------------------

  predicate TakesToken(e: Event, key: string, token: string) {
    e.Take? && e.key == key && e.options.token == token
  }

  /** No two attempts on a key carry one token. */
  ghost predicate TakesDiffer(events: seq<Event>) {
    forall i, j :: 0 <= i < j < |events| && events[i].Take? && events[j].Take? && events[i].key == events[j].key ==>
                     events[i].options.token != events[j].options.token
  }

  lemma GenerationsKeepTokens(w: World, e: Event)
    requires Indexed(w) && Next(w, e).Some?
    ensures var w' := Next(w, e).value;
            && |w.gens| <= |w'.gens|
            && (forall g :: 0 <= g < |w.gens| ==> w'.gens[g].key == w.gens[g].key && w'.gens[g].token == w.gens[g].token)
            && (|w'.gens| > |w.gens| ==>
                  |w'.gens| == |w.gens| + 1 && TakesToken(e, w'.gens[|w.gens|].key, w'.gens[|w.gens|].token))
  {
  }

  /** If no two attempts on a key carry one token, no two generations do. */
  lemma {:induction false} FreshIfTakesDiffer(events: seq<Event>)
    requires Run(NEW_LOCKER, events).Some? && TakesDiffer(events)
    ensures var w := Run(NEW_LOCKER, events).value;
            && FreshTokens(w)
            && forall g :: 0 <= g < |w.gens| ==>
                 exists i :: 0 <= i < |events| && TakesToken(events[i], w.gens[g].key, w.gens[g].token)
  {
    hide Next;
    if events != [] {
      var n := |events| - 1;
      var rest, e := events[..n], events[n];
      var before, after := Run(NEW_LOCKER, rest).value, Run(NEW_LOCKER, events).value;
      FreshIfTakesDiffer(rest);
      GenerationsKeepTokens(before, e);
      forall g | 0 <= g < |after.gens|
        ensures exists i :: 0 <= i < |events| && TakesToken(events[i], after.gens[g].key, after.gens[g].token)
        ensures g < |before.gens| ==>
                  exists i :: 0 <= i < n && TakesToken(events[i], after.gens[g].key, after.gens[g].token)
      {
        if g < |before.gens| {
          var i :| 0 <= i < |rest| && TakesToken(rest[i], before.gens[g].key, before.gens[g].token);
          assert events[i] == rest[i];
        } else {
          assert TakesToken(events[n], after.gens[g].key, after.gens[g].token);
        }
      }
    }
  }

  /**
   * Attempts without a token of the caller's own: asked[i] is what event i was called with and
   * draws[i] the token drawn for it. No two draws are equal.
   */
  ghost predicate Drawn(events: seq<Event>, asked: seq<LockOptions>, draws: seq<string>) {
    && |asked| == |draws| == |events|
    && (forall i :: 0 <= i < |events| && events[i].Take? ==>
          asked[i].token == "" && events[i].options == Normalize(asked[i], draws[i]))
    && (forall i, j :: 0 <= i < j < |events| && events[i].Take? && events[j].Take? ==> draws[i] != draws[j])
  }

  /**
   * So nobody has to assume fresh tokens: in every run in which the locker draws them, and
   * draws none twice, a key has at most one live handle, and it is the entry of the key.
   */
  lemma DrawnTokensExclude(events: seq<Event>, asked: seq<LockOptions>, draws: seq<string>, g: nat, h: nat)
    requires Run(NEW_LOCKER, events).Some? && Drawn(events, asked, draws)
    ensures var w := Run(NEW_LOCKER, events).value;
            && FreshTokens(w)
            && (g < |w.gens| && h < |w.gens| && w.gens[g].key == w.gens[h].key && Live(w, g) && Live(w, h) ==>
                  g == h && w.gens[g].key in w.locks && w.locks[w.gens[g].key] == g)
  {
    FreshIfTakesDiffer(events);
    RunKeepsExclusive(events);
    hide Run;
  }

  /** No key is lost: an entry always belongs to a handle that can still release it. */
  lemma EveryEntryHasALiveHandle(events: seq<Event>, key: string)
    requires Run(NEW_LOCKER, events).Some? && FreshTokens(Run(NEW_LOCKER, events).value)
    requires key in Run(NEW_LOCKER, events).value.locks
    ensures var w := Run(NEW_LOCKER, events).value;
            Indexed(w) && Live(w, w.locks[key]) && w.gens[w.locks[key]].key == key
  {
    RunKeepsExclusive(events);
    var w := Run(NEW_LOCKER, events).value;
    assert IsCurrent(w, w.locks[key]);
  }

  /** A live handle stops being live only through its own Unlock, or by expiring and being reclaimed. */
  lemma LiveEndsOnlyBy(w: World, e: Event, g: nat)
    requires Exclusive(w) && FreshTokens(w) && Next(w, e).Some? && g < |w.gens| && Live(w, g)
    ensures |w.gens| <= |Next(w, e).value.gens|
    ensures !Live(Next(w, e).value, g) <==>
              || e == Release(g)
              || (e.Take? && e.key == w.gens[g].key && w.gens[g].expireAt <= e.now)
  {
    if e.Release? && e.gen != g {
      assert IsCurrent(w, g);
    }
  }

  /**
   * A superseded or released handle can do nothing to the generation that follows it: its
   * renew tick changes nothing at all, and its Unlock changes only the handle itself, saying
   * ErrNotHeld if somebody else has the key and nothing if nobody has.
   */
  lemma StaleHandleIsHarmless(w: World, g: nat, now: int)
    requires Exclusive(w) && FreshTokens(w) && g < |w.gens| && !IsCurrent(w, g)
    ensures Renewed(w, g, now) == w
    ensures Next(w, Release(g)).Some? ==> Next(w, Release(g)).value == InPhase(w, g, Released)
    ensures Next(w, SignalLost(g)).Some? ==>
              var w' := Next(w, SignalLost(g)).value;
              && w'.locks == w.locks && |w'.gens| == |w.gens|
              && forall h :: 0 <= h < |w.gens| && h != g ==> w'.gens[h] == w.gens[h]
    ensures UnlockAnswer(w, w.gens[g].key, w.gens[g].token) == if w.gens[g].key in w.locks then NotHeld else Nothing
  {
    var key := w.gens[g].key;
    if key in w.locks {
      assert w.gens[w.locks[key]].token != w.gens[g].token;
    }
  }

  /** The handle that has the key releases it, without error, and only it. */
  lemma HolderReleases(w: World, g: nat)
    requires Exclusive(w) && g < |w.gens| && Live(w, g)
    ensures UnlockAnswer(w, w.gens[g].key, w.gens[g].token) == Nothing
    ensures Next(w, Release(g)).Some? && Next(w, Release(g)).value.locks == w.locks - {w.gens[g].key}
  {
  }

  /**
   * What fresh tokens are for. Unlock removes a newer generation exactly when that
   * generation reuses its token.
   */
  lemma StaleUnlockRemovesIff(w: World, g: nat)
    requires Exclusive(w) && g < |w.gens| && w.gens[g].phase == Held && !IsCurrent(w, g) && w.gens[g].key in w.locks
    ensures (w.gens[g].key !in Next(w, Release(g)).value.locks) <==>
              w.gens[w.locks[w.gens[g].key]].token == w.gens[g].token
  {
  }

  /** Two live handles on one key after a token has been used twice. */
  lemma ReusedTokenBreaksExclusion(key: string, token: string, other: string)
    ensures var o := LockOptions(1, -1, 1, token);
            var events := [Take(key, o, 0, 0), Take(key, o, 1, 1), Release(0), Take(key, o.(token := other), 1, 1)];
            && Run(NEW_LOCKER, events).Some?
            && |Run(NEW_LOCKER, events).value.gens| == 3
            && Live(Run(NEW_LOCKER, events).value, 1) && Live(Run(NEW_LOCKER, events).value, 2)
  {
    var o := LockOptions(1, -1, 1, token);
    var o' := o.(token := other);
    var events := [Take(key, o, 0, 0), Take(key, o, 1, 1), Release(0), Take(key, o', 1, 1)];
    var fst := Generation(key, token, 1, 1, -1, false, false, Held);
    var snd := Generation(key, token, 2, 1, -1, false, false, Held);
    var gone := fst.(lost := true, renewStopped := true);
    var w1 := World([fst], map[key := 0], false);
    var w2 := World([gone, snd], map[key := 1], false);
    var w3 := World([gone.(phase := Released), snd.(renewStopped := true)], map[], false);
    var w4 := World(w3.gens + [snd.(token := other)], map[key := 2], false);
    assert NEW_LOCKER.locks[key := 0] == w1.locks;
    assert Taken(NEW_LOCKER, key, o, 0, 0) == w1;
    assert w1.locks - {key} == map[] && w1.gens[0 := gone] == [gone];
    assert Drop(w1, key) == World([gone], map[], false);
    assert Taken(w1, key, o, 1, 1) == w2;
    assert Next(w1, Take(key, o, 1, 1)) == Some(w2);
    assert w2.locks - {key} == map[];
    assert Unlocked(InPhase(w2, 0, Released), key, token) == w3;
    assert Next(w2, Release(0)) == Some(w3);
    assert Next(w3, Take(key, o', 1, 1)) == Some(w4);
    Chain(events, [NEW_LOCKER, w1, w2, w3, w4]);
  }

  lemma {:induction false} Chain(events: seq<Event>, states: seq<World>)
    requires |states| == |events| + 1 && states[0] == NEW_LOCKER
    requires forall i :: 0 <= i <= |events| ==> Indexed(states[i])
    requires forall i :: 0 <= i < |events| ==> Next(states[i], events[i]) == Some(states[i + 1])
    ensures Run(NEW_LOCKER, events) == Some(states[|events|])
  {
    hide Next, Indexed;
    if events != [] {
      Chain(events[..|events| - 1], states[..|events|]);
    }
  }

  // ---- How long a lease runs ----------------------------------------------

  /** When generation g was handed out or its renew tick last found it current. */
  ghost function LastRefresh(events: seq<Event>, g: nat): int
    requires Run(NEW_LOCKER, events).Some? && g < |Run(NEW_LOCKER, events).value.gens|
    decreases |events|
  {
    var rest, last := events[..|events| - 1], events[|events| - 1];
    var before := Run(NEW_LOCKER, rest).value;
    if g >= |before.gens| then (assert last.Take?; last.stamp)
    else if last.Renew? && last.gen == g && IsCurrent(before, g) then last.now
    else LastRefresh(rest, g)
  }

  lemma DeadlineMoves(w: World, e: Event, g: nat)
    requires Indexed(w) && Next(w, e).Some? && g < |Next(w, e).value.gens|
    ensures var after := Next(w, e).value.gens[g];
            if g >= |w.gens| then e.Take? && after.expireAt == e.stamp + after.ttl && after.ttl == e.options.ttl
            else after.ttl == w.gens[g].ttl
                 && after.expireAt ==
                      if e.Renew? && e.gen == g && IsCurrent(w, g) then e.now + after.ttl else w.gens[g].expireAt
  {
  }

  lemma {:induction false} LeaseRunsFromLastRefresh(events: seq<Event>, g: nat)
    requires Run(NEW_LOCKER, events).Some? && g < |Run(NEW_LOCKER, events).value.gens|
    ensures var h := Run(NEW_LOCKER, events).value.gens[g]; h.expireAt == LastRefresh(events, g) + h.ttl
    decreases |events|
  {
    hide Next;
    var rest := events[..|events| - 1];
    var before := Run(NEW_LOCKER, rest).value;
    DeadlineMoves(before, events[|events| - 1], g);
    if g < |before.gens| {
      LeaseRunsFromLastRefresh(rest, g);
    }
  }

  /**
   * After any run an attempt is refused if and only if the key is held and less than the
   * holder's lease has passed since its last refresh.
   */
  lemma {:induction false} RefusedIffLeaseRuns(events: seq<Event>, key: string, now: int)
    requires Run(NEW_LOCKER, events).Some? && Indexed(Run(NEW_LOCKER, events).value)
    ensures var w := Run(NEW_LOCKER, events).value;
            Contended(w, key, now) <==>
              key in w.locks && now < LastRefresh(events, w.locks[key]) + w.gens[w.locks[key]].ttl
  {
    var w := Run(NEW_LOCKER, events).value;
    if key in w.locks {
      LeaseRunsFromLastRefresh(events, w.locks[key]);
    }
    hide LastRefresh, Run;
  }
}
