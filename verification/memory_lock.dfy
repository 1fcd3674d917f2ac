// The in-process locker (cloud/lock/memory.go): objects and critical sections.
//
// Each method is one critical section, or Unlock's two, and is proved against the step of
// LeaseProtocol it performs.
module MemoryLocks {
  import opened Options
  import opened LeaseProtocol

  lemma SameWorld(v: World, w: World)
    requires |v.gens| == |w.gens| && forall i :: 0 <= i < |v.gens| ==> v.gens[i] == w.gens[i]
    requires v.locks.Keys == w.locks.Keys && forall key :: key in v.locks ==> v.locks[key] == w.locks[key]
    requires v.stopped == w.stopped
    ensures v == w
  {
    assert v.gens == w.gens && v.locks == w.locks;
  }

  lemma UnlockIsTwoSteps(w: World, g: nat)
    requires Sound(w) && g < |w.gens| && w.gens[g].phase == Held
    ensures var h, v := w.gens[g], InPhase(w, g, Released);
            && Indexed(v) && UnlockAnswer(v, h.key, h.token) == UnlockAnswer(w, h.key, h.token)
            && Next(w, Release(g)) == Some(Unlocked(v, h.key, h.token))
            && Indexed(Unlocked(v, h.key, h.token)) && g < |Unlocked(v, h.key, h.token).gens|
            && Next(Unlocked(v, h.key, h.token), SignalLost(g)) == Some(Finished(Unlocked(v, h.key, h.token), g))
  {
  }

  /** One generation of a key's lease. It is never reused: a reclaim makes a new one. */
  class MemoryHold {
    ghost const id: nat
    const token: string
    const ttl: int
    const renewEvery: int
    var expireAt: int
    var lost: bool
    var renewStopped: bool

    constructor (ghost id: nat, o: LockOptions, stamp: int)
      ensures this.id == id && token == o.token && ttl == o.ttl && renewEvery == o.renewEvery
      ensures expireAt == stamp + o.ttl && !lost && !renewStopped
    {
      this.id := id;
      token, ttl, renewEvery := o.token, o.ttl, o.renewEvery;
      expireAt, lost, renewStopped := stamp + o.ttl, false, false;
    }
  }

  /** A handle given to a caller. */
  class MemoryLock {
    const locker: MemoryLocker
    const key: string
    const hold: MemoryHold
    var used: bool          // Unlock has run once
    ghost var phase: Phase

    constructor (locker: MemoryLocker, key: string, hold: MemoryHold)
      ensures this.locker == locker && this.key == key && this.hold == hold && !used && phase == Held
    {
      this.locker, this.key, this.hold := locker, key, hold;
      used, phase := false, Held;
    }

    ghost function View(): Generation
      reads this, hold
    {
      Generation(key, hold.token, hold.expireAt, hold.ttl, hold.renewEvery, hold.lost, hold.renewStopped, phase)
    }

    /** Passes the guard that lets Unlock run once. */
    method Use()
      requires locker.Valid() && hold.id < |locker.handles| && locker.handles[hold.id] == this && phase == Held
      modifies this`used, this`phase
      ensures locker.Valid() && used && phase == Released
      ensures locker.Abs() == InPhase(old(locker.Abs()), hold.id, Released)
    {
      hide locker.Abs, Sound;
      ghost var w := locker.Abs();
      used, phase := true, Released;
      SameWorld(locker.Abs(), InPhase(w, hold.id, Released));
    }

    /** Closes the Lost channel; closing it again is no effect. */
    method MarkLost()
      requires locker.Valid() && hold.id < |locker.handles| && locker.handles[hold.id] == this && phase == Released
      modifies this`phase, hold`lost
      ensures locker.Valid() && phase == Ended
      ensures locker.Abs() == Finished(old(locker.Abs()), hold.id)
    {
      hide locker.Abs, Sound;
      ghost var w := locker.Abs();
      hold.lost := true;
      phase := Ended;
      SameWorld(locker.Abs(), Finished(w, hold.id));
    }

    /**
     * Only the first call releases; it then closes Lost. Every later call does nothing and
     * answers no error, whatever the first one answered.
     */
    method Unlock() returns (err: UnlockResult)
      requires locker.Valid() && hold.id < |locker.handles| && locker.handles[hold.id] == this
      requires phase != Released
      modifies locker.Footprint()
      ensures locker.Valid() && locker.handles == old(locker.handles) && used && phase == Ended
      ensures old(used) ==> err == Nothing && locker.Abs() == old(locker.Abs())
      ensures !old(used) ==>
                var w := old(locker.Abs());
                && err == UnlockAnswer(w, key, hold.token)
                && Next(w, Release(hold.id)).Some?
                && Indexed(Next(w, Release(hold.id)).value)
                && Next(Next(w, Release(hold.id)).value, SignalLost(hold.id)) == Some(locker.Abs())
    {
      err := Nothing;
      if !used {
        UnlockIsTwoSteps(locker.Abs(), hold.id);
        hide locker.Abs, locker.Valid, Next, Indexed, Sound, InPhase, Finished, Unlocked, UnlockAnswer;
        Use();
        err := locker.UnlockKey(key, hold.token);
        MarkLost();
      }
    }
  }

  class MemoryLocker {
    var locks: map<string, MemoryHold>
    var stopped: bool
    ghost var handles: seq<MemoryLock>   // every handle given out, in order

    ghost function Footprint(): set<object>
      reads this
    {
      {this} + (set h: MemoryLock | h in handles) + (set h: MemoryLock | h in handles :: h.hold)
    }

    ghost predicate Valid()
      reads Footprint()
    {
      && (forall i :: 0 <= i < |handles| ==>
            && handles[i].hold.id == i && handles[i].locker == this
            && (handles[i].used <==> handles[i].phase != Held))
      && (forall key :: key in locks ==>
            && locks[key].id < |handles| && handles[locks[key].id].hold == locks[key]
            && handles[locks[key].id].key == key)
    }

    ghost function Abs(): (w: World)
      requires Valid()
      reads Footprint()
      ensures |w.gens| == |handles|
      ensures forall i :: 0 <= i < |handles| ==> w.gens[i] == handles[i].View()
      ensures w.locks.Keys == locks.Keys
      ensures forall key :: key in locks ==> w.locks[key] == locks[key].id
      ensures w.stopped == stopped && Sound(w)
    {
      World(seq(|handles|, i requires 0 <= i < |handles| reads Footprint() => handles[i].View()),
            map key | key in locks :: locks[key].id,
            stopped)
    }

    constructor ()
      ensures Valid() && Abs() == NEW_LOCKER && fresh(Footprint())
    {
      locks, stopped, handles := map[], false, [];
    }

    /** Takes the key out of the table and ends its generation. */
    method DropLocked(key: string)
      requires Valid() && key in locks
      modifies this`locks, locks[key]
      ensures Valid() && handles == old(handles)
      ensures locks == old(locks) - {key}
      ensures Abs() == Drop(old(Abs()), key)
    {
      hide Abs, Sound;
      ghost var w := Abs();
      var h := locks[key];
      locks := locks - {key};
      h.renewStopped := true;
      h.lost := true;
      SameWorld(Abs(), Drop(w, key));
    }

    /** Puts a new generation of the key in the table. */
    method Grant(key: string, o: LockOptions, stamp: int) returns (lock: MemoryLock)
      requires Valid()
      modifies this
      ensures Valid() && fresh(lock) && fresh(lock.hold)
      ensures handles == old(handles) + [lock] && lock.hold.id == |old(handles)| && lock.key == key
      ensures Abs() == Granted(old(Abs()), key, o, stamp)
    {
      hide Abs, Sound;
      ghost var w := Abs();
      var h := new MemoryHold(|handles|, o, stamp);
      lock := new MemoryLock(this, key, h);
      locks := locks[key := h];
      handles := handles + [lock];
      SameWorld(Abs(), Granted(w, key, o, stamp));
    }

    /**
     * One attempt. It fails while the current lease has not expired at the first reading of
     * the clock; otherwise it ends the expired generation and starts a new one.
     */
    method TryAcquire(key: string, opts: LockOptions, random: string, now: int, stamp: int) returns (lock: MemoryLock?)
      requires Valid()
      modifies Footprint()
      ensures Valid()
      ensures Abs() == Taken(old(Abs()), key, Normalize(opts, random), now, stamp)
      ensures lock == null <==> Contended(old(Abs()), key, now)
      ensures lock == null ==> handles == old(handles)
      ensures lock != null ==> fresh(lock) && fresh(lock.hold) && handles == old(handles) + [lock] && lock.key == key
    {
      hide Abs, Sound, Drop, Granted;
      var o := Normalize(opts, random);
      if key in locks {
        var h := locks[key];
        if now < h.expireAt {
          return null;
        }
        DropLocked(key);
      }
      lock := Grant(key, o, stamp);
    }

    /**
     * Polls until an attempt succeeds or the context ends: polls[k] holds the token drawn for
     * attempt k and its two clock readings, and the context ends after the last one.
     */
    method Acquire(key: string, opts: LockOptions, polls: seq<(string, int, int)>) returns (lock: MemoryLock?)
      requires Valid()
      modifies Footprint()
      ensures Valid()
      ensures lock == null ==>
                Abs() == old(Abs()) && forall k :: 0 <= k < |polls| ==> Contended(old(Abs()), key, polls[k].1)
      ensures lock != null ==> lock in handles && lock !in old(handles) && lock.key == key
      ensures lock != null ==>
                exists k :: 0 <= k < |polls| && !Contended(old(Abs()), key, polls[k].1)
                  && (forall j :: 0 <= j < k ==> Contended(old(Abs()), key, polls[j].1))
                  && Abs() == Taken(old(Abs()), key, Normalize(opts, polls[k].0), polls[k].1, polls[k].2)
    {
      hide Abs, Valid, Normalize;
      ghost var w := Abs();
      for k := 0 to |polls|
        invariant Valid() && handles == old(handles) && Abs() == w && Indexed(w)
        invariant forall j :: 0 <= j < k ==> Contended(w, key, polls[j].1)
      {
        lock := TryAcquire(key, opts, polls[k].0, polls[k].1, polls[k].2);
        if lock != null {
          return;
        }
      }
      lock := null;
    }

    /** Extends the lease of a key's current generation. */
    method Extend(key: string, h: MemoryHold, now: int)
      requires Valid() && key in locks && locks[key] == h && h.id < |handles| && handles[h.id].hold == h
      requires handles[h.id].key == key
      modifies h`expireAt
      ensures Valid() && handles == old(handles)
      ensures Abs() == Renewed(old(Abs()), h.id, now)
    {
      hide Abs, Sound;
      ghost var w := Abs();
      h.expireAt := now + h.ttl;
      SameWorld(Abs(), Renewed(w, h.id, now));
    }

    /**
     * One round of a generation's renew loop. The loop ends once the generation is superseded,
     * and may take any ready channel: its own stop, the locker's, or a tick.
     */
    method RenewTick(key: string, h: MemoryHold, ticked: bool, now: int) returns (again: bool)
      requires Valid() && h.id < |handles| && handles[h.id].hold == h && handles[h.id].key == key
      requires ticked || stopped || h.renewStopped
      modifies h`expireAt
      ensures Valid() && handles == old(handles)
      ensures Abs() == if ticked then Renewed(old(Abs()), h.id, now) else old(Abs())
      ensures again <==> ticked && IsCurrent(old(Abs()), h.id)
    {
      hide Abs, Sound;
      if !ticked {
        return false;
      }
      if key !in locks || locks[key] != h {
        return false;
      }
      Extend(key, h, now);
      again := true;
    }

    /** Frees the key if its current generation has the token. It does not close Lost. */
    method UnlockKey(key: string, token: string) returns (err: UnlockResult)
      requires Valid()
      modifies this`locks, (set h: MemoryLock | h in handles :: h.hold)`renewStopped
      ensures Valid() && handles == old(handles)
      ensures Abs() == Unlocked(old(Abs()), key, token)
      ensures err == UnlockAnswer(old(Abs()), key, token)
    {
      hide Abs, Sound;
      ghost var w := Abs();
      if key !in locks {
        return Nothing;
      }
      var h := locks[key];
      if h.token != token {
        return NotHeld;
      }
      locks := locks - {key};
      h.renewStopped := true;
      err := Nothing;
      SameWorld(Abs(), Unlocked(w, key, token));
    }

    method Close()
      requires Valid()
      modifies this`stopped
      ensures Valid() && handles == old(handles)
      ensures Next(old(Abs()), Shutdown) == Some(Abs())
    {
      hide Abs, Sound;
      ghost var w := Abs();
      stopped := true;
      SameWorld(Abs(), w.(stopped := true));
    }
  }
}
