// When the asynchronous logger's Stop can wait for ever (log/plugin_logger.go).
//
// Under drop-oldest an Append beside Stop can take the sentinel for the oldest event. Its
// object then goes to the event pool, and only an Append that gets the object back can make
// the worker end.
module AsyncStop {
  import opened Options
  import opened AsyncProtocol

  /** No event is given the sentinel's object. */
  predicate NoReuse(actions: seq<Action>) {
    forall i :: 0 <= i < |actions| && actions[i].Offer? ==> !actions[i].reused
  }

  /** Stop waits, and whatever the others do, short of reusing the sentinel's object, it goes on waiting. */
  ghost predicate Hangs(l: Logger) {
    && l.stopper == Awaiting
    && forall actions :: NoReuse(actions) && Play(l, actions).Some? ==> Play(l, actions).value.stopper == Awaiting
  }

  predicate TookSentinel(p: Producer) {
    p.Popped? && !p.oldest.Ev?
  }

  /** Stop waits, and the sentinel's object is in the pool or about to go there. */
  predicate Doomed(l: Logger) {
    l.stopper == Awaiting && (l.pooled || exists p :: 0 <= p < |l.producers| && TookSentinel(l.producers[p]))
  }

  lemma {:induction false} HandsHoldAtLeast(w: Which, producers: seq<Producer>, p: nat)
    requires p < |producers|
    ensures TallyHeld(w, producers[p]) <= TallyHands(w, producers)
  {
    if p > 0 {
      HandsHoldAtLeast(w, producers[1..], p - 1);
    }
  }

  lemma {:induction false} SomeHandHolds(producers: seq<Producer>) returns (p: nat)
    requires TallyHands(StopObject, producers) > 0
    ensures p < |producers| && TallyHeld(StopObject, producers[p]) > 0
  {
    if TallyHeld(StopObject, producers[0]) > 0 {
      p := 0;
    } else {
      p := SomeHandHolds(producers[1..]);
      p := p + 1;
    }
  }

  lemma {:induction false} NoStopInEvents(items: seq<Item>)
    ensures TallyItems(StopObject, items) == 0 <==> NoSentinel(items)
  {
    if items != [] {
      NoStopInEvents(items[1..]);
      assert forall i :: 0 < i < |items| ==> items[i] == items[1..][i - 1];
    }
  }

  /** There is one sentinel object: if it is pooled or taken, the worker has not ended and the buffer holds events only. */
  lemma DoomedIsNowhereElse(l: Logger)
    requires Conserved(StopObject, l) && Doomed(l)
    ensures l.worker != Finished && NoSentinel(l.buf)
    ensures l.pooled ==> forall p :: 0 <= p < |l.producers| ==> TallyHeld(StopObject, l.producers[p]) == 0
  {
    NoStopAmongEvents(l.offered);
    NoStopAmongEvents(l.resets);
    NoStopAmongEvents(l.swallowed);
    NoStopInEvents(l.buf);
    if !l.pooled {
      var p :| 0 <= p < |l.producers| && TookSentinel(l.producers[p]);
      HandsHoldAtLeast(StopObject, l.producers, p);
    }
    forall p | 0 <= p < |l.producers|
      ensures TallyHeld(StopObject, l.producers[p]) <= TallyHands(StopObject, l.producers)
    {
      HandsHoldAtLeast(StopObject, l.producers, p);
    }
    hide Tally, TallyHands, TallyItems;
  }

  /** Only an event that reuses the object takes it out of the pool; only its taker lets it go. */
  lemma ProducerKeepsDoom(l: Logger, p: nat, a: Action)
    requires p < |l.producers| && AppendStep(l, p, a).Some? && (a.Offer? ==> !a.reused)
    ensures var l' := AppendStep(l, p, a).value;
            && l'.stopper == l.stopper && |l'.producers| == |l.producers| && (l.pooled ==> l'.pooled)
            && (forall q :: 0 <= q < |l.producers| && q != p ==> l'.producers[q] == l.producers[q])
            && (TookSentinel(l.producers[p]) ==> l'.pooled)
  {
  }

  lemma WorkerKeepsDoom(l: Logger, a: Action)
    requires WorkerStep(l, a).Some?
    ensures var l' := WorkerStep(l, a).value;
            l'.stopper == l.stopper && l'.producers == l.producers && l'.pooled == l.pooled
  {
  }

  lemma DoomStays(l: Logger, a: Action)
    requires Conserved(StopObject, l) && Doomed(l) && Perform(l, a).Some? && (a.Offer? ==> !a.reused)
    ensures Doomed(Perform(l, a).value)
  {
    DoomedIsNowhereElse(l);
    hide Conserved, TallyHeld, NoSentinel, AppendStep, WorkerStep, TookSentinel;
    var l' := Perform(l, a).value;
    if ByProducer(a) {
      ProducerKeepsDoom(l, a.p, a);
      if !l.pooled {
        var p :| 0 <= p < |l.producers| && TookSentinel(l.producers[p]);
        assert p == a.p || l'.producers[p] == l.producers[p];
      }
    } else if ByWorker(a) {
      WorkerKeepsDoom(l, a);
    }
  }

  lemma {:induction false} DoomLasts(l: Logger, actions: seq<Action>)
    requires Inv(l) && Doomed(l) && NoReuse(actions) && Play(l, actions).Some?
    ensures Doomed(Play(l, actions).value)
  {
    if actions != [] {
      hide Perform, Doomed, Inv;
      var rest := actions[..|actions| - 1];
      DoomLasts(l, rest);
      PlayKeepsInv(l, rest);
      assert Conserved(StopObject, Play(l, rest).value) by {
        StopIsConserved(Play(l, rest).value);
      }
      DoomStays(Play(l, rest).value, actions[|actions| - 1]);
    }
  }

  lemma StopIsConserved(l: Logger)
    requires Inv(l)
    ensures Conserved(StopObject, l)
  {
    hide Conserved;
  }

  lemma DoomedHangs(l: Logger)
    requires Inv(l) && Doomed(l)
    ensures Hangs(l)
  {
    hide Inv, Play;
    forall actions | NoReuse(actions) && Play(l, actions).Some?
      ensures Play(l, actions).value.stopper == Awaiting
    {
      DoomLasts(l, actions);
    }
  }

  // ---- Otherwise Stop can return ------------------------------------------

  lemma FinishOne(l: Logger)
    ensures l.worker.Handling? ==>
              Perform(l, Deliver) == Some(l.(delivered := l.delivered + [l.worker.e], worker := Finishing(l.worker.e)))
    ensures l.worker.Finishing? ==> Perform(l, Recycle) == Some(l.(resets := l.resets + [l.worker.e], worker := Reading))
  {
  }

  /** The worker finishes the event it is at. */
  lemma {:induction false} Settle(l: Logger) returns (actions: seq<Action>, l': Logger)
    requires l.worker != Finished
    ensures NoReuse(actions) && Play(l, actions) == Some(l')
    ensures l' == l.(worker := Reading, delivered := l'.delivered, resets := l'.resets)
    decreases if l.worker.Handling? then 1 else 0
  {
    hide Perform;
    FinishOne(l);
    if l.worker == Reading {
      actions, l' := [], l;
    } else {
      var first := if l.worker.Handling? then Deliver else Recycle;
      PlayOne(l, first);
      if l.worker.Handling? {
        actions, l' := Settle(Perform(l, first).value);
        PlayOn(l, [first], actions);
        actions := [first] + actions;
      } else {
        actions, l' := [first], Perform(l, first).value;
      }
    }
  }

  lemma ReceiveStep(l: Logger)
    requires l.worker == Reading && l.buf != []
    ensures Perform(l, Receive) == Some(Received(l))
  {
  }

  lemma FirstThenRest(items: seq<Item>)
    requires items != []
    ensures NoSentinel(items) <==> items[0].Ev? && NoSentinel(items[1..])
  {
    assert items == [items[0]] + items[1..];
  }

  /** The worker finishes the event it is at and takes the next item. */
  lemma ReadOne(l: Logger) returns (actions: seq<Action>, l': Logger)
    requires l.worker != Finished && l.buf != []
    ensures NoReuse(actions) && Play(l, actions) == Some(l')
    ensures l' == l.(buf := l.buf[1..], worker := l'.worker,
                     delivered := l'.delivered, resets := l'.resets, swallowed := l'.swallowed)
    ensures if l.buf[0].Ev? then l'.worker != Finished && l'.swallowed == l.swallowed else l'.worker == Finished
  {
    hide Play, Perform;
    var settled;
    actions, settled := Settle(l);
    PlayMore(l, actions, Receive);
    ReceiveStep(settled);
    actions := actions + [Receive];
    l' := Received(settled);
  }

  /** The worker reads on until the buffer is empty or it meets the sentinel's object. */
  lemma {:induction false} ReadOn(l: Logger) returns (actions: seq<Action>, l': Logger)
    requires l.worker != Finished
    ensures NoReuse(actions) && Play(l, actions) == Some(l')
    ensures l' == l.(buf := l'.buf, worker := l'.worker,
                     delivered := l'.delivered, resets := l'.resets, swallowed := l'.swallowed)
    ensures NoSentinel(l.buf) ==> l'.buf == [] && l'.worker == Reading && l'.swallowed == l.swallowed
    ensures !NoSentinel(l.buf) ==> l'.worker == Finished
    decreases |l.buf|
  {
    hide Play, Perform;
    if l.buf == [] {
      actions, l' := Settle(l);
    } else {
      hide NoSentinel;
      FirstThenRest(l.buf);
      actions, l' := ReadOne(l);
      if l.buf[0].Ev? {
        var more;
        more, l' := ReadOn(l');
        PlayOn(l, actions, more);
        actions := actions + more;
      }
    }
  }

  lemma ReturnNow(l: Logger, actions: seq<Action>, l': Logger) returns (all: seq<Action>)
    requires Play(l, actions) == Some(l') && l'.worker == Finished && l'.stopper == Awaiting
    ensures all == actions + [StopReturn] && Play(l, all) == Some(l'.(stopper := Stopped))
    ensures NoReuse(actions) ==> NoReuse(all)
  {
    PlayMore(l, actions, StopReturn);
    all := actions + [StopReturn];
    hide Play;
  }

  /** With the buffer empty, a producer under drop-oldest gets its item sent. */
  lemma {:induction false} SendNow(l: Logger, p: nat) returns (actions: seq<Action>, l': Logger)
    requires l.policy == DropOldest && l.buf == [] && l.size > 0 && p < |l.producers| && l.producers[p] != Idle
    requires l.stopper != Stopped && (l.producers[p].Popped? ==> l.producers[p].oldest.Ev?)
    ensures NoReuse(actions) && Play(l, actions) == Some(l')
    ensures l'.buf == [l.producers[p].own] && l'.worker == l.worker && l'.stopper == l.stopper
    ensures l'.swallowed == l.swallowed && l'.offered == l.offered && l'.pooled == l.pooled
  {
    var own := l.producers[p].own;
    assert l.buf + [own] == [own];
    if l.producers[p].Offering? {
      actions := [TrySend(p)];
      PlayOne(l, TrySend(p));
      l' := Sent(l, p, own);
    } else if l.producers[p].Retrying? {
      actions := [Retry(p)];
      PlayOne(l, Retry(p));
      l' := Sent(l, p, own);
    } else {
      var first := if l.producers[p].Full? then OnFull(p) else Drop(p);
      PlayOne(l, first);
      var mid := Perform(l, first).value;
      PlayMore(l, [first], Retry(p));
      actions := [first] + [Retry(p)];
      l' := Sent(mid, p, own);
    }
    hide Play;
  }

  /** Unless it is doomed, a waiting Stop can return without any event reusing the sentinel's object. */
  lemma CanReturn(l: Logger) returns (actions: seq<Action>)
    requires Inv(l) && l.stopper == Awaiting && !Doomed(l) && l.size > 0
    ensures NoReuse(actions) && Play(l, actions).Some? && Play(l, actions).value.stopper == Stopped
  {
    hide Play;
    if l.worker == Finished {
      NothingPlayed(l);
      actions := ReturnNow(l, [], l);
    } else {
      var read;
      actions, read := ReadOn(l);
      if NoSentinel(l.buf) {
        var p := OwnsSentinelObject(l);
        var send, sent := SendNow(read, p);
        PlayOn(l, actions, send);
        actions := actions + send;
        PlayMore(l, actions, Receive);
        actions := actions + [Receive];
        read := Received(sent);
      }
      actions := ReturnNow(l, actions, read);
    }
  }

  lemma NothingPlayed(l: Logger)
    ensures Play(l, []) == Some(l)
  {
  }

  /** If the sentinel's object is neither pooled nor taken nor buffered nor read, it is some producer's own. */
  lemma OwnsSentinelObject(l: Logger) returns (p: nat)
    requires Inv(l) && l.stopper == Awaiting && !Doomed(l) && l.worker != Finished && NoSentinel(l.buf)
    ensures p < |l.producers| && l.producers[p] != Idle && !l.producers[p].own.Ev?
    ensures l.producers[p].Popped? ==> l.producers[p].oldest.Ev?
    ensures l.policy == DropOldest
  {
    assert Conserved(StopObject, l);
    NoStopAmongEvents(l.offered);
    NoStopAmongEvents(l.resets);
    NoStopAmongEvents(l.swallowed);
    NoStopInEvents(l.buf);
    hide Tally, TallyItems;
    p := SomeHandHolds(l.producers);
    hide TallyHands;
    assert !TookSentinel(l.producers[p]);
  }

  /** Exactly when a waiting Stop waits for ever: when the sentinel's object is pooled or about to be. */
  lemma HangsIff(l: Logger)
    requires Reached(l) && l.stopper == Awaiting && l.size > 0
    ensures Hangs(l) <==> Doomed(l)
  {
    ReachedInv(l);
    hide Inv, Reached, Play;
    if Doomed(l) {
      DoomedHangs(l);
    } else {
      var actions := CanReturn(l);
      assert Play(l, actions).value.stopper != Awaiting;
    }
  }

  // ---- What a reuse does --------------------------------------------------

  /**
   * Once the sentinel's object is pooled, an Append whose event is given that object lets
   * Stop return; the event is then neither delivered nor dropped nor reset.
   */
  lemma {:induction false} ReuseLetsStopReturn(l: Logger, p: nat, e: nat) returns (actions: seq<Action>)
    requires Reached(l) && l.stopper == Awaiting && l.pooled && l.size > 0
    requires p < |l.producers| && l.producers[p] == Idle && e !in l.offered
    ensures NoReuse(actions) && Play(l, [Offer(p, e, true, true)] + actions).Some?
    ensures var l' := Play(l, [Offer(p, e, true, true)] + actions).value;
            && l'.stopper == Stopped && l'.swallowed == [e]
            && e !in l'.delivered && e !in l'.dropped && e !in l'.resets
  {
    var l1 := ReuseOffer(l, p, e);
    var offer := Offer(p, e, true, true);
    hide Reached, Play, Perform, NoReuse, NoSentinel;
    actions := OfferedReturns(l1, p, e);
    PlayOn(l, [offer], actions);
    ReachedOn(l, [offer] + actions);
    SwallowedIsGone(Play(l, [offer] + actions).value, e);
  }

  lemma ReuseOffer(l: Logger, p: nat, e: nat) returns (l1: Logger)
    requires Reached(l) && l.stopper == Awaiting && l.pooled
    requires p < |l.producers| && l.producers[p] == Idle && e !in l.offered
    ensures l1 == Offered(l, p, e, true, true) && Play(l, [Offer(p, e, true, true)]) == Some(l1)
    ensures l.policy == DropOldest && l.swallowed == [] && l.worker != Finished && NoSentinel(l.buf)
  {
    ReachedInv(l);
    assert Conserved(StopObject, l);
    DoomedIsNowhereElse(l);
    l1 := Offered(l, p, e, true, true);
    PlayOne(l, Offer(p, e, true, true));
  }

  /** A producer that offers an event in the sentinel's object lets Stop return. */
  lemma OfferedReturns(l: Logger, p: nat, e: nat) returns (actions: seq<Action>)
    requires l.policy == DropOldest && l.size > 0 && l.swallowed == [] && l.stopper == Awaiting && l.worker != Finished
    requires NoSentinel(l.buf) && p < |l.producers| && l.producers[p] == Offering(Masked(e))
    ensures NoReuse(actions) && Play(l, actions).Some?
    ensures Play(l, actions).value.stopper == Stopped && Play(l, actions).value.swallowed == [e]
  {
    hide Play, Perform, NoSentinel;
    var read, l2 := ReadOn(l);
    var send, l3 := SendNow(l2, p);
    PlayOn(l, read, send);
    ReceiveStep(l3);
    PlayMore(l, read + send, Receive);
    actions := ReturnNow(l, read + send + [Receive], Received(l3));
  }

  /** An event the worker took for the sentinel was not delivered, not dropped and not reset. */
  lemma SwallowedIsGone(l: Logger, e: nat)
    requires Reached(l) && e in l.swallowed
    ensures e in l.offered && e !in l.disabled && e !in l.delivered && e !in l.dropped && e !in l.resets
  {
    ReachedInv(l);
    hide Play, Reached, Tally, Alive, Distinct, Ordered, StopInv;
    assert Conserved(Just(e), l);
    DistinctTally(l.offered, e);
    TallyNone(e, l.offered);
    TallyNone(e, l.swallowed);
    TallyNone(e, l.resets);
    TallyNone(e, l.disabled);
    TallyNone(e, l.delivered);
    TallyNone(e, l.dropped);
  }

  /** Stop's sentinel itself will not be read any more. */
  predicate SentinelGone(l: Logger) {
    && (l.stopper == Awaiting || l.stopper == Stopped)
    && (forall i :: 0 <= i < |l.buf| ==> l.buf[i] != Sentinel)
    && (l.stopper == Stopped ==> l.worker == Finished)
    && (l.worker == Finished ==> l.swallowed != [])
  }

  lemma ProducerKeepsGone(l: Logger, p: nat, a: Action)
    requires p < |l.producers| && SentinelGone(l) && Owning(l) && AppendStep(l, p, a).Some?
    ensures SentinelGone(AppendStep(l, p, a).value)
  {
    OthersWait(l, p, a);
    ProducerBuffers(l, p, a);
    hide AppendStep, Owning;
  }

  /** A producer takes the front item out, or puts its own item at the end. */
  lemma ProducerBuffers(l: Logger, p: nat, a: Action)
    requires p < |l.producers| && Owning(l) && AppendStep(l, p, a).Some?
    ensures var l' := AppendStep(l, p, a).value;
            && l'.stopper == l.stopper
            && (|| l'.buf == l.buf
                || (l.buf != [] && l'.buf == l.buf[1..])
                || (l.producers[p] != Idle && !l.producers[p].own.Sentinel? && l'.buf == l.buf + [l.producers[p].own]))
  {
  }

  lemma GoneStays(l: Logger, a: Action)
    requires SentinelGone(l) && Owning(l) && Perform(l, a).Some?
    ensures SentinelGone(Perform(l, a).value)
  {
    hide AppendStep;
    if ByProducer(a) {
      hide Owning, SentinelGone;
      ProducerKeepsGone(l, a.p, a);
    }
  }

  lemma {:induction false} GoneLasts(l: Logger, actions: seq<Action>)
    requires SentinelGone(l) && Inv(l) && Play(l, actions).Some?
    ensures SentinelGone(Play(l, actions).value)
  {
    if actions != [] {
      hide Perform, SentinelGone, Conserved, Ordered, Undisturbed, Distinct, StopInv, CountInv;
      var rest := actions[..|actions| - 1];
      GoneLasts(l, rest);
      PlayKeepsInv(l, rest);
      GoneStays(Play(l, rest).value, actions[|actions| - 1]);
    }
  }

  /** After the loss, Stop has returned or is about to exactly if the worker took an event for the sentinel. */
  lemma {:induction false} AfterLossReturnsIff(l: Logger, actions: seq<Action>)
    requires Reached(l) && Doomed(l) && Play(l, actions).Some?
    ensures var l' := Play(l, actions).value;
            l'.stopper == Stopped || Perform(l', StopReturn).Some? <==> l'.swallowed != []
  {
    ReachedInv(l);
    DoomedIsGone(l);
    GoneLasts(l, actions);
    PlayKeepsInv(l, actions);
    OwningOf(Play(l, actions).value);
    hide Play, Inv, Reached, Doomed;
  }

  lemma DoomedIsGone(l: Logger)
    requires Inv(l) && Doomed(l)
    ensures SentinelGone(l)
  {
    StopIsConserved(l);
    DoomedIsNowhereElse(l);
    hide Inv;
  }

  lemma OwningOf(l: Logger)
    requires Inv(l)
    ensures Owning(l)
  {
  }

  /**
   * If Stop returns although the sentinel had been taken, then through an event that reused
   * its object: exactly one event has been swallowed, and it is neither delivered nor dropped
   * nor reset.
   */
  lemma ReturnAfterLossSwallowsOne(l: Logger, actions: seq<Action>)
    requires Reached(l) && Doomed(l) && Play(l, actions).Some? && Play(l, actions).value.stopper == Stopped
    ensures !NoReuse(actions)
    ensures var l' := Play(l, actions).value;
            && |l'.swallowed| == 1
            && var e := l'.swallowed[0];
               e in l'.offered && e !in l'.delivered && e !in l'.dropped && e !in l'.resets
  {
    ReachedInv(l);
    StopIsConserved(l);
    DoomedIsNowhereElse(l);
    assert SentinelGone(l);
    if NoReuse(actions) {
      DoomLasts(l, actions);
    }
    GoneLasts(l, actions);
    PlayKeepsInv(l, actions);
    ReachedOn(l, actions);
    assert Owning(Play(l, actions).value);
    hide Play, Inv, Reached, Conserved;
    SwallowedIsGone(Play(l, actions).value, Play(l, actions).value.swallowed[0]);
  }

  /** Once the worker has ended nothing is delivered any more, whatever is still buffered. */
  lemma {:induction false} EndedWorkerDeliversNothing(l: Logger, actions: seq<Action>)
    requires l.worker == Finished && Play(l, actions).Some?
    ensures Play(l, actions).value.worker == Finished && Play(l, actions).value.delivered == l.delivered
  {
    if actions != [] {
      EndedWorkerDeliversNothing(l, actions[..|actions| - 1]);
    }
  }

  // ---- When it can come to this -------------------------------------------

  /** Stop's sentinel is at the front, k events behind it, and the worker is busy. */
  predicate SentinelFirst(l: Logger, size: nat, producers: nat, k: nat) {
    && l.policy == DropOldest && l.overlap && l.size == size && !l.pooled
    && |l.producers| == producers && Quiet(l.producers)
    && l.stopper == Awaiting && l.worker.Handling?
    && |l.buf| == k + 1 && l.buf[0] == Sentinel
    && forall e :: e in l.offered ==> e <= k
  }

  lemma SendOne(l: Logger, size: nat, producers: nat, k: nat) returns (l': Logger)
    requires SentinelFirst(l, size, producers, k) && producers > 0 && k + 1 < size
    ensures SentinelFirst(l', size, producers, k + 1)
    ensures Perform(l, Offer(0, k + 1, true, false)).Some?
    ensures Perform(Perform(l, Offer(0, k + 1, true, false)).value, TrySend(0)) == Some(l')
  {
    var offered := Offered(l, 0, k + 1, true, false);
    assert Perform(l, Offer(0, k + 1, true, false)) == Some(offered);
    l' := Sent(offered, 0, Ev(k + 1));
  }

  lemma {:induction false} FillUp(size: nat, producers: nat, k: nat) returns (actions: seq<Action>)
    requires producers > 0 && k < size && size > 1
    ensures Play(Fresh(DropOldest, size, true, producers), actions).Some?
    ensures SentinelFirst(Play(Fresh(DropOldest, size, true, producers), actions).value, size, producers, k)
  {
    var start := Fresh(DropOldest, size, true, producers);
    if k == 0 {
      actions := StopWhileBusy(size, producers);
    } else {
      actions := FillUp(size, producers, k - 1);
      hide Fresh, Perform, SentinelFirst, Play;
      var l := Play(start, actions).value;
      var l' := SendOne(l, size, producers, k - 1);
      PlayMore(start, actions, Offer(0, k, true, false));
      PlayMore(start, actions + [Offer(0, k, true, false)], TrySend(0));
      actions := actions + [Offer(0, k, true, false)] + [TrySend(0)];
    }
  }

  /** The worker has just taken an event when Stop sends its sentinel into the empty buffer. */
  lemma StopWhileBusy(size: nat, producers: nat) returns (actions: seq<Action>)
    requires producers > 0 && size > 1
    ensures Play(Fresh(DropOldest, size, true, producers), actions).Some?
    ensures SentinelFirst(Play(Fresh(DropOldest, size, true, producers), actions).value, size, producers, 0)
  {
    var l0 := Fresh(DropOldest, size, true, producers);
    var offer := Offer(0, 0, true, false);
    var l1 := Offered(l0, 0, 0, true, false);
    var l2 := Sent(l1, 0, Ev(0));
    var l3 := Received(l2);
    var l4 := l3.(stopper := Stopping);
    var l5 := l4.(stopper := Awaiting, buf := l4.buf + [Sentinel]);
    assert Perform(l0, offer) == Some(l1);
    assert Perform(l1, TrySend(0)) == Some(l2);
    assert Perform(l2, Receive) == Some(l3);
    assert Perform(l3, StopBegin) == Some(l4);
    assert Perform(l4, StopSend) == Some(l5);
    assert SentinelFirst(l5, size, producers, 0);
    hide Perform, SentinelFirst, Fresh;
    PlayMore(l0, [], offer);
    PlayMore(l0, [] + [offer], TrySend(0));
    PlayMore(l0, [] + [offer] + [TrySend(0)], Receive);
    PlayMore(l0, [] + [offer] + [TrySend(0)] + [Receive], StopBegin);
    PlayMore(l0, [] + [offer] + [TrySend(0)] + [Receive] + [StopBegin], StopSend);
    actions := [] + [offer] + [TrySend(0)] + [Receive] + [StopBegin] + [StopSend];
  }

  /** One more Append finds the buffer full and takes the sentinel out. */
  lemma AppendTakesSentinel(l: Logger, size: nat, producers: nat) returns (l': Logger)
    requires size > 1 && producers > 0 && SentinelFirst(l, size, producers, size - 1)
    ensures Doomed(l')
    ensures Play(l, [Offer(0, size, true, false)] + [TrySend(0)] + [OnFull(0)]) == Some(l')
  {
    var offer := Offer(0, size, true, false);
    var l1 := Offered(l, 0, size, true, false);
    var l2 := At(l1, 0, Full(Ev(size)));
    l' := At(l2, 0, Popped(Ev(size), Sentinel)).(buf := l.buf[1..]);
    assert Perform(l, offer) == Some(l1);
    assert Perform(l1, TrySend(0)) == Some(l2);
    assert Perform(l2, OnFull(0)) == Some(l');
    assert TookSentinel(l'.producers[0]);
    hide Perform, SentinelFirst;
    PlayOne(l, offer);
    PlayMore(l, [offer], TrySend(0));
    PlayMore(l, [offer] + [TrySend(0)], OnFull(0));
  }

  ghost predicate StopCanHang(policy: Policy, size: nat, overlap: bool, producers: nat) {
    exists actions :: Play(Fresh(policy, size, overlap, producers), actions).Some?
                      && Hangs(Play(Fresh(policy, size, overlap, producers), actions).value)
  }

  /**
   * Stop can be left waiting, with nothing but a reuse of its sentinel's object to end the
   * wait, exactly if Append may run beside it under drop-oldest.
   */
  lemma StopCanHangIff(policy: Policy, size: nat, overlap: bool, producers: nat)
    requires size >= MIN_BUFFER_SIZE && producers > 0
    ensures StopCanHang(policy, size, overlap, producers) <==> overlap && policy == DropOldest
  {
    var start := Fresh(policy, size, overlap, producers);
    FreshInv(policy, size, overlap, producers);
    if overlap && policy == DropOldest {
      var actions := FillUp(size, producers, size - 1);
      var more := [Offer(0, size, true, false)] + [TrySend(0)] + [OnFull(0)];
      var l' := AppendTakesSentinel(Play(start, actions).value, size, producers);
      hide Play, Doomed, Fresh, Inv, Hangs;
      PlayOn(start, actions, more);
      PlayKeepsInv(start, actions + more);
      DoomedHangs(l');
    } else {
      hide Play;
      forall actions | Play(start, actions).Some?
        ensures !Hangs(Play(start, actions).value)
      {
        PlayKeepsInv(start, actions);
        NeverHangs(Play(start, actions).value);
      }
    }
  }

  lemma NeverHangs(l: Logger)
    requires Inv(l) && (!l.overlap || l.policy != DropOldest) && l.size > 0
    ensures !Hangs(l)
  {
    hide Play, Conserved, Ordered, Distinct;
    assert Unpooled(l) && !Doomed(l);
    if l.stopper == Awaiting {
      var actions := CanReturn(l);
      hide Inv;
    }
  }
}
