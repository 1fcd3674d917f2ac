// What the three overflow policies of the asynchronous logger do with an event
// (log/plugin_logger.go).
module AsyncPolicies {
  import opened AsyncProtocol
  import opened Options

  function OwnWeight(w: Which, p: Producer): nat {
    if p == Idle then 0 else EventWeight(w, p.own)
  }

  /** The events producers are offering. */
  function TallyOwn(w: Which, producers: seq<Producer>): nat {
    if producers == [] then 0 else OwnWeight(w, producers[0]) + TallyOwn(w, producers[1..])
  }

  lemma {:induction false} OwnChange(w: Which, producers: seq<Producer>, p: nat, state: Producer)
    requires p < |producers|
    ensures TallyOwn(w, producers[p := state]) + OwnWeight(w, producers[p]) == TallyOwn(w, producers) + OwnWeight(w, state)
  {
    var changed := producers[p := state];
    hide EventWeight;
    if p == 0 {
      assert changed[1..] == producers[1..];
    } else {
      assert changed[1..] == producers[1..][p - 1 := state];
      OwnChange(w, producers[1..], p - 1, state);
    }
  }

  /** Every enabled event is on offer, was sent, or was discarded by a policy that discards the new event. */
  predicate Settled(w: Which, l: Logger) {
    && Tally(w, l.offered) ==
         Tally(w, l.disabled) + Tally(w, l.sends) + TallyOwn(w, l.producers)
         + (if l.policy == DropOldest then 0 else Tally(w, l.dropped))
    && (l.policy == Block ==> l.dropped == [])
  }

  lemma {:induction false} OfferSettles(w: Which, l: Logger, p: nat, e: nat, enabled: bool, reused: bool)
    requires p < |l.producers| && Settled(w, l) && l.producers[p] == Idle
    ensures Settled(w, Offered(l, p, e, enabled, reused))
  {
    hide Tally, TallyOwn;
    OwnChange(w, l.producers, p, Offering(if reused then Masked(e) else Ev(e)));
    TallyAppend(w, l.offered, e);
    TallyAppend(w, l.disabled, e);
  }

  lemma {:induction false} SendSettles(w: Which, l: Logger, p: nat, own: Item)
    requires p < |l.producers| && Settled(w, l) && l.producers[p] != Idle && l.producers[p].own == own
    ensures Settled(w, Sent(l, p, own))
  {
    hide Tally, TallyOwn, EventWeight, EventOf;
    OwnChange(w, l.producers, p, Idle);
    TallyEventOf(w, l.sends, own);
  }

  lemma {:induction false} KeepOwnSettles(w: Which, l: Logger, l': Logger, p: nat, state: Producer)
    requires p < |l.producers| && Settled(w, l) && state != Idle && OwnWeight(w, l.producers[p]) == OwnWeight(w, state)
    requires l'.producers == l.producers[p := state]
    requires l'.offered == l.offered && l'.disabled == l.disabled && l'.sends == l.sends && l'.policy == l.policy
    requires l.policy == DropOldest || l'.dropped == l.dropped
    ensures Settled(w, l')
  {
    hide Tally, TallyOwn, OwnWeight;
    OwnChange(w, l.producers, p, state);
  }

  lemma {:induction false} DiscardSettles(w: Which, l: Logger, p: nat, own: Item)
    requires p < |l.producers| && Settled(w, l) && l.producers[p] == Full(own) && l.policy == Discard
    ensures Settled(w, Discarded(At(l, p, Idle), own))
  {
    hide Tally, TallyOwn, EventWeight, EventOf;
    OwnChange(w, l.producers, p, Idle);
    TallyEventOf(w, l.dropped, own);
  }

  lemma {:induction false} AppendSettles(w: Which, l: Logger, p: nat, a: Action)
    requires p < |l.producers| && Settled(w, l) && Undisturbed(l) && AppendStep(l, p, a).Some?
    ensures Settled(w, AppendStep(l, p, a).value)
  {
    hide Settled, Unpooled, Pipeline;
    var l' := AppendStep(l, p, a).value;
    match (a, l.producers[p])
    case (Offer(_, e, enabled, reused), Idle) => OfferSettles(w, l, p, e, enabled, reused);
    case (TrySend(_), Offering(own)) =>
      if Room(l) { SendSettles(w, l, p, own); } else { KeepOwnSettles(w, l, l', p, Full(own)); }
    case (OnFull(_), Full(own)) =>
      match l.policy {
        case Block => SendSettles(w, l, p, own);
        case Discard => DiscardSettles(w, l, p, own);
        case DropOldest =>
          if l.buf == [] { KeepOwnSettles(w, l, l', p, Retrying(own)); }
          else { KeepOwnSettles(w, l, l', p, Popped(own, l.buf[0])); }
      }
    case (Drop(_), Popped(own, oldest)) => KeepOwnSettles(w, l, l', p, Retrying(own));
    case (Retry(_), Retrying(own)) =>
      if Room(l) { SendSettles(w, l, p, own); } else { KeepOwnSettles(w, l, l', p, Full(own)); }
  }

  lemma {:induction false} PerformSettles(w: Which, l: Logger, a: Action)
    requires Settled(w, l) && Undisturbed(l) && Perform(l, a).Some?
    ensures Settled(w, Perform(l, a).value)
  {
    hide AppendStep, Undisturbed, Tally, TallyOwn;
    if ByProducer(a) {
      hide Settled;
      AppendSettles(w, l, a.p, a);
    }
  }

  lemma {:induction false} QuietOwnsNothing(w: Which, producers: seq<Producer>)
    requires Quiet(producers)
    ensures TallyOwn(w, producers) == 0
  {
    if producers != [] {
      QuietOwnsNothing(w, producers[1..]);
    }
  }

  lemma {:induction false} PlaySettles(w: Which, policy: Policy, size: nat, overlap: bool, producers: nat, actions: seq<Action>)
    requires Play(Fresh(policy, size, overlap, producers), actions).Some?
    ensures Settled(w, Play(Fresh(policy, size, overlap, producers), actions).value)
  {
    var start := Fresh(policy, size, overlap, producers);
    if actions == [] {
      QuietOwnsNothing(w, start.producers);
    } else {
      var rest := actions[..|actions| - 1];
      PlaySettles(w, policy, size, overlap, producers, rest);
      FreshInv(policy, size, overlap, producers);
      PlayKeepsInv(start, rest);
      UndisturbedOf(Play(start, rest).value);
      hide Settled, Inv, Perform, Fresh;
      PerformSettles(w, Play(start, rest).value, actions[|actions| - 1]);
    }
  }

  lemma UndisturbedOf(l: Logger)
    requires Inv(l)
    ensures Undisturbed(l)
  {
    hide Undisturbed;
  }

  /**
   * What became of an event once no Append is under way. Block: it was sent, and nothing is
   * ever dropped. Discard: it was either sent or dropped, never both. Drop-oldest: it was
   * sent, and whatever is dropped had been sent before.
   */
  lemma PolicyDecides(l: Logger, e: nat)
    requires Reached(l) && Quiet(l.producers) && e in l.offered && e !in l.disabled
    ensures l.policy == Block ==> e in l.sends && l.dropped == []
    ensures l.policy == Discard ==> (e in l.sends <==> e !in l.dropped)
    ensures l.policy == DropOldest ==> e in l.sends
  {
    var policy, size, overlap, producers, actions :|
      Play(Fresh(policy, size, overlap, producers), actions) == Some(l);
    PlaySettles(Just(e), policy, size, overlap, producers, actions);
    QuietOwnsNothing(Just(e), l.producers);
    ReachedInv(l);
    DistinctTally(l.offered, e);
    TallyNone(e, l.offered);
    TallyNone(e, l.disabled);
    TallyNone(e, l.sends);
    TallyNone(e, l.dropped);
    hide Play, Fresh, Reached, Tally, TallyOwn, Conserved;
  }

  /** An Append that has begun can go on unless the channel is closed, or it waits for room under block. */
  lemma AppendGoesOnIff(l: Logger, p: nat)
    requires p < |l.producers| && l.producers[p] != Idle
    ensures (exists a :: ByProducer(a) && a.p == p && Perform(l, a).Some?) <==>
              l.stopper != Stopped && !(l.producers[p].Full? && l.policy == Block && !Room(l))
  {
    var next := match l.producers[p]
                case Offering(_) => TrySend(p)
                case Full(_) => OnFull(p)
                case Popped(_, _) => Drop(p)
                case _ => Retry(p);
    assert ByProducer(next) && next.p == p;
    assert l.stopper != Stopped && !(l.producers[p].Full? && l.policy == Block && !Room(l)) ==> Perform(l, next).Some?;
  }

  /** The worker waits for an item and for nothing else, and Stop for room and for the worker's end. */
  lemma WorkerAndStopGoOnIff(l: Logger)
    ensures (exists a :: ByWorker(a) && Perform(l, a).Some?) <==>
              l.worker != Finished && (l.worker == Reading ==> l.buf != [])
    ensures l.stopper == Stopping ==> (Perform(l, StopSend).Some? <==> |l.buf| < l.size)
    ensures l.stopper == Awaiting ==> (Perform(l, StopReturn).Some? <==> l.worker == Finished)
  {
    var next := match l.worker case Handling(_) => Deliver case Finishing(_) => Recycle case _ => Receive;
    assert ByWorker(next);
    assert l.worker != Finished && (l.worker == Reading ==> l.buf != []) ==> Perform(l, next).Some?;
  }
}
