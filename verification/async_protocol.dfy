// The asynchronous logger (log/plugin_logger.go) as a state machine: a bounded channel,
// its worker, any number of producers, and Stop.
//
// Every channel operation, counter update and Reset is a step of its own.
module AsyncProtocol {
  import opened Options

  datatype Policy = Block | Discard | DropOldest

  /**
   * What travels through the channel: an event in an object of its own, an event whose object
   * is the one Stop uses as its sentinel, or that sentinel itself. Event objects are pooled,
   * and drop-oldest resets into the pool whatever it takes out.
   */
  datatype Item = Ev(id: nat) | Masked(id: nat) | Sentinel

  /** A producer inside Append, and the items it is responsible for. */
  datatype Producer =
    | Idle
    | Offering(own: Item)              // before the first send
    | Full(own: Item)                  // the buffer was full
    | Popped(own: Item, oldest: Item)  // it has taken the oldest item out
    | Retrying(own: Item)              // before the next send

  datatype Worker =
    | Reading
    | Handling(e: nat)
    | Finishing(e: nat)   // delivered, not yet reset
    | Finished

  datatype Stopper = Running | Stopping | Awaiting | Stopped

  datatype Logger = Logger(
    policy: Policy,
    size: nat,
    overlap: bool,          // whether Append may run while Stop does
    buf: seq<Item>,
    producers: seq<Producer>,
    worker: Worker,
    stopper: Stopper,
    pooled: bool,           // the sentinel's object is in the event pool
    offered: seq<nat>,      // every event given to Append
    disabled: seq<nat>,     // those below the logger's level
    sends: seq<nat>,        // events in the order they entered the channel
    delivered: seq<nat>,    // events in the order the appenders saw them
    dropped: seq<nat>,
    swallowed: seq<nat>,    // events the worker took for the sentinel
    counter: nat,           // discardCounter
    resets: seq<nat>)       // the Reset calls

  datatype Action =
    | Offer(p: nat, e: nat, enabled: bool, reused: bool)  // reused: the pool hands out the sentinel's object
    | TrySend(p: nat)
    | OnFull(p: nat)
    | Drop(p: nat)
    | Retry(p: nat)
    | Receive
    | Deliver
    | Recycle
    | StopBegin
    | StopSend
    | StopReturn

  /** Start rejects smaller buffers. */
  const MIN_BUFFER_SIZE := 100

  predicate Room(l: Logger) {
    |l.buf| < l.size
  }

  predicate Quiet(producers: seq<Producer>) {
    forall p :: 0 <= p < |producers| ==> producers[p] == Idle
  }

  function EventOf(x: Item): seq<nat> {
    if x.Sentinel? then [] else [x.id]
  }

  function At(l: Logger, p: nat, state: Producer): Logger
    requires p < |l.producers|
  {
    l.(producers := l.producers[p := state])
  }

  function Sent(l: Logger, p: nat, own: Item): Logger
    requires p < |l.producers|
  {
    At(l, p, Idle).(buf := l.buf + [own], sends := l.sends + EventOf(own))
  }

  /** The item is counted and its object reset into the pool, whatever it is. */
  function Discarded(l: Logger, x: Item): Logger {
    l.(counter := l.counter + 1,
       dropped := l.dropped + EventOf(x),
       resets := l.resets + EventOf(x),
       pooled := l.pooled || !x.Ev?)
  }

  /** An event arrives, in a fresh object or in the pooled one; a disabled one is reset at once. */
  function Offered(l: Logger, p: nat, e: nat, enabled: bool, reused: bool): Logger
    requires p < |l.producers|
  {
    var own := if reused then Masked(e) else Ev(e);
    if enabled then At(l, p, Offering(own)).(offered := l.offered + [e], pooled := l.pooled && !reused)
    else l.(offered := l.offered + [e], disabled := l.disabled + [e], resets := l.resets + [e])
  }

  /** One step of a producer inside Append, where it is enabled, while the channel is open. */
  function AppendStep(l: Logger, p: nat, a: Action): Option<Logger>
    requires p < |l.producers|
  {
    match (a, l.producers[p])
    case (Offer(_, e, enabled, reused), Idle) =>
      if e in l.offered || !(l.overlap || l.stopper == Running) || (reused && !l.pooled) then None
      else Some(Offered(l, p, e, enabled, reused))
    case (TrySend(_), Offering(own)) =>
      Some(if Room(l) then Sent(l, p, own) else At(l, p, Full(own)))
    case (OnFull(_), Full(own)) =>
      (match l.policy
       case Block => if Room(l) then Some(Sent(l, p, own)) else None
       case Discard => Some(Discarded(At(l, p, Idle), own))
       case DropOldest =>
         Some(if l.buf == [] then At(l, p, Retrying(own)) else At(l, p, Popped(own, l.buf[0])).(buf := l.buf[1..])))
    case (Drop(_), Popped(own, oldest)) =>
      Some(Discarded(At(l, p, Retrying(own)), oldest))
    case (Retry(_), Retrying(own)) =>
      Some(if Room(l) then Sent(l, p, own) else At(l, p, Full(own)))
    case _ => None
  }

  /** Stop closes the channel when it returns; a producer that touches it then panics, and makes no more steps. */
  function ProducerStep(l: Logger, p: nat, a: Action): Option<Logger>
    requires p < |l.producers|
  {
    if l.stopper == Stopped && !a.Offer? then None else AppendStep(l, p, a)
  }

  /** The worker takes the next item; the sentinel's object ends it, whatever it carries. */
  function Received(l: Logger): Logger
    requires l.buf != []
  {
    var x := l.buf[0];
    if x.Ev? then l.(buf := l.buf[1..], worker := Handling(x.id))
    else l.(buf := l.buf[1..], worker := Finished, swallowed := l.swallowed + EventOf(x))
  }

  function WorkerStep(l: Logger, a: Action): Option<Logger> {
    match (a, l.worker)
    case (Receive, Reading) => if l.buf == [] then None else Some(Received(l))
    case (Deliver, Handling(e)) => Some(l.(delivered := l.delivered + [e], worker := Finishing(e)))
    case (Recycle, Finishing(e)) => Some(l.(resets := l.resets + [e], worker := Reading))
    case _ => None
  }

  function StopStep(l: Logger, a: Action): Option<Logger> {
    match (a, l.stopper)
    case (StopBegin, Running) => if l.overlap || Quiet(l.producers) then Some(l.(stopper := Stopping)) else None
    case (StopSend, Stopping) => if Room(l) then Some(l.(buf := l.buf + [Sentinel], stopper := Awaiting)) else None
    case (StopReturn, Awaiting) => if l.worker == Finished then Some(l.(stopper := Stopped)) else None
    case _ => None
  }

  predicate ByProducer(a: Action) {
    a.Offer? || a.TrySend? || a.OnFull? || a.Drop? || a.Retry?
  }

  predicate ByWorker(a: Action) {
    a.Receive? || a.Deliver? || a.Recycle?
  }

  function Perform(l: Logger, a: Action): Option<Logger> {
    if ByProducer(a) then
      if a.p < |l.producers| then ProducerStep(l, a.p, a) else None
    else if ByWorker(a) then WorkerStep(l, a)
    else StopStep(l, a)
  }

  function Play(l: Logger, actions: seq<Action>): Option<Logger> {
    if actions == [] then Some(l)
    else
      match Play(l, actions[..|actions| - 1])
      case None => None
      case Some(before) => Perform(before, actions[|actions| - 1])
  }

  /** An Append may begin beside Stop, and Stop beside an Append, exactly if they may overlap; an event is new. */
  lemma BeginsIff(l: Logger, p: nat, e: nat, enabled: bool, reused: bool)
    ensures Perform(l, Offer(p, e, enabled, reused)).Some? <==>
              && p < |l.producers| && l.producers[p] == Idle && e !in l.offered
              && (l.overlap || l.stopper == Running) && (reused ==> l.pooled)
    ensures Perform(l, StopBegin).Some? <==>
              l.stopper == Running && (l.overlap || forall k :: 0 <= k < |l.producers| ==> l.producers[k] == Idle)
  {
  }

  /** Once Stop has returned the channel is closed: nothing goes in or out on the producers' side. */
  lemma ClosedChannelIsLeft(l: Logger, a: Action)
    requires l.stopper == Stopped && Perform(l, a).Some?
    ensures a.Offer? || ByWorker(a)
    ensures ByProducer(a) ==> Perform(l, a).value.buf == l.buf && Perform(l, a).value.sends == l.sends
  {
  }

  // ---- Where the events are -----------------------------------------------

  /** What to count: one event, all of them, or the sentinel's object. */
  datatype Which = Just(e: nat) | Every | StopObject

  function Weight(w: Which, e: nat): nat {
    match w
    case Just(x) => if x == e then 1 else 0
    case Every => 1
    case StopObject => 0
  }

  function Tally(w: Which, events: seq<nat>): nat {
    if events == [] then 0 else Tally(w, events[..|events| - 1]) + Weight(w, events[|events| - 1])
  }

  function EventWeight(w: Which, x: Item): nat {
    if x.Sentinel? then 0 else Weight(w, x.id)
  }

  function ItemWeight(w: Which, x: Item): nat {
    if w.StopObject? then (if x.Ev? then 0 else 1) else EventWeight(w, x)
  }

  function TallyItems(w: Which, items: seq<Item>): nat {
    if items == [] then 0 else ItemWeight(w, items[0]) + TallyItems(w, items[1..])
  }

  /** What a producer holds: its own item, and one it has taken out of the buffer. */
  function TallyHeld(w: Which, p: Producer): nat {
    match p
    case Idle => 0
    case Popped(own, oldest) => ItemWeight(w, own) + ItemWeight(w, oldest)
    case _ => ItemWeight(w, p.own)
  }

  function TallyHands(w: Which, producers: seq<Producer>): nat {
    if producers == [] then 0 else TallyHeld(w, producers[0]) + TallyHands(w, producers[1..])
  }

  function TallyWork(w: Which, worker: Worker): nat {
    if worker.Handling? || worker.Finishing? then Weight(w, worker.e) else 0
  }

  /** How much is in use: in hand, in the buffer and with the worker. */
  function Alive(w: Which, l: Logger): nat {
    TallyHands(w, l.producers) + TallyItems(w, l.buf) + TallyWork(w, l.worker)
  }

  /** Where the sentinel's object is when nobody uses it: not sent yet, pooled, or with the ended worker. */
  function AtRest(w: Which, l: Logger): nat {
    if !w.StopObject? then 0
    else
      (if l.stopper == Running || l.stopper == Stopping then 1 else 0)
      + (if l.pooled then 1 else 0)
      + (if l.worker == Finished then 1 else 0)
  }

  lemma TallyAppend(w: Which, events: seq<nat>, e: nat)
    ensures Tally(w, events + [e]) == Tally(w, events) + Weight(w, e)
  {
    assert (events + [e])[..|events|] == events;
  }

  lemma TallyEventOf(w: Which, events: seq<nat>, x: Item)
    ensures Tally(w, events + EventOf(x)) == Tally(w, events) + EventWeight(w, x)
  {
    if x.Sentinel? {
      assert events + [] == events;
    } else {
      TallyAppend(w, events, x.id);
    }
  }

  lemma {:induction false} TallyItemsAppend(w: Which, items: seq<Item>, x: Item)
    ensures TallyItems(w, items + [x]) == TallyItems(w, items) + ItemWeight(w, x)
  {
    if items == [] {
      assert [x][1..] == [] && items + [x] == [x];
    } else {
      assert (items + [x])[1..] == items[1..] + [x];
      TallyItemsAppend(w, items[1..], x);
    }
  }

  lemma {:induction false} HandsChange(w: Which, producers: seq<Producer>, p: nat, state: Producer)
    requires p < |producers|
    ensures TallyHands(w, producers[p := state]) + TallyHeld(w, producers[p]) == TallyHands(w, producers) + TallyHeld(w, state)
  {
    var changed := producers[p := state];
    hide TallyHeld;
    if p == 0 {
      assert changed[1..] == producers[1..];
    } else {
      assert changed[1..] == producers[1..][p - 1 := state];
      HandsChange(w, producers[1..], p - 1, state);
    }
  }

  lemma {:induction false} TallyNone(e: nat, events: seq<nat>)
    ensures Tally(Just(e), events) == 0 <==> e !in events
  {
    if events != [] {
      TallyNone(e, events[..|events| - 1]);
      assert events == events[..|events| - 1] + [events[|events| - 1]];
    }
  }

  lemma {:induction false} TallyEvery(events: seq<nat>)
    ensures Tally(Every, events) == |events|
  {
    if events != [] {
      TallyEvery(events[..|events| - 1]);
    }
  }

  /**
   * Every event offered is in use in exactly one place, has been reset, or was taken for the
   * sentinel; what has been reset is what was disabled, dropped or delivered; and there is one
   * sentinel object.
   */
  predicate Conserved(w: Which, l: Logger) {
    && Tally(w, l.offered) + (if w.StopObject? then 1 else 0)
         == Alive(w, l) + AtRest(w, l) + Tally(w, l.resets) + Tally(w, l.swallowed)
    && Tally(w, l.resets) + (if l.worker.Finishing? then Weight(w, l.worker.e) else 0)
         == Tally(w, l.disabled) + Tally(w, l.dropped) + Tally(w, l.delivered)
  }

  /** A producer's send moves its item from its hand to the buffer. */
  lemma SendConserves(w: Which, l: Logger, p: nat, own: Item)
    requires p < |l.producers| && Conserved(w, l) && TallyHeld(w, l.producers[p]) == ItemWeight(w, own)
    ensures Conserved(w, Sent(l, p, own))
  {
    hide Tally, TallyHands, TallyItems;
    HandsChange(w, l.producers, p, Idle);
    TallyItemsAppend(w, l.buf, own);
  }

  lemma {:induction false} OfferConserves(w: Which, l: Logger, p: nat, e: nat, enabled: bool, reused: bool)
    requires p < |l.producers| && Conserved(w, l) && l.producers[p] == Idle && (reused ==> l.pooled)
    ensures Conserved(w, Offered(l, p, e, enabled, reused))
  {
    hide Tally, TallyHands, TallyItems;
    HandsChange(w, l.producers, p, Offering(if reused then Masked(e) else Ev(e)));
    TallyAppend(w, l.offered, e);
    TallyAppend(w, l.disabled, e);
    TallyAppend(w, l.resets, e);
  }

  lemma MoveConserves(w: Which, l: Logger, p: nat, state: Producer)
    requires p < |l.producers| && Conserved(w, l) && TallyHeld(w, l.producers[p]) == TallyHeld(w, state)
    ensures Conserved(w, At(l, p, state))
  {
    hide Tally, TallyHands, TallyItems, TallyHeld;
    HandsChange(w, l.producers, p, state);
  }

  lemma PopConserves(w: Which, l: Logger, p: nat, own: Item)
    requires p < |l.producers| && Conserved(w, l) && l.producers[p] == Full(own) && l.buf != []
    ensures Conserved(w, At(l, p, Popped(own, l.buf[0])).(buf := l.buf[1..]))
  {
    hide Tally, TallyHands;
    HandsChange(w, l.producers, p, Popped(own, l.buf[0]));
  }

  /** A hand that lets an item go held no less than it. */
  lemma LetGo(w: Which, producers: seq<Producer>, p: nat, state: Producer, x: Item)
    requires p < |producers| && TallyHeld(w, producers[p]) == TallyHeld(w, state) + ItemWeight(w, x)
    ensures TallyHands(w, producers) == TallyHands(w, producers[p := state]) + ItemWeight(w, x)
  {
    hide TallyHands, TallyHeld, ItemWeight;
    HandsChange(w, producers, p, state);
  }

  /** Dropping an item from a hand counts it and resets it. */
  lemma DropConserves(w: Which, l: Logger, p: nat, state: Producer, x: Item)
    requires p < |l.producers| && Conserved(w, l) && TallyHeld(w, l.producers[p]) == TallyHeld(w, state) + ItemWeight(w, x)
    ensures Conserved(w, Discarded(At(l, p, state), x))
  {
    hide Conserved, TallyHeld, ItemWeight;
    if w.StopObject? {
      DropConservesObject(l, p, state, x);
    } else {
      DropConservesEvents(w, l, p, state, x);
    }
  }

  lemma DropConservesEvents(w: Which, l: Logger, p: nat, state: Producer, x: Item)
    requires !w.StopObject? && p < |l.producers| && Conserved(w, l)
    requires TallyHeld(w, l.producers[p]) == TallyHeld(w, state) + ItemWeight(w, x)
    ensures Conserved(w, Discarded(At(l, p, state), x))
  {
    hide Tally, TallyHands, TallyItems, TallyHeld, EventOf, EventWeight, TallyWork;
    LetGo(w, l.producers, p, state, x);
    TallyEventOf(w, l.dropped, x);
    TallyEventOf(w, l.resets, x);
  }

  lemma DropConservesObject(l: Logger, p: nat, state: Producer, x: Item)
    requires p < |l.producers| && Conserved(StopObject, l)
    requires TallyHeld(StopObject, l.producers[p]) == TallyHeld(StopObject, state) + ItemWeight(StopObject, x)
    ensures Conserved(StopObject, Discarded(At(l, p, state), x))
  {
    hide Tally, TallyHands, TallyItems, TallyHeld, EventOf, TallyWork;
    LetGo(StopObject, l.producers, p, state, x);
    NoStopAmongEvents(l.offered);
    NoStopAmongEvents(l.resets);
    NoStopAmongEvents(l.resets + EventOf(x));
    NoStopAmongEvents(l.dropped);
    NoStopAmongEvents(l.dropped + EventOf(x));
  }

  lemma {:induction false} NoStopAmongEvents(events: seq<nat>)
    ensures Tally(StopObject, events) == 0
  {
    if events != [] {
      NoStopAmongEvents(events[..|events| - 1]);
    }
  }

  lemma {:induction false} ProducerConserves(w: Which, l: Logger, p: nat, a: Action)
    requires p < |l.producers| && Conserved(w, l) && AppendStep(l, p, a).Some?
    ensures Conserved(w, AppendStep(l, p, a).value)
  {
    hide Conserved;
    match (a, l.producers[p])
    case (Offer(_, e, enabled, reused), Idle) => OfferConserves(w, l, p, e, enabled, reused);
    case (TrySend(_), Offering(own)) =>
      if Room(l) { SendConserves(w, l, p, own); } else { MoveConserves(w, l, p, Full(own)); }
    case (OnFull(_), Full(own)) =>
      match l.policy {
        case Block => SendConserves(w, l, p, own);
        case Discard => DropConserves(w, l, p, Idle, own);
        case DropOldest =>
          if l.buf == [] { MoveConserves(w, l, p, Retrying(own)); } else { PopConserves(w, l, p, own); }
      }
    case (Drop(_), Popped(own, oldest)) => DropConserves(w, l, p, Retrying(own), oldest);
    case (Retry(_), Retrying(own)) =>
      if Room(l) { SendConserves(w, l, p, own); } else { MoveConserves(w, l, p, Full(own)); }
  }

  lemma {:induction false} ReceiveConserves(w: Which, l: Logger)
    requires Conserved(w, l) && WorkerStep(l, Receive).Some?
    ensures Conserved(w, WorkerStep(l, Receive).value)
  {
    hide Tally, TallyHands, EventOf;
    TallyEventOf(w, l.swallowed, l.buf[0]);
  }

  lemma {:induction false} WorkerConserves(w: Which, l: Logger, a: Action)
    requires Conserved(w, l) && WorkerStep(l, a).Some?
    ensures Conserved(w, WorkerStep(l, a).value)
  {
    hide Tally, TallyHands;
    if a.Receive? {
      ReceiveConserves(w, l);
    } else if a.Deliver? {
      TallyAppend(w, l.delivered, l.worker.e);
    } else if a.Recycle? {
      TallyAppend(w, l.resets, l.worker.e);
    }
  }

  lemma StopConserves(w: Which, l: Logger, a: Action)
    requires Conserved(w, l) && StopStep(l, a).Some?
    ensures Conserved(w, StopStep(l, a).value)
  {
    hide Tally, TallyHands, TallyItems;
    TallyItemsAppend(w, l.buf, Sentinel);
  }

  lemma {:induction false} PerformConserves(w: Which, l: Logger, a: Action)
    requires Conserved(w, l) && Perform(l, a).Some?
    ensures Conserved(w, Perform(l, a).value)
  {
    hide Conserved, AppendStep, WorkerStep, StopStep;
    if ByProducer(a) {
      ProducerConserves(w, l, a.p, a);
    } else if ByWorker(a) {
      WorkerConserves(w, l, a);
    } else {
      StopConserves(w, l, a);
    }
  }

  // ---- The order of events ------------------------------------------------

  predicate Subsequence(a: seq<nat>, b: seq<nat>)
    decreases |b|
  {
    if a == [] then true
    else if b == [] then false
    else
      || (a[|a| - 1] == b[|b| - 1] && Subsequence(a[..|a| - 1], b[..|b| - 1]))
      || Subsequence(a, b[..|b| - 1])
  }

  lemma SubsequenceAppend(a: seq<nat>, b: seq<nat>, e: nat)
    requires Subsequence(a, b)
    ensures Subsequence(a + [e], b + [e])
  {
    assert (a + [e])[..|a|] == a && (b + [e])[..|b|] == b;
  }

  lemma {:induction false} SubsequenceWithout(a: seq<nat>, x: nat, c: seq<nat>, b: seq<nat>)
    requires Subsequence(a + [x] + c, b)
    ensures Subsequence(a + c, b)
    decreases |b|
  {
    var whole := a + [x] + c;
    var b' := b[..|b| - 1];
    if c == [] {
      assert a + c == a && whole[..|whole| - 1] == a;
      if Subsequence(whole, b') {
        SubsequenceWithout(a, x, c, b');
      }
    } else {
      var c' := c[..|c| - 1];
      assert whole[..|whole| - 1] == a + [x] + c' && (a + c)[..|a + c| - 1] == a + c';
      assert (a + c)[|a + c| - 1] == c[|c| - 1] == whole[|whole| - 1];
      if Subsequence(whole, b') {
        SubsequenceWithout(a, x, c, b');
      } else {
        SubsequenceWithout(a, x, c', b');
      }
    }
  }

  function EventsIn(items: seq<Item>): seq<nat> {
    if items == [] then [] else EventOf(items[0]) + EventsIn(items[1..])
  }

  lemma {:induction false} EventsAppend(items: seq<Item>, x: Item)
    ensures EventsIn(items + [x]) == EventsIn(items) + EventOf(x)
  {
    hide EventOf;
    if items == [] {
      assert [x][1..] == [] && items + [x] == [x] && EventsIn([x]) == EventOf(x) + EventsIn([]);
    } else {
      assert (items + [x])[1..] == items[1..] + [x];
      EventsAppend(items[1..], x);
      assert EventsIn(items + [x]) == EventOf(items[0]) + (EventsIn(items[1..]) + EventOf(x));
    }
  }

  function Ahead(l: Logger): seq<nat> {
    l.delivered + if l.worker.Handling? then [l.worker.e] else []
  }

  /** The events delivered, then the one being handled, then those buffered. */
  function Pipeline(l: Logger): seq<nat> {
    Ahead(l) + EventsIn(l.buf)
  }

  /** Events keep the order of their sends. */
  predicate Ordered(l: Logger) {
    Subsequence(Pipeline(l), l.sends)
  }

  /** Neither the sentinel nor its object has been taken from Stop. */
  predicate Unpooled(l: Logger) {
    && !l.pooled && l.swallowed == []
    && (forall i :: 0 <= i < |l.buf| ==> !l.buf[i].Masked?)
    && (forall p :: 0 <= p < |l.producers| && l.producers[p] != Idle ==>
          l.producers[p].own.Ev? && (l.producers[p].Popped? ==> l.producers[p].oldest.Ev?))
  }

  /** Only drop-oldest takes events, or the sentinel, out of the buffer. */
  predicate Undisturbed(l: Logger) {
    l.policy != DropOldest ==>
      && Unpooled(l) && Pipeline(l) == l.sends
      && (forall p :: 0 <= p < |l.producers| ==> !l.producers[p].Popped?)
  }

  lemma PipelineAfterSend(l: Logger, p: nat, own: Item)
    requires p < |l.producers|
    ensures Pipeline(Sent(l, p, own)) == Pipeline(l) + EventOf(own)
  {
    hide EventsIn;
    EventsAppend(l.buf, own);
  }

  lemma SendKeepsOrder(l: Logger, p: nat, own: Item)
    requires p < |l.producers| && Ordered(l)
    ensures Ordered(Sent(l, p, own))
  {
    hide Subsequence, EventsIn, Pipeline;
    PipelineAfterSend(l, p, own);
    if own.Sentinel? {
      assert Pipeline(l) + [] == Pipeline(l) && l.sends + [] == l.sends;
    } else {
      SubsequenceAppend(Pipeline(l), l.sends, own.id);
    }
  }

  /** Losing the front of the buffer loses at most one event of the pipeline. */
  lemma PopKeepsOrder(l: Logger, l': Logger)
    requires Ordered(l) && l.buf != [] && l'.buf == l.buf[1..] && l'.sends == l.sends && Ahead(l') == Ahead(l)
    ensures Ordered(l')
  {
    hide Subsequence;
    var rest := EventsIn(l.buf[1..]);
    if l.buf[0].Sentinel? {
      assert EventsIn(l.buf) == rest;
    } else {
      assert Pipeline(l) == Ahead(l) + [l.buf[0].id] + rest;
      SubsequenceWithout(Ahead(l), l.buf[0].id, rest, l.sends);
    }
  }

  lemma ProducerKeepsOrder(l: Logger, p: nat, a: Action)
    requires p < |l.producers| && Ordered(l) && AppendStep(l, p, a).Some?
    ensures Ordered(AppendStep(l, p, a).value)
  {
    hide Subsequence, EventsIn;
    var state := l.producers[p];
    if state != Idle && (a.TrySend? || a.OnFull? || a.Retry?) {
      SendKeepsOrder(l, p, state.own);
      if a.OnFull? && l.policy == DropOldest && l.buf != [] {
        PopKeepsOrder(l, AppendStep(l, p, a).value);
      }
    }
  }

  lemma WorkerKeepsOrder(l: Logger, a: Action)
    requires Ordered(l) && WorkerStep(l, a).Some?
    ensures Ordered(WorkerStep(l, a).value)
  {
    hide Subsequence;
    if a.Receive? && !l.buf[0].Ev? {
      PopKeepsOrder(l, WorkerStep(l, a).value);
    } else {
      assert Pipeline(WorkerStep(l, a).value) == Pipeline(l);
    }
  }

  lemma StopKeepsPipeline(l: Logger, a: Action)
    requires StopStep(l, a).Some?
    ensures Pipeline(StopStep(l, a).value) == Pipeline(l)
  {
    hide EventsIn;
    EventsAppend(l.buf, Sentinel);
    assert EventsIn(l.buf) + [] == EventsIn(l.buf);
  }

  lemma ProducerKeepsUndisturbed(l: Logger, p: nat, a: Action)
    requires p < |l.producers| && Undisturbed(l) && AppendStep(l, p, a).Some?
    ensures Undisturbed(AppendStep(l, p, a).value)
  {
    hide EventsIn, Pipeline;
    var state := l.producers[p];
    if state != Idle {
      PipelineAfterSend(l, p, state.own);
    }
    var l' := AppendStep(l, p, a).value;
    assert l'.buf == l.buf && Ahead(l') == Ahead(l) ==> Pipeline(l') == Pipeline(l) by {
      SamePipeline(l, l');
    }
  }

  lemma SamePipeline(l: Logger, l': Logger)
    ensures l'.buf == l.buf && Ahead(l') == Ahead(l) ==> Pipeline(l') == Pipeline(l)
  {
  }

  lemma {:induction false} WorkerKeepsUndisturbed(l: Logger, a: Action)
    requires Undisturbed(l) && WorkerStep(l, a).Some?
    ensures Undisturbed(WorkerStep(l, a).value)
  {
    var l' := WorkerStep(l, a).value;
    if l.policy != DropOldest {
      assert a.Receive? ==> !l.buf[0].Masked?;
      assert l.swallowed + [] == l.swallowed;
      assert Pipeline(l') == Pipeline(l);
    }
  }

  lemma StopKeepsUndisturbed(l: Logger, a: Action)
    requires Undisturbed(l) && StopStep(l, a).Some?
    ensures Undisturbed(StopStep(l, a).value)
  {
    StopKeepsPipeline(l, a);
    hide Pipeline;
  }

  // ---- The sentinel -------------------------------------------------------

  predicate NoSentinel(items: seq<Item>) {
    forall i :: 0 <= i < |items| ==> items[i].Ev?
  }

  /** What the channel holds at each stage of Stop, if no Append runs beside it. */
  predicate StopInv(l: Logger) {
    && !l.overlap && Unpooled(l)
    && (l.stopper != Running ==> Quiet(l.producers))
    && (match l.stopper
        case Running => NoSentinel(l.buf) && l.worker != Finished
        case Stopping => NoSentinel(l.buf) && l.worker != Finished
        case Awaiting =>
          if l.worker == Finished then l.buf == []
          else l.buf != [] && l.buf[|l.buf| - 1] == Sentinel && NoSentinel(l.buf[..|l.buf| - 1])
        case Stopped => l.worker == Finished && l.buf == [])
  }

  /** The counter counts the dropped events and nothing else. */
  predicate CountInv(l: Logger) {
    |l.buf| <= l.size && l.counter == |l.dropped|
  }

  lemma ProducerKeepsStopInv(l: Logger, p: nat, a: Action)
    requires p < |l.producers| && StopInv(l) && CountInv(l) && AppendStep(l, p, a).Some?
    ensures StopInv(AppendStep(l, p, a).value) && CountInv(AppendStep(l, p, a).value)
  {
  }

  lemma WorkerKeepsStopInv(l: Logger, a: Action)
    requires StopInv(l) && CountInv(l) && WorkerStep(l, a).Some?
    ensures StopInv(WorkerStep(l, a).value) && CountInv(WorkerStep(l, a).value)
  {
    if a.Receive? && l.stopper == Awaiting {
      var rest := l.buf[1..];
      if |l.buf| > 1 {
        assert l.buf[0] == l.buf[..|l.buf| - 1][0];
        assert rest[..|rest| - 1] == l.buf[..|l.buf| - 1][1..];
      }
    }
  }

  lemma StopKeepsStopInv(l: Logger, a: Action)
    requires StopInv(l) && CountInv(l) && StopStep(l, a).Some?
    ensures StopInv(StopStep(l, a).value) && CountInv(StopStep(l, a).value)
  {
    assert (l.buf + [Sentinel])[..|l.buf|] == l.buf;
  }

  // ---- Every run ----------------------------------------------------------

  function Fresh(policy: Policy, size: nat, overlap: bool, producers: nat): Logger {
    Logger(policy, size, overlap, [], seq(producers, _ => Idle), Reading, Running, false,
           [], [], [], [], [], [], 0, [])
  }

  predicate Distinct(events: seq<nat>) {
    forall i, j :: 0 <= i < j < |events| ==> events[i] != events[j]
  }

  /** A producer's own item carries an event, and the worker takes at most one event for the sentinel. */
  predicate Owning(l: Logger) {
    && (forall p :: 0 <= p < |l.producers| && l.producers[p] != Idle ==> !l.producers[p].own.Sentinel?)
    && (l.worker != Finished ==> l.swallowed == []) && |l.swallowed| <= 1
  }

  lemma ProducerKeepsOwning(l: Logger, p: nat, a: Action)
    requires p < |l.producers| && Owning(l) && AppendStep(l, p, a).Some?
    ensures Owning(AppendStep(l, p, a).value)
  {
    OthersWait(l, p, a);
    KeepsOwnItem(l, p, a);
    hide AppendStep;
  }

  /** A step of one producer leaves the others, the worker and what was swallowed alone. */
  lemma OthersWait(l: Logger, p: nat, a: Action)
    requires p < |l.producers| && AppendStep(l, p, a).Some?
    ensures var l' := AppendStep(l, p, a).value;
            && l'.worker == l.worker && l'.swallowed == l.swallowed && |l'.producers| == |l.producers|
            && (forall q :: 0 <= q < |l.producers| && q != p ==> l'.producers[q] == l.producers[q])
  {
  }

  lemma KeepsOwnItem(l: Logger, p: nat, a: Action)
    requires p < |l.producers| && AppendStep(l, p, a).Some?
    ensures |AppendStep(l, p, a).value.producers| == |l.producers|
    ensures var state := AppendStep(l, p, a).value.producers[p];
            state == Idle || (if l.producers[p] == Idle then !state.own.Sentinel? else state.own == l.producers[p].own)
  {
  }

  lemma {:induction false} PerformKeepsOwning(l: Logger, a: Action)
    requires Owning(l) && Perform(l, a).Some?
    ensures Owning(Perform(l, a).value)
  {
    hide AppendStep;
    if ByProducer(a) {
      hide Owning;
      ProducerKeepsOwning(l, a.p, a);
    }
  }

  ghost predicate Inv(l: Logger) {
    && (forall w :: Conserved(w, l)) && Ordered(l) && Undisturbed(l) && Distinct(l.offered) && Owning(l)
    && (!l.overlap ==> StopInv(l) && CountInv(l))
  }

  lemma PerformKeepsDistinct(l: Logger, a: Action)
    requires Distinct(l.offered) && Perform(l, a).Some?
    ensures Distinct(Perform(l, a).value.offered)
  {
  }

  lemma PerformKeepsConfig(l: Logger, a: Action)
    requires Perform(l, a).Some?
    ensures var l' := Perform(l, a).value;
            l'.policy == l.policy && l'.overlap == l.overlap && l'.size == l.size && |l'.producers| == |l.producers|
  {
    hide AppendStep;
    if ByProducer(a) {
      AppendKeepsConfig(l, a.p, a);
    }
  }

  lemma AppendKeepsConfig(l: Logger, p: nat, a: Action)
    requires p < |l.producers| && AppendStep(l, p, a).Some?
    ensures var l' := AppendStep(l, p, a).value;
            l'.policy == l.policy && l'.overlap == l.overlap && l'.size == l.size && |l'.producers| == |l.producers|
  {
  }

  lemma PerformKeepsOrder(l: Logger, a: Action)
    requires Ordered(l) && Perform(l, a).Some?
    ensures Ordered(Perform(l, a).value)
  {
    hide AppendStep, WorkerStep, StopStep, Pipeline, Subsequence;
    if ByProducer(a) {
      ProducerKeepsOrder(l, a.p, a);
    } else if ByWorker(a) {
      WorkerKeepsOrder(l, a);
    } else {
      StopKeepsPipeline(l, a);
      StopKeepsSends(l, a);
    }
  }

  lemma StopKeepsSends(l: Logger, a: Action)
    requires StopStep(l, a).Some?
    ensures StopStep(l, a).value.sends == l.sends
  {
  }

  lemma PerformKeepsUndisturbed(l: Logger, a: Action)
    requires Undisturbed(l) && Perform(l, a).Some?
    ensures Undisturbed(Perform(l, a).value)
  {
    hide Undisturbed, AppendStep, WorkerStep, StopStep;
    if ByProducer(a) {
      ProducerKeepsUndisturbed(l, a.p, a);
    } else if ByWorker(a) {
      WorkerKeepsUndisturbed(l, a);
    } else {
      StopKeepsUndisturbed(l, a);
    }
  }

  lemma {:induction false} PerformKeepsStopInv(l: Logger, a: Action)
    requires StopInv(l) && CountInv(l) && Perform(l, a).Some?
    ensures StopInv(Perform(l, a).value) && CountInv(Perform(l, a).value)
  {
    hide StopInv, CountInv, AppendStep, WorkerStep, StopStep;
    if ByProducer(a) {
      ProducerKeepsStopInv(l, a.p, a);
    } else if ByWorker(a) {
      WorkerKeepsStopInv(l, a);
    } else {
      StopKeepsStopInv(l, a);
    }
  }

  lemma PerformKeepsInv(l: Logger, a: Action)
    requires Inv(l) && Perform(l, a).Some?
    ensures Inv(Perform(l, a).value)
  {
    hide Conserved, Ordered, Undisturbed, Perform, Distinct, Owning, StopInv, CountInv;
    forall w
      ensures Conserved(w, Perform(l, a).value)
    {
      PerformConserves(w, l, a);
    }
    PerformKeepsOrder(l, a);
    PerformKeepsUndisturbed(l, a);
    PerformKeepsDistinct(l, a);
    PerformKeepsOwning(l, a);
    PerformKeepsConfig(l, a);
    if !l.overlap {
      PerformKeepsStopInv(l, a);
    }
  }

  lemma {:induction false} IdleHandsAreEmpty(w: Which, producers: seq<Producer>)
    requires Quiet(producers)
    ensures TallyHands(w, producers) == 0
  {
    if producers != [] {
      IdleHandsAreEmpty(w, producers[1..]);
    }
  }

  lemma FreshInv(policy: Policy, size: nat, overlap: bool, producers: nat)
    ensures Inv(Fresh(policy, size, overlap, producers))
  {
    var l := Fresh(policy, size, overlap, producers);
    forall w
      ensures Conserved(w, l)
    {
      IdleHandsAreEmpty(w, l.producers);
    }
  }

  lemma {:induction false} PlayKeepsInv(l: Logger, actions: seq<Action>)
    requires Inv(l) && Play(l, actions).Some?
    ensures var l' := Play(l, actions).value;
            Inv(l') && l'.policy == l.policy && l'.overlap == l.overlap && l'.size == l.size && |l'.producers| == |l.producers|
  {
    hide Inv, Perform;
    if actions != [] {
      var rest, last := actions[..|actions| - 1], actions[|actions| - 1];
      PlayKeepsInv(l, rest);
      PerformKeepsInv(Play(l, rest).value, last);
      PerformKeepsConfig(Play(l, rest).value, last);
    }
  }

  /** A state some run reaches. */
  ghost predicate Reached(l: Logger) {
    exists policy, size, overlap, producers, actions ::
      Play(Fresh(policy, size, overlap, producers), actions) == Some(l)
  }

  lemma ReachedInv(l: Logger)
    requires Reached(l)
    ensures Inv(l)
  {
    var policy, size, overlap, producers, actions :|
      Play(Fresh(policy, size, overlap, producers), actions) == Some(l);
    FreshInv(policy, size, overlap, producers);
    PlayKeepsInv(Fresh(policy, size, overlap, producers), actions);
  }

  lemma {:induction false} DistinctTally(events: seq<nat>, e: nat)
    requires Distinct(events)
    ensures Tally(Just(e), events) <= 1
  {
    if events != [] {
      var front := events[..|events| - 1];
      DistinctTally(front, e);
      TallyNone(e, front);
    }
  }

  /**
   * In every interleaving, under every policy: an event is reset at most once, and once it
   * has been reset no producer, no buffer slot and no worker has it any more. Until then
   * exactly one of them has it, unless the worker took it for the sentinel, which can happen
   * only with Append beside Stop under drop-oldest.
   */
  lemma ResetOnceAndNeverUsedAfter(l: Logger, e: nat)
    requires Reached(l)
    ensures Tally(Just(e), l.resets) <= 1
    ensures e in l.resets ==> Alive(Just(e), l) == 0 && e !in l.swallowed
    ensures e in l.offered && e !in l.resets ==> Alive(Just(e), l) == if e in l.swallowed then 0 else 1
    ensures l.swallowed != [] ==> l.overlap && l.policy == DropOldest
  {
    ReachedInv(l);
    hide Play, Ordered, Distinct, Alive, Tally;
    assert Conserved(Just(e), l);
    DistinctTally(l.offered, e);
    TallyNone(e, l.resets);
    TallyNone(e, l.offered);
    TallyNone(e, l.swallowed);
  }

  /**
   * With no Append beside Stop and no Append under way, the events that were enabled are those
   * delivered, the one being handled, those buffered, and as many as the counter says.
   */
  lemma EventsAreConserved(l: Logger)
    requires Reached(l) && !l.overlap && Quiet(l.producers)
    ensures |l.offered| - |l.disabled| ==
              |l.delivered| + (if l.worker.Handling? then 1 else 0) + |EventsIn(l.buf)| + l.counter
  {
    ReachedInv(l);
    hide Play, Ordered, Distinct, Tally, StopInv;
    assert Conserved(Every, l);
    assert l.swallowed == [] by {
      assert StopInv(l);
      NothingSwallowed(l);
    }
    IdleHandsAreEmpty(Every, l.producers);
    TallyEvery(l.offered);
    TallyEvery(l.disabled);
    TallyEvery(l.delivered);
    TallyEvery(l.dropped);
    TallyEvery(l.resets);
    TallyEvery(l.swallowed);
    BufferedEvents(l.buf);
  }

  lemma NothingSwallowed(l: Logger)
    requires StopInv(l)
    ensures l.swallowed == []
  {
  }

  lemma {:induction false} BufferedEvents(items: seq<Item>)
    ensures TallyItems(Every, items) == |EventsIn(items)|
  {
    if items != [] {
      BufferedEvents(items[1..]);
    }
  }

  /**
   * Delivered events followed by buffered ones are in the order of their sends; under block
   * and discard they are exactly the events sent.
   */
  lemma OrderIsKept(l: Logger)
    requires Reached(l)
    ensures Subsequence(Pipeline(l), l.sends)
    ensures l.policy != DropOldest ==> Pipeline(l) == l.sends
  {
    ReachedInv(l);
    hide Subsequence, Pipeline, Play, Conserved;
  }

  /**
   * When Stop returns and no Append ran beside it, the buffer is empty and the worker has
   * ended: every event that was enabled has been delivered or counted as dropped, and every
   * event has been reset.
   */
  lemma StopFlushes(l: Logger, e: nat)
    requires Reached(l) && !l.overlap && l.stopper == Stopped
    ensures l.buf == [] && l.worker == Finished
    ensures e in l.offered <==> e in l.resets
    ensures e in l.offered <==> e in l.disabled || e in l.dropped || e in l.delivered
    ensures l.counter == |l.dropped|
    ensures l.policy != DropOldest ==> l.delivered == l.sends
  {
    ReachedInv(l);
    hide Play, Distinct, Subsequence, Tally;
    assert Conserved(Just(e), l);
    IdleHandsAreEmpty(Just(e), l.producers);
    TallyNone(e, l.offered);
    TallyNone(e, l.resets);
    TallyNone(e, l.disabled);
    TallyNone(e, l.dropped);
    TallyNone(e, l.delivered);
    TallyNone(e, l.swallowed);
    assert Pipeline(l) == l.delivered;
  }

  // ---- Putting runs together ----------------------------------------------

  lemma PlayMore(l: Logger, actions: seq<Action>, a: Action)
    requires Play(l, actions).Some?
    ensures Play(l, actions + [a]) == Perform(Play(l, actions).value, a)
  {
    hide Perform;
    assert (actions + [a])[..|actions|] == actions;
  }

  lemma PlayOne(l: Logger, a: Action)
    ensures Play(l, [a]) == Perform(l, a)
  {
    assert [a][..0] == [];
  }

  lemma {:induction false} PlayOn(l: Logger, a: seq<Action>, b: seq<Action>)
    requires Play(l, a).Some?
    ensures Play(l, a + b) == Play(Play(l, a).value, b)
  {
    hide Perform;
    if b == [] {
      assert a + b == a;
    } else {
      PlayOn(l, a, b[..|b| - 1]);
      assert (a + b)[..|a + b| - 1] == a + b[..|b| - 1];
    }
  }

  lemma ReachedOn(l: Logger, actions: seq<Action>)
    requires Reached(l) && Play(l, actions).Some?
    ensures Reached(Play(l, actions).value)
  {
    hide Play;
    var policy, size, overlap, producers, first :|
      Play(Fresh(policy, size, overlap, producers), first) == Some(l);
    PlayOn(Fresh(policy, size, overlap, producers), first, actions);
  }
}
