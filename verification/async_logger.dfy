// The methods of the asynchronous logger (log/plugin_logger.go), each run to its end without
// interruption. AsyncProtocol has the interleavings; AppendIsPlay and DrainIsPlay say which
// of its runs these methods are. With no Append beside Stop the sentinel's object never
// reaches the event pool, so every event here has an object of its own.
module AsyncLoggers {
  import opened Options
  import opened AsyncProtocol

  function Buffered(l: Logger, e: nat): Logger {
    l.(buf := l.buf + [Ev(e)], sends := l.sends + [e])
  }

  /** What one uninterrupted Append does; None while it has to wait for room. */
  function Appended(l: Logger, e: nat, enabled: bool): Option<Logger> {
    var offered := l.(offered := l.offered + [e]);
    if !enabled then Some(offered.(disabled := l.disabled + [e], resets := l.resets + [e]))
    else if Room(l) then Some(Buffered(offered, e))
    else
      match l.policy
      case Block => None
      case Discard => Some(Discarded(offered, Ev(e)))
      case DropOldest =>
        if l.buf == [] then None
        else Some(Buffered(Discarded(offered, l.buf[0]).(buf := l.buf[1..]), e))
  }

  lemma AppendedCases(l: Logger, e: nat, enabled: bool)
    ensures var offered := l.(offered := l.offered + [e]);
            && (!enabled ==> Appended(l, e, enabled) == Some(offered.(disabled := l.disabled + [e], resets := l.resets + [e])))
            && (enabled && Room(l) ==> Appended(l, e, enabled) == Some(Buffered(offered, e)))
            && (enabled && !Room(l) && l.policy == Block ==> Appended(l, e, enabled) == None)
            && (enabled && !Room(l) && l.policy == Discard ==> Appended(l, e, enabled) == Some(Discarded(offered, Ev(e))))
            && (enabled && !Room(l) && l.policy == DropOldest && l.buf != [] ==>
                  Appended(l, e, enabled) == Some(Buffered(Discarded(offered, l.buf[0]).(buf := l.buf[1..]), e)))
  {
  }

  lemma EventOfEvent(e: nat)
    ensures EventOf(Ev(e)) == [e]
  {
  }

  /** What the worker does with what is buffered, up to the sentinel if there is one. */
  function Drained(l: Logger): Logger
    decreases |l.buf|
  {
    if l.worker != Reading || l.buf == [] then l
    else if !l.buf[0].Ev? then Received(l)
    else
      var e := l.buf[0].id;
      Drained(l.(buf := l.buf[1..], delivered := l.delivered + [e], resets := l.resets + [e]))
  }

  class AsyncLogger {
    const policy: Policy
    const size: nat
    var buf: seq<Item>
    var discardCounter: nat
    var delivered: seq<nat>       // what the appenders were given
    var resets: seq<nat>          // what went back to the pool
    ghost var offered: seq<nat>
    ghost var disabled: seq<nat>
    ghost var sends: seq<nat>
    ghost var dropped: seq<nat>
    ghost var pooled: bool        // whether the sentinel's object went there too
    ghost var swallowed: seq<nat>
    var worker: Worker            // Finished once the wait channel is closed
    ghost var stopper: Stopper

    constructor (policy: Policy, size: nat)
      ensures this.policy == policy && this.size == size && Abs() == Fresh(policy, size, false, 1)
    {
      this.policy, this.size := policy, size;
      buf, discardCounter, delivered, resets := [], 0, [], [];
      offered, disabled, sends, dropped := [], [], [], [];
      pooled, swallowed := false, [];
      worker, stopper := Reading, Running;
      new;
      assert Abs().producers == Fresh(policy, size, false, 1).producers;
    }

    ghost function Abs(): Logger
      reads this
    {
      Logger(policy, size, false, buf, [Idle], worker, stopper, pooled,
             offered, disabled, sends, delivered, dropped, swallowed, discardCounter, resets)
    }

    /** A send that does not wait. */
    method TrySend(x: Item) returns (sent: bool)
      modifies this`buf
      ensures sent <==> |old(buf)| < size
      ensures buf == if sent then old(buf) + [x] else old(buf)
    {
      sent := |buf| < size;
      if sent {
        buf := buf + [x];
      }
    }

    /** A receive that does not wait. */
    method TryReceive() returns (x: Option<Item>)
      modifies this`buf
      ensures old(buf) == [] ==> x == None && buf == []
      ensures old(buf) != [] ==> x == Some(old(buf)[0]) && buf == old(buf)[1..]
    {
      if buf == [] {
        return None;
      }
      x, buf := Some(buf[0]), buf[1..];
    }

    /** The object goes back to the pool, whatever it carries. */
    method Reset(x: Item)
      modifies this`resets, this`pooled
      ensures resets == old(resets) + EventOf(x)
      ensures pooled == (old(pooled) || !x.Ev?)
    {
      resets := resets + if x.Sentinel? then [] else [x.id];
      pooled := pooled || !x.Ev?;
    }

    /** The event goes into the channel, if there is room. */
    method TrySendEvent(e: nat) returns (sent: bool)
      modifies this`buf, this`sends
      ensures sent <==> Room(old(Abs()))
      ensures Abs() == if sent then Buffered(old(Abs()), e) else old(Abs())
    {
      sent := TrySend(Ev(e));
      if sent {
        sends := sends + [e];
      }
    }

    method CountOut(x: Item)
      modifies this`discardCounter, this`dropped, this`resets, this`pooled
      ensures Abs() == Discarded(old(Abs()), x)
    {
      discardCounter := discardCounter + 1;
      Reset(x);
      dropped := dropped + EventOf(x);
    }

    /** Takes one item out to make room; an empty channel has room already. */
    method DropOne()
      modifies this`buf, this`discardCounter, this`dropped, this`resets, this`pooled
      ensures old(buf) == [] ==> Abs() == old(Abs())
      ensures old(buf) != [] ==> Abs() == Discarded(old(Abs()), old(buf)[0]).(buf := old(buf)[1..])
    {
      var x := TryReceive();
      if x.Some? {
        CountOut(x.value);
      }
    }

    /** Answers false where the goroutine would go on waiting for room. */
    method Append(e: nat, enabled: bool) returns (done: bool)
      requires 0 < size && |buf| <= size
      modifies this
      ensures done <==> Appended(old(Abs()), e, enabled).Some?
      ensures done ==> Appended(old(Abs()), e, enabled) == Some(Abs())
      ensures !done ==> Abs() == old(Abs()).(offered := old(offered) + [e])
      ensures |buf| <= size
      ensures done <==> !enabled || |old(buf)| < size || policy != Block
      ensures !enabled || !done ==> buf == old(buf) && discardCounter == old(discardCounter)
      ensures enabled && |old(buf)| < size ==> buf == old(buf) + [Ev(e)] && discardCounter == old(discardCounter)
      ensures enabled && |old(buf)| == size && policy == DropOldest ==>
                buf == old(buf)[1..] + [Ev(e)] && discardCounter == old(discardCounter) + 1
      ensures enabled && |old(buf)| == size && policy == Discard ==>
                buf == old(buf) && discardCounter == old(discardCounter) + 1 && resets == old(resets) + [e]
    {
      AppendedCases(Abs(), e, enabled);
      hide Appended, EventOf;
      offered := offered + [e];
      if !enabled {
        EventOfEvent(e);
        Reset(Ev(e));
        disabled := disabled + [e];
        return true;
      }
      done := TrySendEvent(e);
      if done {
        return;
      }
      match policy {
        case DropOldest =>
          while !done
            invariant !done ==> |buf| == size && Abs() == old(Abs()).(offered := old(offered) + [e])
            invariant done ==> Appended(old(Abs()), e, enabled) == Some(Abs()) && |buf| <= size
            decreases !done
          {
            DropOne();
            done := TrySendEvent(e);
          }
        case Block =>
          return false;
        case Discard =>
          EventOfEvent(e);
          CountOut(Ev(e));
          return true;
      }
    }

    /** The worker's loop, until the sentinel or an empty channel. */
    method Work()
      modifies this
      ensures Abs() == Drained(old(Abs()))
      ensures |buf| <= |old(buf)|
    {
      var running := worker == Reading;
      while running && buf != []
        invariant running ==> worker == Reading && Drained(Abs()) == Drained(old(Abs()))
        invariant !running ==> Abs() == Drained(old(Abs()))
        invariant |buf| <= |old(buf)|
        decreases |buf|
      {
        var x := TryReceive();
        if x.value.Ev? {
          delivered := delivered + [x.value.id];
          Reset(x.value);
        } else {
          worker := Finished;
          swallowed := swallowed + EventOf(x.value);
          running := false;
        }
      }
    }

    /** Stop with the worker keeping up: everything buffered is delivered, in order, before it returns. */
    method Stop()
      requires 0 < size && NoSentinel(buf) && worker == Reading && stopper == Running
      modifies this
      ensures buf == [] && worker == Finished && stopper == Stopped
      ensures delivered == old(delivered) + EventsIn(old(buf))
      ensures resets == old(resets) + EventsIn(old(buf))
      ensures discardCounter == old(discardCounter)
    {
      DrainedEvents(Abs());
      stopper := Stopping;
      Work();
      var sent := TrySend(Sentinel);
      stopper := Awaiting;
      Work();
      stopper := Stopped;
    }
  }

  /** Rejects a buffer that is too small. */
  method Start(policy: Policy, bufferSize: int) returns (logger: AsyncLogger?)
    ensures logger == null <==> bufferSize < MIN_BUFFER_SIZE
    ensures logger != null ==> fresh(logger) && logger.Abs() == Fresh(policy, bufferSize, false, 1)
  {
    if bufferSize < MIN_BUFFER_SIZE {
      return null;
    }
    logger := new AsyncLogger(policy, bufferSize);
  }

  /** Draining a buffer without a sentinel delivers and resets what was in it. */
  lemma {:induction false} DrainedEvents(l: Logger)
    requires NoSentinel(l.buf) && l.worker == Reading
    ensures forall stopper :: Drained(l.(stopper := stopper)) ==
              l.(stopper := stopper, buf := [],
                 delivered := l.delivered + EventsIn(l.buf), resets := l.resets + EventsIn(l.buf))
    decreases |l.buf|
  {
    if l.buf == [] {
      assert l.delivered + [] == l.delivered && l.resets + [] == l.resets;
    } else {
      var e := l.buf[0].id;
      var next := l.(buf := l.buf[1..], delivered := l.delivered + [e], resets := l.resets + [e]);
      DrainedEvents(next);
      assert l.delivered + EventsIn(l.buf) == next.delivered + EventsIn(next.buf);
      assert l.resets + EventsIn(l.buf) == next.resets + EventsIn(next.buf);
    }
  }

  /** The steps of the protocol that an uninterrupted Append takes. */
  function AppendActions(l: Logger, e: nat, enabled: bool): seq<Action> {
    if !enabled then [Offer(0, e, false, false)]
    else if Room(l) then [Offer(0, e, true, false), TrySend(0)]
    else
      [Offer(0, e, true, false), TrySend(0), OnFull(0)] + if l.policy == DropOldest then [Drop(0), Retry(0)] else []
  }

  lemma PlayTwo(l: Logger, a: Action, b: Action)
    requires Perform(l, a).Some?
    ensures Play(l, [a]) == Perform(l, a)
    ensures Play(l, [a, b]) == Perform(Perform(l, a).value, b)
  {
    hide Perform;
    PlayMore(l, [], a);
    assert [] + [a] == [a];
    PlayMore(l, [a], b);
    assert [a] + [b] == [a, b];
  }

  /** The one producer in a given state. */
  function As(l: Logger, state: Producer): Logger {
    l.(producers := [state])
  }

  lemma OneProducer(l: Logger, state: Producer)
    requires |l.producers| == 1
    ensures At(l, 0, state) == As(l, state)
  {
    assert l.producers[0 := state] == [state];
  }

  lemma OfferStep(l: Logger, e: nat)
    requires l.producers == [Idle] && l.stopper == Running && e !in l.offered
    ensures Perform(l, Offer(0, e, true, false)) == Some(As(l, Offering(Ev(e))).(offered := l.offered + [e]))
    ensures Perform(l, Offer(0, e, false, false))
              == Some(l.(offered := l.offered + [e], disabled := l.disabled + [e], resets := l.resets + [e]))
  {
    OneProducer(l, Offering(Ev(e)));
  }

  lemma TrySendStep(l: Logger, e: nat)
    requires l.producers == [Offering(Ev(e))] && l.stopper == Running
    ensures Perform(l, TrySend(0)) == Some(if Room(l) then As(Buffered(l, e), Idle) else As(l, Full(Ev(e))))
  {
    OneProducer(l, Idle);
    OneProducer(l, Full(Ev(e)));
  }

  lemma OnFullStep(l: Logger, e: nat)
    requires l.producers == [Full(Ev(e))] && l.stopper == Running && !Room(l) && l.buf != []
    ensures l.policy == Discard ==> Perform(l, OnFull(0)) == Some(As(Discarded(l, Ev(e)), Idle))
    ensures l.policy == DropOldest ==>
              Perform(l, OnFull(0)) == Some(As(l, Popped(Ev(e), l.buf[0])).(buf := l.buf[1..]))
  {
    OneProducer(l, Idle);
    OneProducer(l, Popped(Ev(e), l.buf[0]));
  }

  lemma DropStep(l: Logger, e: nat, x: Item)
    requires l.producers == [Popped(Ev(e), x)] && l.stopper == Running
    ensures Perform(l, Drop(0)) == Some(As(Discarded(l, x), Retrying(Ev(e))))
  {
    OneProducer(l, Retrying(Ev(e)));
  }

  lemma RetryStep(l: Logger, e: nat)
    requires l.producers == [Retrying(Ev(e))] && l.stopper == Running && Room(l)
    ensures Perform(l, Retry(0)) == Some(As(Buffered(l, e), Idle))
  {
    OneProducer(l, Idle);
  }

  /** An uninterrupted Append is a run of the protocol. */
  lemma AppendIsPlay(l: Logger, e: nat, enabled: bool)
    requires l.producers == [Idle] && l.stopper == Running && e !in l.offered && 0 < l.size && |l.buf| <= l.size
    requires Appended(l, e, enabled).Some?
    ensures Play(l, AppendActions(l, e, enabled)) == Appended(l, e, enabled)
  {
    hide Play, Perform;
    OfferStep(l, e);
    PlayTwo(l, Offer(0, e, enabled, false), TrySend(0));
    if enabled {
      TrySendStep(As(l, Offering(Ev(e))).(offered := l.offered + [e]), e);
      if !Room(l) {
        FullAppendIsPlay(l, e);
      }
    }
  }

  lemma {:induction false} FullAppendIsPlay(l: Logger, e: nat)
    requires l.producers == [Idle] && l.stopper == Running && 0 < l.size == |l.buf| && l.policy != Block
    requires Play(l, [Offer(0, e, true, false), TrySend(0)]) == Some(As(l, Full(Ev(e))).(offered := l.offered + [e]))
    ensures Play(l, AppendActions(l, e, true)) == Appended(l, e, true)
  {
    hide Play, Perform;
    var start := [Offer(0, e, true, false), TrySend(0)];
    var full := As(l, Full(Ev(e))).(offered := l.offered + [e]);
    PlayMore(l, start, OnFull(0));
    OnFullStep(full, e);
    if l.policy == DropOldest {
      var popped := As(full, Popped(Ev(e), l.buf[0])).(buf := l.buf[1..]);
      DropStep(popped, e, l.buf[0]);
      PlayMore(l, start + [OnFull(0)], Drop(0));
      RetryStep(Perform(popped, Drop(0)).value, e);
      PlayMore(l, start + [OnFull(0)] + [Drop(0)], Retry(0));
      assert AppendActions(l, e, true) == start + [OnFull(0)] + [Drop(0)] + [Retry(0)];
    } else {
      assert AppendActions(l, e, true) == start + [OnFull(0)];
    }
  }

  /** The steps that draining takes. */
  function DrainActions(l: Logger): seq<Action>
    decreases |l.buf|
  {
    if l.worker != Reading || l.buf == [] then []
    else if !l.buf[0].Ev? then [Receive]
    else
      var e := l.buf[0].id;
      [Receive, Deliver, Recycle]
      + DrainActions(l.(buf := l.buf[1..], delivered := l.delivered + [e], resets := l.resets + [e]))
  }

  lemma {:induction false} DrainIsPlay(l: Logger)
    ensures Play(l, DrainActions(l)) == Some(Drained(l))
    decreases |l.buf|
  {
    if l.worker == Reading && l.buf != [] {
      if !l.buf[0].Ev? {
        PlayTwo(l, Receive, Receive);
      } else {
        var e := l.buf[0].id;
        var next := l.(buf := l.buf[1..], delivered := l.delivered + [e], resets := l.resets + [e]);
        HandleOne(l);
        DrainIsPlay(next);
        PlayOn(l, [Receive, Deliver, Recycle], DrainActions(next));
        hide Play;
      }
    }
  }

  lemma HandleOne(l: Logger)
    requires l.worker == Reading && l.buf != [] && l.buf[0].Ev?
    ensures Play(l, [Receive, Deliver, Recycle])
              == Some(l.(buf := l.buf[1..], delivered := l.delivered + [l.buf[0].id], resets := l.resets + [l.buf[0].id]))
  {
    PlayTwo(l, Receive, Deliver);
    PlayMore(l, [Receive, Deliver], Recycle);
    assert [Receive, Deliver] + [Recycle] == [Receive, Deliver, Recycle];
    hide Play;
  }
}
