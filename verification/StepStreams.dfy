/** What one subscriber of a step stream has been given and is still owed, as
    steps are appended, consumed, and the stream is closed. */
module StepStreams {
  import opened Models
  import opened Prelude

  // `None` in the queue is the sentinel that ends the stream. `closedAt` is
  // history: the length of the log at the first close the subscriber saw.
  datatype Subscription = Subscription(
    yielded: seq<StepLog>,
    queue: seq<Option<StepLog>>,
    closedAt: Option<nat>,
    ended: bool)

  function Wrap(log: seq<StepLog>): seq<Option<StepLog>> {
    if log == [] then [] else Wrap(Front(log)) + [Some(Last(log))]
  }

  // A new subscriber is replayed the log so far.
  function Replay(log: seq<StepLog>): Subscription {
    Subscription([], Wrap(log), None, false)
  }

  function OfferStep(f: Subscription, step: StepLog): Subscription {
    f.(queue := f.queue + [Some(step)])
  }

  function OfferEnd(f: Subscription, logLength: nat): Subscription {
    f.(queue := f.queue + [None], closedAt := if f.closedAt.Some? then f.closedAt else Some(logLength))
  }

  function Take(f: Subscription): Subscription {
    if f.queue == [] then f
    else match f.queue[0]
      case Some(step) => f.(yielded := f.yielded + [step], queue := f.queue[1..])
      case None => f.(queue := f.queue[1..], ended := true)
  }

  // What the subscriber will still be given: the queue up to the sentinel.
  function Owed(queue: seq<Option<StepLog>>): seq<StepLog> {
    if queue == [] || queue[0].None? then [] else [queue[0].value] + Owed(queue[1..])
  }

  function Owing(f: Subscription): seq<StepLog> {
    if f.ended then [] else Owed(f.queue)
  }

  lemma {:induction false} OwedSnoc(queue: seq<Option<StepLog>>, item: Option<StepLog>)
    ensures Owed(queue + [item]) == Owed(queue) + if None in queue || item.None? then [] else [item.value]
  {
    if queue != [] {
      assert queue == [queue[0]] + queue[1..];
      assert (queue + [item])[1..] == queue[1..] + [item];
      OwedSnoc(queue[1..], item);
    }
  }

  lemma {:induction false} OwedWrap(log: seq<StepLog>)
    ensures Owed(Wrap(log)) == log && None !in Wrap(log)
  {
    if log != [] {
      OwedWrap(Front(log));
      OwedSnoc(Wrap(Front(log)), Some(Last(log)));
    }
  }

  /** Exactly once, in order: what was yielded followed by what is owed is the
      log, or, once closed, the log as it was at that close. */
  predicate Faithful(f: Subscription, log: seq<StepLog>) {
    match f.closedAt
    case None => !f.ended && None !in f.queue && f.yielded + Owing(f) == log
    case Some(n) => n <= |log| && (f.ended || None in f.queue) && f.yielded + Owing(f) == log[..n]
  }

  lemma ReplayFaithful(log: seq<StepLog>)
    ensures Faithful(Replay(log), log)
  {
    OwedWrap(log);
  }

  lemma OfferStepFaithful(f: Subscription, log: seq<StepLog>, step: StepLog)
    requires Faithful(f, log) && !f.ended
    ensures Faithful(OfferStep(f, step), log + [step])
  {
    OwedSnoc(f.queue, Some(step));
    if f.closedAt.Some? {
      assert (log + [step])[..f.closedAt.value] == log[..f.closedAt.value];
    }
  }

  lemma OfferEndFaithful(f: Subscription, log: seq<StepLog>)
    requires Faithful(f, log) && !f.ended
    ensures Faithful(OfferEnd(f, |log|), log)
  {
    OwedSnoc(f.queue, None);
    assert log[..|log|] == log;
  }

  lemma TakeFaithful(f: Subscription, log: seq<StepLog>)
    requires Faithful(f, log) && !f.ended
    ensures Faithful(Take(f), log)
  {
    if f.queue != [] {
      var item, rest := f.queue[0], f.queue[1..];
      assert f.queue == [item] + rest;
      match item
      case None =>
      case Some(step) =>
        var later := Take(f);
        assert Owing(f) == [step] + Owing(later);
        assert f.yielded + ([step] + Owing(later)) == (f.yielded + [step]) + Owing(later);
    }
  }

  // A registered subscriber: not ended, and faithful.
  predicate Served(f: Subscription, log: seq<StepLog>) {
    !f.ended && Faithful(f, log)
  }

  lemma OffersServe(f: Subscription, log: seq<StepLog>, step: StepLog)
    requires Served(f, log)
    ensures Served(OfferStep(f, step), log + [step])
    ensures Served(OfferEnd(f, |log|), log)
  {
    OfferStepFaithful(f, log, step);
    OfferEndFaithful(f, log);
  }

  // ---------- Any interleaving ----------

  datatype StreamEvent = Appended(step: StepLog) | Taken | Closed

  datatype Stream = Stream(log: seq<StepLog>, feed: Subscription)

  // A subscriber whose stream ended is no longer registered.
  function StreamStep(s: Stream, e: StreamEvent): Stream {
    match e
    case Appended(step) =>
      Stream(s.log + [step], if s.feed.ended then s.feed else OfferStep(s.feed, step))
    case Taken => if s.feed.ended then s else s.(feed := Take(s.feed))
    case Closed => if s.feed.ended then s else s.(feed := OfferEnd(s.feed, |s.log|))
  }

  function Streamed(log: seq<StepLog>, events: seq<StreamEvent>): Stream {
    if events == [] then Stream(log, Replay(log)) else StreamStep(Streamed(log, Front(events)), Last(events))
  }

  // The log at the first close, if there was one before the stream ended.
  function FirstClose(log: seq<StepLog>, events: seq<StreamEvent>): Option<seq<StepLog>> {
    if events == [] then None
    else
      var earlier := FirstClose(log, Front(events));
      if earlier.Some? then earlier
      else if Last(events).Closed? then Some(Streamed(log, Front(events)).log)
      else None
  }

  lemma {:induction false} StreamFaithful(log: seq<StepLog>, events: seq<StreamEvent>)
    ensures var s := Streamed(log, events);
            && Faithful(s.feed, s.log)
            && (match FirstClose(log, events)
                case None => s.feed.closedAt.None?
                case Some(closed) => s.feed.closedAt.Some? && s.feed.closedAt.value <= |s.log|
                                     && closed == s.log[..s.feed.closedAt.value])
  {
    if events == [] {
      ReplayFaithful(log);
    } else {
      StreamFaithful(log, Front(events));
      var s := Streamed(log, Front(events));
      match Last(events)
      case Appended(step) =>
        if !s.feed.ended {
          OfferStepFaithful(s.feed, s.log, step);
        }
        if s.feed.closedAt.Some? {
          assert (s.log + [step])[..s.feed.closedAt.value] == s.log[..s.feed.closedAt.value];
        }
      case Taken =>
        if !s.feed.ended {
          TakeFaithful(s.feed, s.log);
        }
      case Closed =>
        if !s.feed.ended {
          OfferEndFaithful(s.feed, s.log);
        }
        assert s.log[..|s.log|] == s.log;
    }
  }

  /** Exactly-once streaming: for every log at subscription and every
      interleaving of appends, takes and closes, what the subscriber got and
      is owed is the whole log while the stream is open, and exactly the log
      at the first close after its subscription from then on; a stream that
      ended has delivered all of that. */
  lemma ExactlyOnce(log: seq<StepLog>, events: seq<StreamEvent>)
    ensures var s := Streamed(log, events);
            && (FirstClose(log, events).None? ==> !s.feed.ended && s.feed.yielded + Owing(s.feed) == s.log)
            && (FirstClose(log, events).Some? ==> s.feed.yielded + Owing(s.feed) == FirstClose(log, events).value)
            && (s.feed.ended ==> FirstClose(log, events).Some? && s.feed.yielded == FirstClose(log, events).value)
  {
    StreamFaithful(log, events);
  }
}
