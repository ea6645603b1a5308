/** What the sensor pipeline keeps under every interleaving of the producers and the polling thread. */
module PipelineSafety {
  import opened Pipeline
  import Stamps

  // ----- the history of a lane

  /** The samples that found room, in order. */
  function Accepted(attempts: seq<Attempt>): seq<Sample> {
    if attempts == [] then [] else
      var last := attempts[|attempts| - 1];
      Accepted(attempts[..|attempts| - 1]) + if last.accepted then [last.sample] else []
  }

  function Dropped(attempts: seq<Attempt>): nat {
    if attempts == [] then 0 else
      Dropped(attempts[..|attempts| - 1]) + if attempts[|attempts| - 1].accepted then 0 else 1
  }

  function InFlight(l: Lane): seq<Sample> {
    if l.consumer.Holding? then [l.consumer.sample] else []
  }

  /** Everything accepted, in the order in which it leaves. */
  function Line(l: Lane): seq<Sample> {
    l.published + InFlight(l) + l.queue
  }

  /** Nothing is lost, duplicated or reordered after it was accepted, and the queue keeps within its capacity. */
  predicate Conserved(l: Lane, capacity: nat) {
    Line(l) == Accepted(l.attempts) && |l.queue| <= capacity
  }

  lemma OneMoreAttempt(attempts: seq<Attempt>, a: Attempt)
    ensures Accepted(attempts + [a]) == Accepted(attempts) + if a.accepted then [a.sample] else []
    ensures Dropped(attempts + [a]) == Dropped(attempts) + if a.accepted then 0 else 1
  {
  }

  lemma PutConserves(l: Lane, next: Lane, capacity: nat, now: int)
    requires StepEnabled(l, Put) && next == After(l, Put, capacity, now) && Conserved(l, capacity)
    ensures Conserved(next, capacity)
  {
    var room := |l.queue| < capacity;
    OneMoreAttempt(l.attempts, Attempt(l.producer.sample, room));
    assert Line(next) == Line(l) + if room then [l.producer.sample] else [];
  }

  lemma OthersKeepLine(l: Lane, e: Step, next: Lane, capacity: nat, now: int)
    requires StepEnabled(l, e) && next == After(l, e, capacity, now) && !e.Put?
    ensures Line(next) == Line(l) && next.attempts == l.attempts && |next.queue| <= |l.queue|
  {
  }

  lemma LaneConserves(l: Lane, next: Lane, capacity: nat, now: int)
    requires LaneMoves(l, next, capacity, now) && Conserved(l, capacity)
    ensures Conserved(next, capacity)
  {
    if e: Step :| StepEnabled(l, e) && next == After(l, e, capacity, now) {
      if e.Put? {
        PutConserves(l, next, capacity, now);
      } else {
        OthersKeepLine(l, e, next, capacity, now);
      }
    }
  }

  /**
  Under every interleaving: what was published, then the sample in flight, then the queue are the accepted
  samples in order, and the queue keeps within its capacity.
  */
  lemma {:induction false} RunConserves(r: Run, k: nat, x: Sensor)
    requires IsRun(r) && k < |r.states|
    ensures Conserved(LaneOf(r.states[k], x), Capacity(x))
  {
    if k > 0 {
      RunConserves(r, k - 1, x);
      StepAt(r, k - 1);
      EveryLaneMoves(r.states[k - 1], r.events[k - 1], r.states[k], x);
      LaneConserves(LaneOf(r.states[k - 1], x), LaneOf(r.states[k], x), Capacity(x), r.states[k - 1].clock);
    }
  }

  /** Every attempt is accepted or dropped. */
  lemma {:induction false} AttemptsAddUp(attempts: seq<Attempt>)
    ensures |attempts| == |Accepted(attempts)| + Dropped(attempts)
  {
    if attempts != [] {
      AttemptsAddUp(attempts[..|attempts| - 1]);
    }
  }

  /** Produced equals published plus in flight plus queued plus dropped. */
  lemma ProducedIsAccountedFor(r: Run, k: nat, x: Sensor)
    requires IsRun(r) && k < |r.states|
    ensures var l := LaneOf(r.states[k], x);
            |l.attempts| == |l.published| + |InFlight(l)| + |l.queue| + Dropped(l.attempts)
  {
    RunConserves(r, k, x);
    AttemptsAddUp(LaneOf(r.states[k], x).attempts);
  }

  /** A step drops a sample exactly when it puts on a queue that is at capacity. */
  lemma DropsOnlyWhenFull(r: Run, k: nat, x: Sensor)
    requires IsRun(r) && k < |r.events|
    ensures var l, l' := LaneOf(r.states[k], x), LaneOf(r.states[k + 1], x);
            Dropped(l'.attempts) == Dropped(l.attempts)
              + if r.events[k] == On(x, Put) && |l.queue| == (if x == Imu then 32 else 8) then 1 else 0
  {
    StepAt(r, k);
    RunConserves(r, k, x);
    var l := LaneOf(r.states[k], x);
    if r.events[k] == On(x, Put) {
      OneMoreAttempt(l.attempts, Attempt(l.producer.sample, |l.queue| < Capacity(x)));
    } else {
      OnlyPutAttempts(r.states[k], r.events[k], r.states[k + 1], x);
    }
  }

  lemma OnlyPutAttempts(s: State, e: Event, next: State, x: Sensor)
    requires Enabled(s, e) && next == Next(s, e) && e != On(x, Put)
    ensures LaneOf(next, x).attempts == LaneOf(s, x).attempts
  {
  }

  // ----- the consumer

  /** The consumer is busy with the queue it is inside; a flag is raised only from the poll to the end of its block. */
  predicate InPlace(s: State) {
    && (forall x: Sensor :: LaneOf(s, x).consumer.Away? <==> s.at != Inside(x))
    && (s.at == Polling ==> !s.imu.flag && !s.gnss.flag)
    && (s.at in {Testing(Gnss), Inside(Gnss)} ==> !s.imu.flag)
    && (forall x: Sensor :: s.at == Inside(x) ==> LaneOf(s, x).flag)
  }

  lemma NextInPlace(s: State, e: Event, next: State)
    requires Enabled(s, e) && next == Next(s, e) && InPlace(s)
    ensures InPlace(next)
  {
  }

  /** Both events are clear whenever the thread polls, so no stale event is served. */
  lemma {:induction false} RunInPlace(r: Run, k: nat)
    requires IsRun(r) && k < |r.states|
    ensures InPlace(r.states[k])
  {
    if k > 0 {
      RunInPlace(r, k - 1);
      StepAt(r, k - 1);
      NextInPlace(r.states[k - 1], r.events[k - 1], r.states[k]);
    }
  }

  /** The event is progress of the consumer thread. */
  predicate IsConsumer(e: Event) {
    e.PollReturns? || e.Test? || (e.On? && !IsProducer(e.step))
  }

  /** What the consumer can do next. */
  function ConsumerEvent(s: State): Event {
    match s.at
    case Polling => PollReturns(|s.imu.queue| > 0, |s.gnss.queue| > 0)
    case Testing(_) => Test
    case Inside(x) =>
      On(x, match LaneOf(s, x).consumer
            case Fetching => Get
            case Holding(_) => Publish
            case _ => Leave)
  }

  /** The consumer is blocked only in the poll, and only while both queues are empty. */
  lemma BlockedOnlyWhenEmpty(r: Run, k: nat)
    requires IsRun(r) && k < |r.states|
    ensures var s := r.states[k];
            (forall e: Event | IsConsumer(e) :: !Enabled(s, e))
              <==> s.at == Polling && s.imu.queue == [] && s.gnss.queue == []
  {
    RunInPlace(r, k);
    var s := r.states[k];
    var e := ConsumerEvent(s);
    assert IsConsumer(e);
    if !(s.at == Polling && s.imu.queue == [] && s.gnss.queue == []) {
      CanMove(s);
    }
  }

  lemma CanMove(s: State)
    requires InPlace(s) && !(s.at == Polling && s.imu.queue == [] && s.gnss.queue == [])
    ensures Enabled(s, ConsumerEvent(s))
  {
  }

  /** When the consumer is done with a queue, it found it empty at j and everything accepted by then is published. */
  lemma {:induction false} LeavesAfterDraining(r: Run, k: nat, x: Sensor) returns (j: nat)
    requires IsRun(r) && k < |r.states| && LaneOf(r.states[k], x).consumer.Drained?
    ensures j < k && r.events[j] == On(x, Get) && LaneOf(r.states[j], x).queue == []
    ensures LaneOf(r.states[k], x).published == Accepted(LaneOf(r.states[j], x).attempts)
  {
    StepAt(r, k - 1);
    var l := LaneOf(r.states[k - 1], x);
    if r.events[k - 1] == On(x, Get) {
      j := k - 1;
      RunConserves(r, j, x);
      assert Line(l) == l.published;
    } else {
      StaysDrained(r.states[k - 1], r.events[k - 1], r.states[k], x);
      j := LeavesAfterDraining(r, k - 1, x);
    }
  }

  lemma StaysDrained(s: State, e: Event, next: State, x: Sensor)
    requires Enabled(s, e) && next == Next(s, e) && LaneOf(next, x).consumer.Drained? && e != On(x, Get)
    ensures LaneOf(s, x).consumer.Drained? && LaneOf(next, x).published == LaneOf(s, x).published
  {
  }

  // ----- stamps

  /** The sample a producer is about to put was stamped with the clock at i, and nothing was stamped since. */
  lemma {:induction false} StampHistory(r: Run, k: nat, x: Sensor) returns (i: nat)
    requires IsRun(r) && k < |r.states| && LaneOf(r.states[k], x).producer.Filled?
    ensures i < k && r.events[i].On? && r.events[i].sensor == x && r.events[i].step.Stamp?
    ensures LaneOf(r.states[k], x).producer.sample == Sample(r.events[i].step.data, r.states[i].clock)
    ensures forall l | i < l < k :: !(r.events[l].On? && r.events[l].sensor == x && IsProducer(r.events[l].step))
  {
    StepAt(r, k - 1);
    var e := r.events[k - 1];
    if e.On? && e.sensor == x && IsProducer(e.step) {
      i := k - 1;
    } else {
      OthersKeepProducer(r.states[k - 1], e, r.states[k], x);
      i := StampHistory(r, k - 1, x);
    }
  }

  lemma OthersKeepProducer(s: State, e: Event, next: State, x: Sensor)
    requires Enabled(s, e) && next == Next(s, e) && !(e.On? && e.sensor == x && IsProducer(e.step))
    ensures LaneOf(next, x).producer == LaneOf(s, x).producer
  {
  }

  /** Every put tries the sample its handler last stamped, with the time of the stamp. */
  lemma PutsStampedSample(r: Run, k: nat, x: Sensor) returns (i: nat)
    requires IsRun(r) && k < |r.events| && r.events[k] == On(x, Put)
    ensures i < k && r.events[i].On? && r.events[i].sensor == x && r.events[i].step.Stamp?
    ensures var before, after := LaneOf(r.states[k], x).attempts, LaneOf(r.states[k + 1], x).attempts;
            && |after| == |before| + 1 && after[..|before|] == before
            && after[|before|].sample == Sample(r.events[i].step.data, r.states[i].clock)
  {
    StepAt(r, k);
    i := StampHistory(r, k, x);
  }

  /** Times never decrease along the samples. */
  predicate Chronological(samples: seq<Sample>) {
    forall i, j | 0 <= i <= j < |samples| :: samples[i].time <= samples[j].time
  }

  /** Every sample produced, accepted or not, with the one being produced last. */
  function Produced(l: Lane): seq<Sample> {
    Tried(l.attempts) + if l.producer.Filled? then [l.producer.sample] else []
  }

  function Tried(attempts: seq<Attempt>): seq<Sample> {
    seq(|attempts|, i requires 0 <= i < |attempts| => attempts[i].sample)
  }

  /** The times are nondecreasing and lie between zero and the present. */
  predicate Within(samples: seq<Sample>, now: int) {
    Chronological(samples) && forall i | 0 <= i < |samples| :: 0 <= samples[i].time <= now
  }

  lemma WithinIff(samples: seq<Sample>, x: Sample, all: seq<Sample>, now: int)
    requires all == samples + [x]
    ensures Within(all, now) <==> Within(samples, x.time) && 0 <= x.time <= now
  {
    assert forall i | 0 <= i < |samples| :: samples[i] == all[i];
    assert all[|samples|] == x;
  }

  lemma WithinLater(samples: seq<Sample>, now: int, later: int)
    requires Within(samples, now) && now <= later
    ensures Within(samples, later)
  {
  }

  lemma ProducedGrows(l: Lane, e: Step, next: Lane, capacity: nat, now: int)
    requires StepEnabled(l, e) && next == After(l, e, capacity, now)
    ensures e.Stamp? ==> Produced(next) == Produced(l) + [Sample(e.data, now)]
    ensures e.Discard? ==> Produced(l) == Produced(next) + [l.producer.sample]
    ensures !e.Stamp? && !e.Discard? ==> Produced(next) == Produced(l)
  {
  }

  lemma LaneStaysTimely(l: Lane, next: Lane, capacity: nat, now: int, later: int)
    requires LaneMoves(l, next, capacity, now) && Within(Produced(l), now) && 0 <= now <= later
    ensures Within(Produced(next), later)
  {
    if e: Step :| StepEnabled(l, e) && next == After(l, e, capacity, now) {
      ProducedGrows(l, e, next, capacity, now);
      if e.Stamp? {
        WithinIff(Produced(l), Sample(e.data, now), Produced(next), now);
      } else if e.Discard? {
        WithinIff(Produced(next), l.producer.sample, Produced(l), now);
        WithinLater(Produced(next), l.producer.sample.time, now);
      }
    } else {
      assert Produced(next) == Produced(l);
    }
    WithinLater(Produced(next), now, later);
  }

  /** The samples produced so far carry nondecreasing times between zero and the present. */
  lemma {:induction false} RunTimely(r: Run, k: nat, x: Sensor)
    requires IsRun(r) && k < |r.states|
    ensures 0 <= r.states[k].clock && Within(Produced(LaneOf(r.states[k], x)), r.states[k].clock)
  {
    if k > 0 {
      RunTimely(r, k - 1, x);
      StepAt(r, k - 1);
      var s, next := r.states[k - 1], r.states[k];
      EveryLaneMoves(s, r.events[k - 1], next, x);
      ClockAdvances(s, r.events[k - 1], next);
      LaneStaysTimely(LaneOf(s, x), LaneOf(next, x), Capacity(x), s.clock, next.clock);
    }
  }

  lemma ClockAdvances(s: State, e: Event, next: State)
    requires Enabled(s, e) && next == Next(s, e)
    ensures s.clock <= next.clock
  {
  }

  /** The accepted samples keep the order of the attempts. */
  lemma {:induction false} AcceptedIsWithin(attempts: seq<Attempt>, now: int)
    requires Within(Tried(attempts), now)
    ensures Within(Accepted(attempts), now)
  {
    if attempts != [] {
      var n := |attempts| - 1;
      var rest, last := attempts[..n], attempts[n].sample;
      assert Tried(attempts) == Tried(rest) + [last];
      WithinIff(Tried(rest), last, Tried(attempts), now);
      AcceptedIsWithin(rest, last.time);
      WithinIff(Accepted(rest), last, Accepted(rest) + [last], now);
      WithinLater(Accepted(rest), last.time, now);
    }
  }

  /**
  Per sensor, the stamps of the published messages are well formed, stand for the producer's times, and are
  in chronological order, as long as the clock's seconds fit the message field.
  */
  lemma PublishedStamps(r: Run, k: nat, x: Sensor, i: nat, j: nat)
    requires IsRun(r) && k < |r.states| && i <= j < |LaneOf(r.states[k], x).published|
    requires r.states[k].clock / Stamps.MS_PER_S < Stamps.TWO_31
    ensures var a, b := LaneOf(r.states[k], x).published[i].time, LaneOf(r.states[k], x).published[j].time;
            && Stamps.NotAfter(Stamps.Split(a), Stamps.Split(b))
            && Stamps.Recompose(Stamps.Split(a)) == a
            && 0 <= Stamps.Split(a).nanosec < Stamps.NS_PER_S
  {
    var l := LaneOf(r.states[k], x);
    RunConserves(r, k, x);
    RunTimely(r, k, x);
    PublishedTimes(l, r.states[k].clock, i, j);
    var a, b := l.published[i].time, l.published[j].time;
    Stamps.RemainderRange(a);
    Stamps.RemainderRange(b);
    Stamps.RecomposesIff(a);
    Stamps.NanosecondsFit(a);
    Stamps.SplitKeepsOrder(a, b);
  }

  lemma PublishedTimes(l: Lane, now: int, i: nat, j: nat)
    requires Line(l) == Accepted(l.attempts) && Within(Produced(l), now) && i <= j < |l.published|
    ensures 0 <= l.published[i].time <= l.published[j].time <= now
  {
    if l.producer.Filled? {
      WithinIff(Tried(l.attempts), l.producer.sample, Produced(l), now);
      WithinLater(Tried(l.attempts), l.producer.sample.time, now);
    } else {
      assert Produced(l) == Tried(l.attempts);
    }
    AcceptedIsWithin(l.attempts, now);
    assert Line(l)[i] == l.published[i] && Line(l)[j] == l.published[j];
  }

  // ----- how much can be produced without loss

  /** From an empty queue, as many attempts as the queue has places lose nothing, however slow the consumer is. */
  lemma {:induction false} NoLossWithinCapacity(r: Run, i: nat, k: nat, x: Sensor)
    requires IsRun(r) && i <= k < |r.states| && LaneOf(r.states[i], x).queue == []
    requires |LaneOf(r.states[k], x).attempts| <= |LaneOf(r.states[i], x).attempts| + if x == Imu then 32 else 8
    ensures Dropped(LaneOf(r.states[k], x).attempts) == Dropped(LaneOf(r.states[i], x).attempts)
    ensures |LaneOf(r.states[k], x).queue| <= |LaneOf(r.states[k], x).attempts| - |LaneOf(r.states[i], x).attempts|
    decreases k
  {
    if i < k {
      StepAt(r, k - 1);
      AttemptsGrow(r.states[k - 1], r.events[k - 1], r.states[k], x);
      NoLossWithinCapacity(r, i, k - 1, x);
      DropsOnlyWhenFull(r, k - 1, x);
    }
  }

  lemma AttemptsGrow(s: State, e: Event, next: State, x: Sensor)
    requires Enabled(s, e) && next == Next(s, e)
    ensures var l, l' := LaneOf(s, x), LaneOf(next, x);
            && |l'.attempts| == |l.attempts| + (if e == On(x, Put) then 1 else 0)
            && |l'.queue| <= |l.queue| + (if e == On(x, Put) then 1 else 0)
  {
  }
}
