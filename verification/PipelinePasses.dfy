/** The steps of one turn of the polling thread, taken without interruption, publish whole queues. */
module PipelinePasses {
  import opened Pipeline

  /** The events can be taken one after the other from s, and lead to t. */
  predicate Leads(s: State, events: seq<Event>, t: State)
    decreases |events|
  {
    if events == [] then s == t else Enabled(s, events[0]) && Leads(Next(s, events[0]), events[1..], t)
  }

  lemma Then(s: State, e: Event, mid: State, rest: seq<Event>, t: State)
    requires Enabled(s, e) && mid == Next(s, e) && Leads(mid, rest, t)
    ensures Leads(s, [e] + rest, t)
  {
  }

  lemma {:induction false} LeadsOn(s: State, first: seq<Event>, mid: State, second: seq<Event>, t: State)
    requires Leads(s, first, mid) && Leads(mid, second, t)
    ensures Leads(s, first + second, t)
    decreases |first|
  {
    if first == [] {
      assert first + second == second;
    } else {
      LeadsOn(Next(s, first[0]), first[1..], mid, second, t);
      assert (first + second)[1..] == first[1..] + second;
    }
  }

  /** Fetch and publish n samples, find the queue empty and leave. */
  function Drain(x: Sensor, n: nat): seq<Event> {
    if n == 0 then [On(x, Get)] + [On(x, Leave)] else [On(x, Get)] + ([On(x, Publish)] + Drain(x, n - 1))
  }

  /** The lane after its queue was published. */
  function Emptied(l: Lane): Lane {
    l.(queue := [], published := l.published + l.queue, consumer := Away, flag := false)
  }

  /** Draining publishes exactly the queue, in order, and clears the event. */
  lemma {:induction false} DrainPublishes(s: State, x: Sensor, t: State)
    requires s.at == Inside(x) && LaneOf(s, x).consumer.Fetching?
    requires t == With(s, x, Emptied(LaneOf(s, x))).(at := Following(x))
    ensures Leads(s, Drain(x, |LaneOf(s, x).queue|), t)
    decreases |LaneOf(s, x).queue|
  {
    var l := LaneOf(s, x);
    var a := Next(s, On(x, Get));
    if l.queue == [] {
      assert l.published + l.queue == l.published;
      Then(a, On(x, Leave), t, [], t);
      assert [On(x, Leave)] + [] == [On(x, Leave)];
      Then(s, On(x, Get), a, [On(x, Leave)], t);
    } else {
      var b := Next(a, On(x, Publish));
      assert l.published + l.queue == (l.published + [l.queue[0]]) + l.queue[1..];
      DrainPublishes(b, x, t);
      Then(a, On(x, Publish), b, Drain(x, |l.queue| - 1), t);
      Then(s, On(x, Get), a, [On(x, Publish)] + Drain(x, |l.queue| - 1), t);
    }
  }

  /** Test an event, and serve it if it is raised. */
  function Block(s: State, x: Sensor): seq<Event> {
    [Test] + if LaneOf(s, x).flag then Drain(x, |LaneOf(s, x).queue|) else []
  }

  /** What the block of one event does to its lane. */
  function Served(l: Lane): Lane {
    if l.flag then Emptied(l) else l
  }

  lemma BlockServes(s: State, x: Sensor, t: State)
    requires s.at == Testing(x) && LaneOf(s, x).consumer.Away?
    requires t == With(s, x, Served(LaneOf(s, x))).(at := Following(x))
    ensures Leads(s, Block(s, x), t)
  {
    var a := Next(s, Test);
    if LaneOf(s, x).flag {
      DrainPublishes(a, x, t);
      Then(s, Test, a, Drain(x, |LaneOf(s, x).queue|), t);
    } else {
      Then(s, Test, a, [], t);
    }
  }

  /** One turn: the poll returns, then the IMU block, then the GNSS block. */
  function Turn(s: State, imuReady: bool, gnssReady: bool): seq<Event> {
    var raised := s.(imu := s.imu.(flag := imuReady), gnss := s.gnss.(flag := gnssReady));
    [PollReturns(imuReady, gnssReady)] + (Block(raised, Imu) + Block(raised, Gnss))
  }

  /** An uninterrupted turn publishes the ready queues and polls again with both events clear. */
  lemma TurnPublishes(s: State, imuReady: bool, gnssReady: bool, t: State)
    requires s.at == Polling && !s.imu.flag && !s.gnss.flag && s.imu.consumer.Away? && s.gnss.consumer.Away?
    requires Enabled(s, PollReturns(imuReady, gnssReady))
    requires t == s.(imu := if imuReady then Emptied(s.imu) else s.imu,
                     gnss := if gnssReady then Emptied(s.gnss) else s.gnss)
    ensures Leads(s, Turn(s, imuReady, gnssReady), t)
  {
    var raised := s.(imu := s.imu.(flag := imuReady), gnss := s.gnss.(flag := gnssReady));
    var a := Next(s, PollReturns(imuReady, gnssReady));
    var b := With(a, Imu, Served(a.imu)).(at := Testing(Gnss));
    BlockServes(a, Imu, b);
    BlockServes(b, Gnss, t);
    LeadsOn(a, Block(raised, Imu), b, Block(raised, Gnss), t);
    Then(s, PollReturns(imuReady, gnssReady), a, Block(raised, Imu) + Block(raised, Gnss), t);
  }
}
