/**
The sensor pipeline: two producers put stamped samples on bounded queues and one thread polls both queues
and publishes (apps/rover_controller/src/main.c, hal/imu.c, hal/gnss.c), interleaved at every queue access.
*/
module Pipeline {

  datatype Sensor = Imu | Gnss

  /** What one IMU trigger reads, or what one GNSS fix carries. */
  datatype Data =
    | ImuData(accel: seq<real>, gyro: seq<real>, mag: seq<real>)
    | GnssData(latitude: real, longitude: real, altitude: real, satellites: nat, quality: nat)

  /** A sample and the time its producer stamped it with. */
  datatype Sample = Sample(data: Data, time: int)

  datatype Producer = Ready | Filled(sample: Sample)

  /** A put that was tried: the sample, and whether the queue had room. */
  datatype Attempt = Attempt(sample: Sample, accepted: bool)

  /** What the consumer is doing with one queue. */
  datatype Consumer = Away | Fetching | Holding(sample: Sample) | Drained

  /** One sensor: its producer, its queue, its poll event, the consumer's business with it, and its history. */
  datatype Lane = Lane(
    producer: Producer,
    queue: seq<Sample>,
    flag: bool,
    consumer: Consumer,
    attempts: seq<Attempt>,
    published: seq<Sample>)

  /** Where the consumer thread is: in the poll, about to test an event, or inside the block of an event. */
  datatype Position = Polling | Testing(sensor: Sensor) | Inside(sensor: Sensor)

  datatype State = State(clock: int, imu: Lane, gnss: Lane, at: Position)

  const NEW_LANE := Lane(Ready, [], false, Away, [], [])

  predicate Initial(s: State) {
    0 <= s.clock && s.imu == NEW_LANE && s.gnss == NEW_LANE && s.at == Polling
  }

  function LaneOf(s: State, x: Sensor): Lane {
    if x == Imu then s.imu else s.gnss
  }

  function With(s: State, x: Sensor, l: Lane): State {
    if x == Imu then s.(imu := l) else s.(gnss := l)
  }

  function Capacity(x: Sensor): nat {
    if x == Imu then 32 else 8
  }

  // ----- the steps of one lane

  datatype Step =
    // the producer
    | Stamp(data: Data)
    | Discard
    | Put
    // the consumer
    | Enter
    | Get
    | Publish
    | Leave

  predicate StepEnabled(l: Lane, e: Step) {
    match e
    case Stamp(_) => l.producer.Ready?
    case Discard => l.producer.Filled?
    case Put => l.producer.Filled?
    case Enter => l.consumer.Away?
    case Get => l.consumer.Fetching?
    case Publish => l.consumer.Holding?
    case Leave => l.consumer.Drained?
  }

  /** k_msgq_put without waiting: a full queue drops the newest sample. */
  function Enqueued<T>(queue: seq<T>, x: T, capacity: nat): seq<T> {
    if |queue| < capacity then queue + [x] else queue
  }

  function After(l: Lane, e: Step, capacity: nat, now: int): Lane
    requires StepEnabled(l, e)
  {
    match e
    case Stamp(d) => l.(producer := Filled(Sample(d, now)))
    case Discard => l.(producer := Ready)
    case Put =>
      l.(producer := Ready,
         attempts := l.attempts + [Attempt(l.producer.sample, |l.queue| < capacity)],
         queue := Enqueued(l.queue, l.producer.sample, capacity))
    case Enter => l.(consumer := Fetching)
    case Get =>
      if l.queue == [] then l.(consumer := Drained)
      else l.(queue := l.queue[1..], consumer := Holding(l.queue[0]))
    case Publish => l.(published := l.published + [l.consumer.sample], consumer := Fetching)
    case Leave => l.(consumer := Away, flag := false)
  }

  // ----- the steps of the pipeline

  datatype Event =
    | Tick
    | PollFails
    | PollReturns(imuReady: bool, gnssReady: bool)
    | Test
    | On(sensor: Sensor, step: Step)

  predicate IsProducer(e: Step) {
    e.Stamp? || e.Discard? || e.Put?
  }

  /** Producers act at any time, the consumer only inside the block; the IMU handler has no filter. */
  predicate Placed(s: State, x: Sensor, e: Step) {
    if IsProducer(e) then !(x == Imu && e.Discard?) else s.at == Inside(x) && !e.Enter?
  }

  predicate Enabled(s: State, e: Event) {
    match e
    case Tick => true
    case PollFails => s.at == Polling
    case PollReturns(i, g) =>
      s.at == Polling && (i || g) && (i ==> |s.imu.queue| > 0) && (g ==> |s.gnss.queue| > 0)
    case Test => s.at.Testing? && StepEnabled(LaneOf(s, s.at.sensor), Enter)
    case On(x, p) => StepEnabled(LaneOf(s, x), p) && Placed(s, x, p)
  }

  /** Where the thread goes when it is done with a sensor. */
  function Following(x: Sensor): Position {
    if x == Imu then Testing(Gnss) else Polling
  }

  function Next(s: State, e: Event): State
    requires Enabled(s, e)
  {
    match e
    case Tick => s.(clock := s.clock + 1)
    case PollFails => s
    case PollReturns(i, g) =>
      s.(imu := s.imu.(flag := s.imu.flag || i), gnss := s.gnss.(flag := s.gnss.flag || g), at := Testing(Imu))
    case Test =>
      var x := s.at.sensor;
      if LaneOf(s, x).flag then With(s, x, After(LaneOf(s, x), Enter, Capacity(x), s.clock)).(at := Inside(x))
      else s.(at := Following(x))
    case On(x, p) =>
      With(s, x, After(LaneOf(s, x), p, Capacity(x), s.clock)).(at := if p.Leave? then Following(x) else s.at)
  }

  datatype Run = Run(states: seq<State>, events: seq<Event>)

  ghost predicate Follows(r: Run, k: nat)
    requires k < |r.events| && |r.states| == |r.events| + 1
  {
    Enabled(r.states[k], r.events[k]) && r.states[k + 1] == Next(r.states[k], r.events[k])
  }

  /** A run starts after initialisation, and its states follow each other by its events. */
  ghost predicate IsRun(r: Run) {
    && |r.states| == |r.events| + 1 && Initial(r.states[0])
    && forall k: nat | k < |r.events| :: Follows(r, k)
  }

  lemma StepAt(r: Run, k: nat)
    requires IsRun(r) && k < |r.events|
    ensures Enabled(r.states[k], r.events[k]) && r.states[k + 1] == Next(r.states[k], r.events[k])
  {
    assert Follows(r, k);
  }

  /** What any event does to one lane: a step of its own, a raised flag, or nothing. */
  ghost predicate LaneMoves(l: Lane, l': Lane, capacity: nat, now: int) {
    || (exists e: Step :: StepEnabled(l, e) && l' == After(l, e, capacity, now))
    || l' == l || l' == l.(flag := true)
  }

  lemma EveryLaneMoves(s: State, e: Event, next: State, x: Sensor)
    requires Enabled(s, e) && next == Next(s, e)
    ensures LaneMoves(LaneOf(s, x), LaneOf(next, x), Capacity(x), s.clock)
  {
  }
}
