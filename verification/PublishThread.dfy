/**
The producers and the publishing thread as they run without interruption: the IMU trigger handler
(apps/rover_controller/src/hal/imu.c), the GNSS callback (hal/gnss.c), the two publishers (ros/publishers)
and one turn of the polling thread (main.c).
*/
module PublishThread {
  import opened Pipeline
  import Stamps

  const ENOMSG := 35

  /** A kernel message queue, used without waiting. */
  class MessageQueue {
    var contents: seq<Sample>
    const capacity: nat

    constructor (capacity: nat)
      ensures contents == [] && this.capacity == capacity
    {
      contents := [];
      this.capacity := capacity;
    }

    method Put(x: Sample) returns (rc: int)
      modifies this
      ensures contents == Enqueued(old(contents), x, capacity)
      ensures contents == old(contents) + if rc == 0 then [x] else []
      ensures rc == if |old(contents)| < capacity then 0 else -ENOMSG
    {
      if |contents| < capacity {
        contents := contents + [x];
        rc := 0;
      } else {
        rc := -ENOMSG;
      }
    }

    method Get(fallback: Sample) returns (rc: int, x: Sample)
      modifies this
      ensures old(contents) == [] ==> rc == -ENOMSG && x == fallback && contents == []
      ensures old(contents) != [] ==> rc == 0 && [x] + contents == old(contents)
    {
      if contents == [] {
        rc, x := -ENOMSG, fallback;
      } else {
        rc, x := 0, contents[0];
        contents := contents[1..];
      }
    }
  }

  // ----- the producers

  const AXES := 3

  /** What the sensor driver returns: a result code for each call, and the axes it read. */
  datatype Reading = Reading(fetch: int, accelRc: int, gyroRc: int, accel: seq<real>, gyro: seq<real>)

  class ImuDriver {
    const queue: MessageQueue

    constructor (queue: MessageQueue)
      ensures this.queue == queue
    {
      this.queue := queue;
    }

    /**
    A trigger enqueues one stamped sample if every driver call succeeds, and nothing otherwise. The handler
    clears its sample first and never reads a magnetometer.
    */
    method OnTrigger(reading: Reading, now: int)
      requires |reading.accel| == AXES && |reading.gyro| == AXES
      modifies queue
      ensures queue.contents
           == if reading.fetch == 0 && reading.accelRc == 0 && reading.gyroRc == 0
              then Enqueued(old(queue.contents), Sample(ImuData(reading.accel, reading.gyro, [0.0, 0.0, 0.0]), now),
                            queue.capacity)
              else old(queue.contents)
    {
      if reading.fetch != 0 {
        return;
      }
      if reading.accelRc != 0 || reading.gyroRc != 0 {
        return;
      }
      var accel, gyro := new real[AXES](_ => 0.0), new real[AXES](_ => 0.0);
      var i := 0;
      while i < AXES
        invariant queue.contents == old(queue.contents)
        invariant 0 <= i <= AXES && accel[..i] == reading.accel[..i] && gyro[..i] == reading.gyro[..i]
      {
        accel[i] := reading.accel[i];
        gyro[i] := reading.gyro[i];
        i := i + 1;
      }
      var sample := Sample(ImuData(accel[..], gyro[..], [0.0, 0.0, 0.0]), now);
      assert sample.data.accel == reading.accel && sample.data.gyro == reading.gyro;
      var _ := queue.Put(sample);
    }
  }

  /** What the receiver reports: nanodegrees, millimetres, and the fix quality. */
  datatype Navigation = Navigation(
    latitude: int, longitude: int, altitude: int, satellites: nat, quality: nat, fixed: bool)

  /** The fix in degrees and metres; the counts are narrowed to eight bits. */
  function Converted(n: Navigation): Data {
    GnssData(n.latitude as real / 1.0e9, n.longitude as real / 1.0e9, n.altitude as real / 1000.0,
             n.satellites % 256, n.quality % 256)
  }

  class GnssDriver {
    const queue: MessageQueue

    constructor (queue: MessageQueue)
      ensures this.queue == queue
    {
      this.queue := queue;
    }

    /** A report with a fix enqueues it, stamped; a report without one enqueues nothing. */
    method OnData(data: Navigation, now: int)
      modifies queue
      ensures queue.contents
           == if data.fixed then Enqueued(old(queue.contents), Sample(Converted(data), now), queue.capacity)
              else old(queue.contents)
      ensures data.fixed && |old(queue.contents)| < queue.capacity ==>
                && |queue.contents| == |old(queue.contents)| + 1
                && var x := queue.contents[|old(queue.contents)|];
                   && x.time == now && x.data.GnssData?
                   && x.data.latitude * 1.0e9 == data.latitude as real
                   && x.data.longitude * 1.0e9 == data.longitude as real
                   && x.data.altitude * 1000.0 == data.altitude as real
                   && x.data.satellites == data.satellites % 256 && x.data.quality == data.quality % 256
    {
      var satellites, quality := data.satellites % 256, data.quality % 256;
      if data.fixed {
        var latitude := data.latitude as real / 1.0e9;
        var longitude := data.longitude as real / 1.0e9;
        var altitude := data.altitude as real / 1000.0;
        var _ := queue.Put(Sample(GnssData(latitude, longitude, altitude, satellites, quality), now));
      }
    }
  }

  // ----- the publishers

  /** A message on the wire: its header stamp and its payload. */
  datatype Message = Message(stamp: Stamps.Stamp, data: Data)

  function MessageOf(x: Sample): Message {
    Message(Stamps.Split(x.time), x.data)
  }

  /** The message carries the sample's data, and a stamp that stands for its time if a stamp can. */
  predicate Carries(m: Message, x: Sample) {
    m.data == x.data && (Stamps.Representable(x.time) ==> Stamps.Recompose(m.stamp) == x.time)
  }

  lemma MessageCarries(x: Sample)
    ensures Carries(MessageOf(x), x)
  {
    Stamps.RecomposesIff(x.time);
  }

  function Messages(samples: seq<Sample>): (r: seq<Message>)
    ensures |r| == |samples| && forall i | 0 <= i < |samples| :: r[i] == MessageOf(samples[i])
  {
    if samples == [] then [] else [MessageOf(samples[0])] + Messages(samples[1..])
  }

  /** `sent` grew by one message for each sample, in order, and message i carries sample i. */
  ghost predicate Published(before: seq<Message>, samples: seq<Sample>, sent: seq<Message>) {
    && |sent| == |before| + |samples| && sent[..|before|] == before
    && forall i | 0 <= i < |samples| :: Carries(sent[|before| + i], samples[i])
  }

  /** Taking the first of what is left after n samples. */
  lemma Popped(x: Sample, rest: seq<Sample>, samples: seq<Sample>, n: nat)
    requires n <= |samples| && [x] + rest == samples[n..]
    ensures n < |samples| && x == samples[n] && rest == samples[n + 1..]
  {
    assert ([x] + rest)[0] == x && ([x] + rest)[1..] == rest;
  }

  lemma OneMoreMessage(samples: seq<Sample>, n: nat)
    requires n < |samples|
    ensures Messages(samples[..n + 1]) == Messages(samples[..n]) + [MessageOf(samples[n])]
  {
  }

  lemma MessagesPublished(before: seq<Message>, samples: seq<Sample>, sent: seq<Message>)
    requires sent == before + Messages(samples)
    ensures Published(before, samples, sent)
  {
    forall i | 0 <= i < |samples|
      ensures Carries(sent[|before| + i], samples[i])
    {
      MessageCarries(samples[i]);
    }
  }

  /** A publisher fills its one static message in place and publishes it; `sent` is everything published. */
  class Publisher {
    var sec: int
    var nanosec: int
    var data: Data
    var sent: seq<Message>

    constructor (data: Data)
      ensures sent == []
    {
      sec, nanosec, this.data, sent := 0, 0, data, [];
    }

    method Publish(x: Sample)
      modifies this
      ensures sent == old(sent) + [MessageOf(x)]
    {
      sec := Stamps.ToInt32(Stamps.Quotient(x.time, Stamps.MS_PER_S));
      nanosec := Stamps.ToUint32(Stamps.Remainder(x.time, Stamps.MS_PER_S) * Stamps.NS_PER_MS);
      data := x.data;
      sent := sent + [Message(Stamps.Stamp(sec, nanosec), data)];
    }
  }

  // ----- the polling thread

  /** One poll event: the queue it watches, its state, and the publisher its block uses. */
  class PollEvent {
    const queue: MessageQueue
    const publisher: Publisher
    var ready: bool

    constructor (queue: MessageQueue, publisher: Publisher)
      ensures this.queue == queue && this.publisher == publisher && !ready
    {
      this.queue, this.publisher, ready := queue, publisher, false;
    }

    /** The block of one event: if it is ready, drains the queue into the publisher and clears the event. */
    method Serve(scratch: Sample)
      modifies this, queue, publisher
      ensures !ready
      ensures old(ready) ==>
                queue.contents == [] && publisher.sent == old(publisher.sent) + Messages(old(queue.contents))
      ensures old(ready) ==> Published(old(publisher.sent), old(queue.contents), publisher.sent)
      ensures !old(ready) ==> queue.contents == old(queue.contents) && publisher.sent == old(publisher.sent)
    {
      if ready {
        ghost var whole, before, n := queue.contents, publisher.sent, 0;
        var rc, x := queue.Get(scratch);
        while rc == 0
          invariant n <= |whole| && (if rc == 0 then [x] else []) + queue.contents == whole[n..]
          invariant rc != 0 ==> queue.contents == []
          invariant publisher.sent == before + Messages(whole[..n])
          decreases |whole| - n
        {
          Popped(x, queue.contents, whole, n);
          OneMoreMessage(whole, n);
          publisher.Publish(x);
          n := n + 1;
          rc, x := queue.Get(x);
        }
        assert whole[..n] == whole;
        MessagesPublished(before, whole, publisher.sent);
        ready := false;
      }
    }
  }

  class Thread {
    const imu: PollEvent
    const gnss: PollEvent

    ghost predicate Valid() {
      && imu != gnss && imu.queue != gnss.queue && imu.publisher != gnss.publisher
    }

    constructor (imu: PollEvent, gnss: PollEvent)
      requires imu != gnss && imu.queue != gnss.queue && imu.publisher != gnss.publisher
      ensures Valid() && this.imu == imu && this.gnss == gnss
    {
      this.imu, this.gnss := imu, gnss;
    }

    /**
    One turn of the loop, after the poll returned `rc` having raised the events it found ready: a failed poll
    changes nothing; otherwise every ready queue is published in order and left empty, IMU first.
    */
    method Turn(rc: int, imuReady: bool, gnssReady: bool, scratch: Sample)
      requires Valid() && !imu.ready && !gnss.ready
      modifies imu, imu.queue, imu.publisher, gnss, gnss.queue, gnss.publisher
      ensures !imu.ready && !gnss.ready
      ensures var served := rc == 0 && imuReady;
              && imu.queue.contents == (if served then [] else old(imu.queue.contents))
              && imu.publisher.sent
                 == old(imu.publisher.sent) + Messages(if served then old(imu.queue.contents) else [])
      ensures var served := rc == 0 && gnssReady;
              && gnss.queue.contents == (if served then [] else old(gnss.queue.contents))
              && gnss.publisher.sent
                 == old(gnss.publisher.sent) + Messages(if served then old(gnss.queue.contents) else [])
      ensures Published(old(imu.publisher.sent), if rc == 0 && imuReady then old(imu.queue.contents) else [],
                        imu.publisher.sent)
      ensures Published(old(gnss.publisher.sent), if rc == 0 && gnssReady then old(gnss.queue.contents) else [],
                        gnss.publisher.sent)
    {
      if rc != 0 {
        return;
      }
      imu.ready, gnss.ready := imuReady, gnssReady;
      imu.Serve(scratch);
      gnss.Serve(scratch);
    }
  }
}
