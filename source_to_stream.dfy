/** Replaying a data source onto a stream (nexus_streamer/source_to_stream.py):
    each streamer runs a publish loop that, once per tick, pulls records from
    its source until it has caught up with the replayed run clock, hands a
    message per record to the producer, and stops at the source's sentinel.
    The asyncio task is modelled by its state (started, cancelled) and one
    tick of its loop by a method taking the wall clock `now`; the producer by
    the log of messages it was handed. */
module SourceToStream {
  import opened Wrappers
  import opened EventDataSource

  /** A serialised payload: an f142 log sample, an ev42 event message, or the
      pl72 run-start message of a run. The wire encodings themselves are not
      modelled. */
  datatype Payload<V> =
    | F142(source: string, value: V, timestamp: int)
    | Ev42(source: string, messageId: int, pulseTime: int, tof: seq<int>, ids: seq<int>)
    | RunStart(instrument: string, runNumber: int, structure: string, startTime: int, stopTime: int)

  datatype Message<V> = Message(topic: string, payload: Payload<V>)

  /** The producer every streamer of a run shares: what it was asked to
      publish, in order, and whether it has been closed. */
  class Producer<V> {
    var sent: seq<Message<V>>
    var closed: bool

    constructor ()
      ensures sent == [] && !closed
    {
      sent := [];
      closed := false;
    }

    /** produce: queues one message (the retry on a full buffer is not modelled). */
    method Produce(topic: string, payload: Payload<V>)
      modifies this
      ensures sent == old(sent) + [Message(topic, payload)] && closed == old(closed)
    {
      sent := sent + [Message(topic, payload)];
    }

    method Close()
      modifies this
      ensures closed && sent == old(sent)
    {
      closed := true;
    }
  }

  /** One record of a log source's generator: a value and its timestamp; a
      record without a value is the sentinel that ends the data. */
  datatype LogSample<V> = LogSample(value: Option<V>, timestamp: int)

  /** What one tick's drain does to the loop's state: how many records it
      pulled, the last timestamp it read, and whether it met the sentinel. */
  datatype Drained = Drained(pulled: nat, last: int, ended: bool)

  /** A log generator still to be drained ends with its sentinel. */
  predicate LogTerminated<V>(pending: seq<LogSample<V>>)
  {
    |pending| > 0 && pending[|pending| - 1].value.None?
  }

  /** The inner loop of the log streamer's `_publish_loop` for the run time
      `runTime`, after `pulled` records: while the last timestamp is below
      the run time, pull the next record; the sentinel ends the drain. */
  function LogDrain<V>(pending: seq<LogSample<V>>, last: int, runTime: int, pulled: nat): Drained
    decreases |pending|
  {
    if runTime <= last || pending == [] then Drained(pulled, last, false)
    else if pending[0].value.None? then Drained(pulled + 1, pending[0].timestamp, true)
    else LogDrain(pending[1..], pending[0].timestamp, runTime, pulled + 1)
  }

  /** The messages a log streamer publishes for the records it pulled: one
      f142 sample per record with a value and a timestamp that is not
      negative, in the order pulled. */
  function LogMessages<V>(topic: string, name: string, samples: seq<LogSample<V>>): seq<Message<V>>
  {
    if samples == [] then []
    else LogMessages(topic, name, samples[..|samples| - 1]) + LogMessage(topic, name, samples[|samples| - 1])
  }

  /** What the loop publishes for one record it pulled. */
  function LogMessage<V>(topic: string, name: string, s: LogSample<V>): seq<Message<V>>
  {
    if s.value.Some? && s.timestamp >= 0 then [Message(topic, F142(name, s.value.value, s.timestamp))] else []
  }

  /** The drain stops only once it has caught up with the run time or met the
      sentinel, and the sentinel is the last record it pulls. */
  lemma {:induction false} LogDrainExit<V>(pending: seq<LogSample<V>>, last: int, runTime: int, pulled: nat)
    requires LogTerminated(pending)
    ensures var d := LogDrain(pending, last, runTime, pulled);
      && pulled <= d.pulled <= pulled + |pending|
      && (d.ended || runTime <= d.last)
      && (d.ended ==> pulled < d.pulled && pending[d.pulled - pulled - 1].value.None?)
    decreases |pending|
  {
    if last < runTime && pending[0].value.Some? {
      var rest := pending[1..];
      LogDrainExit(rest, pending[0].timestamp, runTime, pulled + 1);
      var d := LogDrain(rest, pending[0].timestamp, runTime, pulled + 1);
      if d.ended {
        assert rest[d.pulled - pulled - 2] == pending[d.pulled - pulled - 1];
      }
    }
  }

  /** Each record the drain pulls was pulled while the timestamp before it was
      below the run time, and every record but the last one pulled has a value. */
  lemma {:induction false} LogDrainPulledBelow<V>(pending: seq<LogSample<V>>, last: int, runTime: int, pulled: nat, j: nat)
    requires LogTerminated(pending) && j < |pending|
    requires j < LogDrain(pending, last, runTime, pulled).pulled - pulled
    ensures (if j == 0 then last else pending[j - 1].timestamp) < runTime
    ensures j + 1 < LogDrain(pending, last, runTime, pulled).pulled - pulled ==> pending[j].value.Some?
    decreases |pending|
  {
    assert last < runTime;
    if pending[0].value.None? {
      assert j == 0;
    } else if j > 0 {
      var rest := pending[1..];
      LogDrainPulledBelow(rest, pending[0].timestamp, runTime, pulled + 1, j - 1);
      if j > 1 {
        assert rest[j - 2] == pending[j - 1];
      }
      assert rest[j - 1] == pending[j];
    }
  }

  /** Publishing is a filter over the records pulled: records are published in
      the order pulled, each at most once, so the messages of consecutive
      drains are those of the records they pulled together. */
  lemma {:induction false} LogMessagesAppend<V>(topic: string, name: string, a: seq<LogSample<V>>, b: seq<LogSample<V>>)
    ensures LogMessages(topic, name, a + b) == LogMessages(topic, name, a) + LogMessages(topic, name, b)
    decreases |b|
  {
    if b != [] {
      var front := b[..|b| - 1];
      assert (a + b)[..|a + b| - 1] == a + front;
      var last := b[|b| - 1];
      assert (a + b)[|a + b| - 1] == last;
      var tail := LogMessage(topic, name, last);
      assert LogMessages(topic, name, a + b) == LogMessages(topic, name, a + front) + tail;
      LogMessagesAppend(topic, name, a, front);
      assert LogMessages(topic, name, b) == LogMessages(topic, name, front) + tail;
    } else {
      assert a + b == a;
    }
  }

  /** The message a log record is published as, if it is published at all. */
  ghost predicate Publishes<V>(topic: string, name: string, s: LogSample<V>, m: Message<V>)
  {
    s.value.Some? && s.timestamp >= 0 && m == Message(topic, F142(name, s.value.value, s.timestamp))
  }

  /** A message is published for a record exactly when it has a value and a
      timestamp that is not negative. */
  lemma {:induction false} LogMessagesSkip<V>(topic: string, name: string, samples: seq<LogSample<V>>, m: Message<V>)
    ensures m in LogMessages(topic, name, samples) <==>
      exists j :: 0 <= j < |samples| && Publishes(topic, name, samples[j], m)
  {
    if samples != [] {
      var n := |samples| - 1;
      var front := samples[..n];
      LogMessagesSkip(topic, name, front, m);
      if m in LogMessages(topic, name, front) {
        var j :| 0 <= j < |front| && Publishes(topic, name, front[j], m);
        assert samples[j] == front[j];
      }
      if exists j :: 0 <= j < |samples| && Publishes(topic, name, samples[j], m) {
        var j :| 0 <= j < |samples| && Publishes(topic, name, samples[j], m);
        if j < n {
          assert front[j] == samples[j];
        }
      }
    }
  }

  /** One pull of the log drain, unfolded. */
  lemma LogDrainStep<V>(records: seq<LogSample<V>>, pulled: nat, rest: seq<LogSample<V>>, lastTs: int, runTime: int)
    requires pulled < |records| && rest == records[pulled..] && lastTs < runTime
    ensures rest[0] == records[pulled] && rest[1..] == records[pulled + 1..]
    ensures records[..pulled + 1] == records[..pulled] + [rest[0]]
    ensures LogDrain(rest, lastTs, runTime, pulled)
         == if rest[0].value.None? then Drained(pulled + 1, rest[0].timestamp, true)
            else LogDrain(rest[1..], rest[0].timestamp, runTime, pulled + 1)
  {
  }

  lemma LogMessagesSnoc<V>(topic: string, name: string, samples: seq<LogSample<V>>, s: LogSample<V>)
    ensures LogMessages(topic, name, samples + [s]) == LogMessages(topic, name, samples) + LogMessage(topic, name, s)
  {
    assert (samples + [s])[..|samples|] == samples;
  }

  /** The inner loop of the log streamer's `_publish_loop` for the run time
      `runTime`, run against the producer: it pulls what LogDrain says and
      publishes what LogMessages says of the records it pulled. */
  method DrainLog<V>(producer: Producer<V>, topic: string, name: string, pending: seq<LogSample<V>>, last: int, runTime: int)
    returns (pulled: nat, lastTs: int, ended: bool)
    requires LogTerminated(pending)
    modifies producer
    ensures Drained(pulled, lastTs, ended) == LogDrain(pending, last, runTime, 0)
    ensures pulled <= |pending| && (!ended ==> LogTerminated(pending[pulled..]))
    ensures producer.sent == old(producer.sent) + LogMessages(topic, name, pending[..pulled])
    ensures producer.closed == old(producer.closed)
  {
    var rest;
    rest, lastTs, ended, pulled := pending, last, false, 0;
    while lastTs < runTime
      invariant pulled <= |pending| && rest == pending[pulled..] && LogTerminated(rest) && !ended
      invariant producer.closed == old(producer.closed)
      invariant producer.sent == old(producer.sent) + LogMessages(topic, name, pending[..pulled])
      invariant LogDrain(rest, lastTs, runTime, pulled) == LogDrain(pending, last, runTime, 0)
      decreases |rest|
    {
      var sample := rest[0];
      LogDrainStep(pending, pulled, rest, lastTs, runTime);
      LogMessagesSnoc(topic, name, pending[..pulled], sample);
      rest := rest[1..];
      pulled := pulled + 1;
      lastTs := sample.timestamp;
      if sample.value.None? {
        ended := true;
        return;
      }
      PublishSample(producer, topic, name, sample);
    }
  }

  /** The body of the drain for a record with a value: a sample with a
      negative timestamp is skipped, any other is produced. */
  method PublishSample<V>(producer: Producer<V>, topic: string, name: string, sample: LogSample<V>)
    requires sample.value.Some?
    modifies producer
    ensures producer.sent == old(producer.sent) + LogMessage(topic, name, sample)
    ensures producer.closed == old(producer.closed)
  {
    if sample.timestamp < 0 {
      return;
    }
    producer.Produce(topic, F142(name, sample.value.value, sample.timestamp));
  }

  /** LogSourceToStream: a log source's streamer. `pending` is what the
      running loop's generator still holds and `last` its `last_timestamp_ns`;
      `started` says whether a publish task was created. */
  class LogSourceToStream<V> {
    const sourceName: string
    const topic: string
    const startTimeDelta: int
    const producer: Producer<V>
    var cancelled: bool
    var started: bool
    /** How many times `stop` cancelled the publish task. */
    var taskCancels: nat
    var pending: seq<LogSample<V>>
    var last: int

    ghost predicate Valid()
      reads this
    {
      started && !cancelled ==> LogTerminated(pending)
    }

    /** The `done` property. */
    predicate Done()
      reads this
    {
      cancelled
    }

    constructor (sourceName: string, producer: Producer<V>, topic: string, startTimeDelta: int)
      ensures Valid() && !Done() && !started && taskCancels == 0
      ensures this.sourceName == sourceName && this.producer == producer
      ensures this.topic == topic && this.startTimeDelta == startTimeDelta
    {
      this.sourceName := sourceName;
      this.producer := producer;
      this.topic := topic;
      this.startTimeDelta := startTimeDelta;
      cancelled := false;
      started := false;
      taskCancels := 0;
      pending := [];
      last := 0;
    }

    /** start: clears the cancelled flag and creates the publish task, whose
        loop reads the fresh generator `records` from timestamp 0. */
    method Start(records: seq<LogSample<V>>)
      requires LogTerminated(records)
      modifies this
      ensures Valid() && !Done() && started && pending == records && last == 0
      ensures taskCancels == old(taskCancels)
    {
      cancelled := false;
      started := true;
      pending := records;
      last := 0;
    }

    /** stop: the first call sets the cancelled flag and cancels the publish task if
        there is one; a later call changes nothing. */
    method Stop()
      requires Valid()
      modifies this
      ensures Valid() && Done()
      ensures old(cancelled) ==> unchanged(this)
      ensures !old(cancelled) ==> taskCancels == old(taskCancels) + (if started then 1 else 0)
      ensures started == old(started) && pending == old(pending) && last == old(last)
    {
      if !cancelled {
        cancelled := true;
        if started {
          taskCancels := taskCancels + 1;
        }
      }
    }

    /** One pass of the outer loop of `_publish_loop` at wall-clock time
        `now`: drains the generator up to the run time `now - startTimeDelta`
        (see LogDrain), publishes what LogMessages says, and sets the
        cancelled flag on the sentinel. A loop that is not running does
        nothing. */
    method Tick(now: int)
      requires Valid()
      modifies this, producer
      ensures Valid()
      ensures var d := LogDrain(old(pending), old(last), now - startTimeDelta, 0);
        old(started && !cancelled) ==>
          && d.pulled <= |old(pending)| && pending == old(pending)[d.pulled..]
          && last == d.last && cancelled == d.ended
          && producer.sent == old(producer.sent) + LogMessages(topic, sourceName, old(pending)[..d.pulled])
      ensures !old(started && !cancelled) ==> pending == old(pending) && last == old(last) && cancelled == old(cancelled)
      ensures !old(started && !cancelled) ==> producer.sent == old(producer.sent)
      ensures started == old(started) && taskCancels == old(taskCancels) && producer.closed == old(producer.closed)
    {
      if !started || cancelled {
        return;
      }
      var pulled, lastTs, ended := DrainLog(producer, topic, sourceName, pending, last, now - startTimeDelta);
      pending, last, cancelled := pending[pulled..], lastTs, ended;
    }
  }

  /** An event generator still to be drained ends with its sentinel. */
  predicate EventTerminated(pending: seq<PulseRecord>)
  {
    |pending| > 0 && pending[|pending| - 1] == EndOfData
  }

  /** The timestamp the event loop reads from a record: the pulse time, or 0
      from the sentinel. */
  function TimeOf(r: PulseRecord): int
  {
    if r.Pulse? then r.time else 0
  }

  /** The inner loop of the event streamer's `_publish_loop`. */
  function EventDrain(pending: seq<PulseRecord>, last: int, runTime: int, pulled: nat): Drained
    decreases |pending|
  {
    if runTime <= last || pending == [] then Drained(pulled, last, false)
    else if pending[0].EndOfData? then Drained(pulled + 1, 0, true)
    else EventDrain(pending[1..], pending[0].time, runTime, pulled + 1)
  }

  /** The number of pulses (not sentinels) among `records`. */
  function PulseCount(records: seq<PulseRecord>): nat
  {
    if records == [] then 0
    else PulseCount(records[..|records| - 1]) + (if records[|records| - 1].Pulse? then 1 else 0)
  }

  /** The ev42 messages an event streamer publishes for the records it
      pulled, numbering them from `firstId` and shifting each pulse time by
      `delta`. */
  function EventMessages<V>(topic: string, name: string, records: seq<PulseRecord>, firstId: int, delta: int): seq<Message<V>>
  {
    if records == [] then []
    else
      var front, r := records[..|records| - 1], records[|records| - 1];
      EventMessages(topic, name, front, firstId, delta)
        + (if r.Pulse? then [Message(topic, Ev42(name, firstId + PulseCount(front), r.time + delta, r.tof, r.ids))] else [])
  }

  /** The event drain stops only once it has caught up with the run time or
      met the sentinel, which it pulls last. */
  lemma {:induction false} EventDrainExit(pending: seq<PulseRecord>, last: int, runTime: int, pulled: nat)
    requires EventTerminated(pending)
    ensures var d := EventDrain(pending, last, runTime, pulled);
      && pulled <= d.pulled <= pulled + |pending|
      && (d.ended || runTime <= d.last)
      && (d.ended ==> pulled < d.pulled && pending[d.pulled - pulled - 1] == EndOfData)
      && forall j :: 0 <= j < d.pulled - pulled - 1 ==> pending[j].Pulse?
    decreases |pending|
  {
    if last < runTime && pending[0].Pulse? {
      var rest := pending[1..];
      EventDrainExit(rest, pending[0].time, runTime, pulled + 1);
      var d := EventDrain(rest, pending[0].time, runTime, pulled + 1);
      if d.ended {
        assert rest[d.pulled - pulled - 2] == pending[d.pulled - pulled - 1];
      }
      forall j | 1 <= j < d.pulled - pulled - 1
        ensures pending[j].Pulse?
      {
        assert rest[j - 1] == pending[j];
      }
    }
  }

  /** Published pulses carry consecutive message ids from `firstId` and their
      pulse time shifted by `delta`, in the order of the pulses. */
  lemma {:induction false} EventMessagesAt<V>(topic: string, name: string, records: seq<PulseRecord>, firstId: int, delta: int)
    requires forall j :: 0 <= j < |records| ==> records[j].Pulse?
    ensures var ms := EventMessages<V>(topic, name, records, firstId, delta);
      && |ms| == |records| == PulseCount(records)
      && forall j :: 0 <= j < |records| ==>
           ms[j] == Message(topic, Ev42(name, firstId + j, records[j].time + delta, records[j].tof, records[j].ids))
  {
    if records != [] {
      var front := records[..|records| - 1];
      EventMessagesAt<V>(topic, name, front, firstId, delta);
    }
  }

  /** One pull of the event drain, unfolded. */
  lemma EventDrainStep(records: seq<PulseRecord>, pulled: nat, rest: seq<PulseRecord>, lastTs: int, runTime: int)
    requires pulled < |records| && rest == records[pulled..] && lastTs < runTime
    ensures rest[0] == records[pulled] && rest[1..] == records[pulled + 1..]
    ensures records[..pulled + 1] == records[..pulled] + [rest[0]]
    ensures EventDrain(rest, lastTs, runTime, pulled)
         == if rest[0].EndOfData? then Drained(pulled + 1, 0, true)
            else EventDrain(rest[1..], rest[0].time, runTime, pulled + 1)
  {
  }

  lemma EventMessagesSnoc<V>(topic: string, name: string, records: seq<PulseRecord>, r: PulseRecord, firstId: int, delta: int)
    ensures PulseCount(records + [r]) == PulseCount(records) + (if r.Pulse? then 1 else 0)
    ensures EventMessages<V>(topic, name, records + [r], firstId, delta)
         == EventMessages<V>(topic, name, records, firstId, delta)
            + (if r.Pulse? then [Message(topic, Ev42(name, firstId + PulseCount(records), r.time + delta, r.tof, r.ids))] else [])
  {
    assert (records + [r])[..|records|] == records;
  }

  /** The inner loop of the event streamer's `_publish_loop` for the run time
      `runTime`, run against the producer: it pulls what EventDrain says and
      publishes what EventMessages says of the records it pulled, numbering
      them from `firstId` on; `id` is the next message id. */
  method DrainEvents<V>(producer: Producer<V>, topic: string, name: string, pending: seq<PulseRecord>, last: int, runTime: int,
                        delta: int, firstId: int)
    returns (pulled: nat, lastTs: int, ended: bool, id: int)
    requires EventTerminated(pending)
    modifies producer
    ensures Drained(pulled, lastTs, ended) == EventDrain(pending, last, runTime, 0)
    ensures pulled <= |pending| && (!ended ==> EventTerminated(pending[pulled..]))
    ensures id == firstId + PulseCount(pending[..pulled])
    ensures producer.sent == old(producer.sent) + EventMessages(topic, name, pending[..pulled], firstId, delta)
    ensures producer.closed == old(producer.closed)
  {
    var rest;
    rest, lastTs, ended, pulled, id := pending, last, false, 0, firstId;
    while lastTs < runTime
      invariant pulled <= |pending| && rest == pending[pulled..] && EventTerminated(rest) && !ended
      invariant producer.closed == old(producer.closed)
      invariant id == firstId + PulseCount(pending[..pulled])
      invariant producer.sent == old(producer.sent) + EventMessages(topic, name, pending[..pulled], firstId, delta)
      invariant EventDrain(rest, lastTs, runTime, pulled) == EventDrain(pending, last, runTime, 0)
      decreases |rest|
    {
      var record := rest[0];
      EventDrainStep(pending, pulled, rest, lastTs, runTime);
      EventMessagesSnoc<V>(topic, name, pending[..pulled], record, firstId, delta);
      rest := rest[1..];
      pulled := pulled + 1;
      if record.Pulse? {
        lastTs := record.time;
        producer.Produce(topic, Ev42(name, id, lastTs + delta, record.tof, record.ids));
        id := id + 1;
      } else {
        lastTs := 0;
        ended := true;
        return;
      }
    }
  }

  /** EventSourceToStream: an event source's streamer, which also numbers the
      messages it publishes. */
  class EventSourceToStream<V> {
    const sourceName: string
    const topic: string
    const startTimeDelta: int
    const producer: Producer<V>
    var cancelled: bool
    var started: bool
    var taskCancels: nat
    var messageId: int
    var pending: seq<PulseRecord>
    var last: int

    ghost predicate Valid()
      reads this
    {
      started && !cancelled ==> EventTerminated(pending)
    }

    predicate Done()
      reads this
    {
      cancelled
    }

    constructor (sourceName: string, producer: Producer<V>, topic: string, startTimeDelta: int)
      ensures Valid() && !Done() && !started && taskCancels == 0 && messageId == 0
      ensures this.sourceName == sourceName && this.producer == producer
      ensures this.topic == topic && this.startTimeDelta == startTimeDelta
    {
      this.sourceName := sourceName;
      this.producer := producer;
      this.topic := topic;
      this.startTimeDelta := startTimeDelta;
      cancelled := false;
      started := false;
      taskCancels := 0;
      messageId := 0;
      pending := [];
      last := 0;
    }

    /** start: as for a log streamer; the message id carries on from where
        it stands. */
    method Start(records: seq<PulseRecord>)
      requires EventTerminated(records)
      modifies this
      ensures Valid() && !Done() && started && pending == records && last == 0
      ensures taskCancels == old(taskCancels) && messageId == old(messageId)
    {
      cancelled := false;
      started := true;
      pending := records;
      last := 0;
    }

    method Stop()
      requires Valid()
      modifies this
      ensures Valid() && Done()
      ensures old(cancelled) ==> unchanged(this)
      ensures !old(cancelled) ==> taskCancels == old(taskCancels) + (if started then 1 else 0)
      ensures started == old(started) && pending == old(pending) && last == old(last) && messageId == old(messageId)
    {
      if !cancelled {
        cancelled := true;
        if started {
          taskCancels := taskCancels + 1;
        }
      }
    }

    /** One pass of the outer loop of `_publish_loop` at wall-clock time `now`:
        every pulse pulled is published with the next message id and its pulse
        time shifted by `startTimeDelta`; the sentinel sets the cancelled flag. */
    method Tick(now: int)
      requires Valid()
      modifies this, producer
      ensures Valid()
      ensures var d := EventDrain(old(pending), old(last), now - startTimeDelta, 0);
        old(started && !cancelled) ==>
          && d.pulled <= |old(pending)| && pending == old(pending)[d.pulled..]
          && last == d.last && cancelled == d.ended
          && messageId == old(messageId) + PulseCount(old(pending)[..d.pulled])
          && producer.sent == old(producer.sent)
               + EventMessages(topic, sourceName, old(pending)[..d.pulled], old(messageId), startTimeDelta)
      ensures !old(started && !cancelled) ==>
        pending == old(pending) && last == old(last) && cancelled == old(cancelled) && messageId == old(messageId)
      ensures !old(started && !cancelled) ==> producer.sent == old(producer.sent)
      ensures started == old(started) && taskCancels == old(taskCancels) && producer.closed == old(producer.closed)
    {
      if !started || cancelled {
        return;
      }
      var pulled, lastTs, ended, id := DrainEvents(producer, topic, sourceName, pending, last, now - startTimeDelta, startTimeDelta, messageId);
      pending, last, cancelled, messageId := pending[pulled..], lastTs, ended, id;
    }
  }
}
