/** Running one replay (src/nexus_streamer/launch_nexus_streamer.py): the run
    clock is placed relative to "now", the topic names are derived from the
    instrument, placeholder topics in a given NeXus structure are filled in,
    one streamer per data source is created and started, and on the way out
    every streamer is stopped and the producer closed. The clock reading is a
    parameter; reading the file and the wait for the streamers to finish are
    not part of this model. */
module Launch {
  import opened Wrappers
  import opened EventDataSource
  import opened SourceToStream

  /** The timing of a replayed run: the offset added to every recorded
      timestamp, the wall-clock start and stop of the run, and its length. */
  datatype RunTiming = RunTiming(startTimeDelta: int, streamerStart: int, stop: int, duration: int)

  /** The run timing in slow mode (data published at the pace it was
      recorded, from now on) or fast mode (the run is placed so that it ends
      now), from the recorded run start and the last recorded timestamp. */
  function ComputeRunTiming(slow: bool, now: int, recordedStart: int, lastTimestamp: int): (t: RunTiming)
    ensures t.duration == lastTimestamp - recordedStart
    ensures t.streamerStart == recordedStart + t.startTimeDelta
    ensures t.stop == lastTimestamp + t.startTimeDelta
    ensures slow ==> t.streamerStart == now
    ensures !slow ==> t.stop == now
  {
    if slow then
      var streamerStart := now;
      var delta := streamerStart - recordedStart;
      var stop := lastTimestamp + delta;
      RunTiming(delta, streamerStart, stop, stop - streamerStart)
    else
      var stop := now;
      var duration := lastTimestamp - recordedStart;
      var streamerStart := stop - duration;
      RunTiming(streamerStart - recordedStart, streamerStart, stop, duration)
  }

  /** Fast mode is slow mode started one run length earlier. */
  lemma {:induction false} FastIsEarlierSlow(now: int, recordedStart: int, lastTimestamp: int)
    ensures ComputeRunTiming(false, now, recordedStart, lastTimestamp)
         == ComputeRunTiming(true, now - (lastTimestamp - recordedStart), recordedStart, lastTimestamp)
  {
    var fast := ComputeRunTiming(false, now, recordedStart, lastTimestamp);
    var slow := ComputeRunTiming(true, now - (lastTimestamp - recordedStart), recordedStart, lastTimestamp);
    assert fast.startTimeDelta == slow.startTimeDelta;
  }

  /** The largest element of a non-empty sequence (Python's `max`). */
  function MaxOf(xs: seq<int>): (m: int)
    requires xs != []
    ensures m in xs && forall x :: x in xs ==> x <= m
  {
    if |xs| == 1 then xs[0]
    else
      var front := xs[..|xs| - 1];
      var m := MaxOf(front);
      assert xs == front + [xs[|xs| - 1]];
      if xs[|xs| - 1] > m then xs[|xs| - 1] else m
  }

  /** A log source as the launcher sees it: its name, the records its
      generator yields, and its final timestamp. */
  datatype LogSource<V> = LogSource(name: string, records: seq<LogSample<V>>, finalTimestamp: int)

  /** An event source as the launcher sees it. */
  datatype EventSource = EventSource(name: string, records: seq<PulseRecord>, finalTimestamp: int)

  /** `last_timestamp`: the largest final timestamp over the event and the log
      sources; it is the final timestamp of one of them. */
  function LastTimestamp<V>(logs: seq<LogSource<V>>, events: seq<EventSource>): (r: int)
    requires logs != [] || events != []
    ensures forall i :: 0 <= i < |logs| ==> logs[i].finalTimestamp <= r
    ensures forall i :: 0 <= i < |events| ==> events[i].finalTimestamp <= r
    ensures (exists i :: 0 <= i < |logs| && logs[i].finalTimestamp == r)
         || (exists i :: 0 <= i < |events| && events[i].finalTimestamp == r)
  {
    var ef := seq(|events|, i requires 0 <= i < |events| => events[i].finalTimestamp);
    var lf := seq(|logs|, i requires 0 <= i < |logs| => logs[i].finalTimestamp);
    var all := ef + lf;
    var r := MaxOf(all);
    assert forall i :: 0 <= i < |events| ==> all[i] in all && all[i] == events[i].finalTimestamp;
    assert forall i :: 0 <= i < |logs| ==> all[|ef| + i] in all && all[|ef| + i] == logs[i].finalTimestamp;
    var k :| 0 <= k < |all| && all[k] == r;
    if k < |ef| then
      assert events[k].finalTimestamp == r;
      r
    else
      assert logs[k - |ef|].finalTimestamp == r;
      r
  }

  /** The topic of a run's log data: the instrument name, then `_sampleEnv`. */
  function LogTopic(instrument: string): (t: string)
    ensures |t| == |instrument| + 10 && t[..|instrument|] == instrument && t[|instrument|..] == "_sampleEnv"
  {
    instrument + "_sampleEnv"
  }

  /** The topic of a run's event data: the instrument name, then `_events`. */
  function EventTopic(instrument: string): (t: string)
    ensures |t| == |instrument| + 7 && t[..|instrument|] == instrument && t[|instrument|..] == "_events"
  {
    instrument + "_events"
  }

  /** The topic of a run's start message: the instrument name, then `_runInfo`. */
  function RunInfoTopic(instrument: string): (t: string)
    ensures |t| == |instrument| + 8 && t[..|instrument|] == instrument && t[|instrument|..] == "_runInfo"
  {
    instrument + "_runInfo"
  }

  /** The three topics of a run are different from each other and from the
      topics of any other instrument. */
  lemma TopicsDistinct(instrument: string, other: string)
    ensures LogTopic(instrument) != EventTopic(other)
    ensures LogTopic(instrument) != RunInfoTopic(other)
    ensures EventTopic(instrument) != RunInfoTopic(other)
    ensures LogTopic(instrument) == LogTopic(other) ==> instrument == other
    ensures EventTopic(instrument) == EventTopic(other) ==> instrument == other
    ensures RunInfoTopic(instrument) == RunInfoTopic(other) ==> instrument == other
  {
    var a, b := instrument, other;
    var l, e, ri := LogTopic(a), EventTopic(a), RunInfoTopic(a);
    var l', e', ri' := LogTopic(b), EventTopic(b), RunInfoTopic(b);
    assert l[|l| - 1] == 'v' && e[|e| - 1] == 's' && ri[|ri| - 1] == 'o';
    assert l'[|l'| - 1] == 'v' && e'[|e'| - 1] == 's' && ri'[|ri'| - 1] == 'o';
    if l == l' {
      assert l[..|a|] == a && l'[..|b|] == b;
    }
    if e == e' {
      assert e[..|a|] == a && e'[..|b|] == b;
    }
    if ri == ri' {
      assert ri[..|a|] == a && ri'[..|b|] == b;
    }
  }

  const SampleEnvPlaceholder: string := "SAMPLE_ENV_TOPIC"
  const EventDataPlaceholder: string := "EVENT_DATA_TOPIC"

  /** Whether `pattern` occurs in `s` at index `i`. */
  predicate OccursAt(s: string, pattern: string, i: int)
  {
    0 <= i && i + |pattern| <= |s| && s[i..i + |pattern|] == pattern
  }

  /** Whether `pattern` occurs in `s`. */
  predicate Contains(s: string, pattern: string)
  {
    exists i :: 0 <= i <= |s| && OccursAt(s, pattern, i)
  }

  /** Python's `str.replace`: scanning from the left, every occurrence of
      `pattern` that does not overlap an earlier one is replaced. An empty
      pattern matches before every character and at the end. */
  function ReplaceAll(s: string, pattern: string, replacement: string): (r: string)
    ensures pattern == [] ==> |r| == |s| + (|s| + 1) * |replacement|
    ensures pattern != [] && |replacement| == |pattern| ==> |r| == |s|
    decreases |s|
  {
    if pattern == [] then
      if s == [] then replacement else replacement + [s[0]] + ReplaceAll(s[1..], pattern, replacement)
    else if |s| < |pattern| then s
    else if s[..|pattern|] == pattern then replacement + ReplaceAll(s[|pattern|..], pattern, replacement)
    else [s[0]] + ReplaceAll(s[1..], pattern, replacement)
  }

  /** Text without the pattern comes back unchanged. */
  lemma {:induction false} ReplaceAbsent(s: string, pattern: string, replacement: string)
    requires pattern != [] && !Contains(s, pattern)
    ensures ReplaceAll(s, pattern, replacement) == s
    decreases |s|
  {
    if |s| >= |pattern| {
      assert !OccursAt(s, pattern, 0);
      forall i | OccursAt(s[1..], pattern, i)
        ensures false
      {
        assert s[1..][i..i + |pattern|] == s[i + 1..i + 1 + |pattern|];
        assert OccursAt(s, pattern, i + 1);
      }
      ReplaceAbsent(s[1..], pattern, replacement);
      assert [s[0]] + s[1..] == s;
    }
  }

  /** Replacing a pattern by itself changes nothing. */
  lemma {:induction false} ReplaceSelf(s: string, pattern: string)
    ensures ReplaceAll(s, pattern, pattern) == s
    decreases |s|
  {
    if pattern == [] {
      if s != [] {
        ReplaceSelf(s[1..], pattern);
        assert [s[0]] + s[1..] == s;
      }
    } else if |s| >= |pattern| {
      if s[..|pattern|] == pattern {
        ReplaceSelf(s[|pattern|..], pattern);
        assert s[..|pattern|] + s[|pattern|..] == s;
      } else {
        ReplaceSelf(s[1..], pattern);
        assert [s[0]] + s[1..] == s;
      }
    }
  }

  /** replace_placeholder_topic_names: every SAMPLE_ENV_TOPIC becomes the log
      topic, and then every EVENT_DATA_TOPIC the event topic. */
  method ReplacePlaceholderTopicNames(structure: string, logTopic: string, eventTopic: string) returns (r: string)
    ensures r == ReplaceAll(ReplaceAll(structure, SampleEnvPlaceholder, logTopic), EventDataPlaceholder, eventTopic)
    ensures !Contains(structure, SampleEnvPlaceholder) && !Contains(structure, EventDataPlaceholder) ==> r == structure
  {
    var topics := [(SampleEnvPlaceholder, logTopic), (EventDataPlaceholder, eventTopic)];
    r := structure;
    for i := 0 to |topics|
      invariant i == 0 ==> r == structure
      invariant i == 1 ==> r == ReplaceAll(structure, SampleEnvPlaceholder, logTopic)
      invariant i == 2 ==> r == ReplaceAll(ReplaceAll(structure, SampleEnvPlaceholder, logTopic), EventDataPlaceholder, eventTopic)
    {
      r := ReplaceAll(r, topics[i].0, topics[i].1);
    }
    if !Contains(structure, SampleEnvPlaceholder) && !Contains(structure, EventDataPlaceholder) {
      ReplaceAbsent(structure, SampleEnvPlaceholder, logTopic);
      ReplaceAbsent(structure, EventDataPlaceholder, eventTopic);
    }
  }

  /** The arguments of a run that the model uses. */
  datatype RunArgs = RunArgs(instrument: string, runNumber: int, slow: bool, jsonDescription: Option<string>)

  /** The NeXus structure a run announces: the given description with its
      topic placeholders replaced, or else the generated one. */
  function RunStructure(args: RunArgs, generated: string): string
  {
    if args.jsonDescription.Some? then
      ReplaceAll(ReplaceAll(args.jsonDescription.value, SampleEnvPlaceholder, LogTopic(args.instrument)),
                 EventDataPlaceholder, EventTopic(args.instrument))
    else generated
  }

  /** The NeXus structure sent with the run-start message: a given description
      with its placeholder topics filled in, or the one generated from the
      file (a parameter here). */
  method NexusStructure(args: RunArgs, generated: string) returns (structure: string)
    ensures args.jsonDescription.Some? ==>
      structure == ReplaceAll(ReplaceAll(args.jsonDescription.value, SampleEnvPlaceholder, LogTopic(args.instrument)),
                              EventDataPlaceholder, EventTopic(args.instrument))
    ensures args.jsonDescription.None? ==> structure == generated
  {
    if args.jsonDescription.Some? {
      structure := ReplacePlaceholderTopicNames(args.jsonDescription.value, LogTopic(args.instrument), EventTopic(args.instrument));
    } else {
      structure := generated;
    }
  }

  /** The log streamers of a run, one per log source in source order, not yet
      started: each publishes its source's records to `topic` with the
      run's offset through the run's producer. */
  method NewLogStreamers<V>(producer: Producer<V>, logs: seq<LogSource<V>>, topic: string, delta: int)
    returns (ss: seq<LogSourceToStream<V>>)
    ensures |ss| == |logs|
    ensures forall i :: 0 <= i < |ss| ==>
      && fresh(ss[i]) && ss[i].Valid() && !ss[i].Done() && !ss[i].started
      && ss[i].sourceName == logs[i].name && ss[i].topic == topic
      && ss[i].startTimeDelta == delta && ss[i].producer == producer
    ensures forall i, j :: 0 <= i < j < |ss| ==> ss[i] != ss[j]
  {
    ss := [];
    for i := 0 to |logs|
      invariant |ss| == i
      invariant forall k :: 0 <= k < i ==>
        && fresh(ss[k]) && ss[k].Valid() && !ss[k].Done() && !ss[k].started
        && ss[k].sourceName == logs[k].name && ss[k].topic == topic
        && ss[k].startTimeDelta == delta && ss[k].producer == producer
      invariant forall k, j :: 0 <= k < j < i ==> ss[k] != ss[j]
    {
      var s := new LogSourceToStream(logs[i].name, producer, topic, delta);
      ss := ss + [s];
    }
  }

  /** The event streamers of a run, one per event source in source order. */
  method NewEventStreamers<V>(producer: Producer<V>, events: seq<EventSource>, topic: string, delta: int)
    returns (ss: seq<EventSourceToStream<V>>)
    ensures |ss| == |events|
    ensures forall i :: 0 <= i < |ss| ==>
      && fresh(ss[i]) && ss[i].Valid() && !ss[i].Done() && !ss[i].started && ss[i].messageId == 0
      && ss[i].sourceName == events[i].name && ss[i].topic == topic
      && ss[i].startTimeDelta == delta && ss[i].producer == producer
    ensures forall i, j :: 0 <= i < j < |ss| ==> ss[i] != ss[j]
  {
    ss := [];
    for i := 0 to |events|
      invariant |ss| == i
      invariant forall k :: 0 <= k < i ==>
        && fresh(ss[k]) && ss[k].Valid() && !ss[k].Done() && !ss[k].started && ss[k].messageId == 0
        && ss[k].sourceName == events[k].name && ss[k].topic == topic
        && ss[k].startTimeDelta == delta && ss[k].producer == producer
      invariant forall k, j :: 0 <= k < j < i ==> ss[k] != ss[j]
    {
      var s := new EventSourceToStream(events[i].name, producer, topic, delta);
      ss := ss + [s];
    }
  }

  /** `streamer.start()` for each log streamer, over its source's records. */
  method StartLogStreamers<V>(ss: seq<LogSourceToStream<V>>, logs: seq<LogSource<V>>)
    requires |ss| == |logs| && forall i :: 0 <= i < |logs| ==> LogTerminated(logs[i].records)
    requires forall i, j :: 0 <= i < j < |ss| ==> ss[i] != ss[j]
    modifies ss
    ensures forall i :: 0 <= i < |ss| ==>
      ss[i].Valid() && !ss[i].Done() && ss[i].started && ss[i].pending == logs[i].records
      && ss[i].taskCancels == old(ss[i].taskCancels)
  {
    for i := 0 to |ss|
      invariant forall k :: 0 <= k < i ==>
        ss[k].Valid() && !ss[k].Done() && ss[k].started && ss[k].pending == logs[k].records
        && ss[k].taskCancels == old(ss[k].taskCancels)
      invariant forall k :: i <= k < |ss| ==> ss[k].taskCancels == old(ss[k].taskCancels)
    {
      ss[i].Start(logs[i].records);
    }
  }

  /** `streamer.start()` for each event streamer. */
  method StartEventStreamers<V>(ss: seq<EventSourceToStream<V>>, events: seq<EventSource>)
    requires |ss| == |events| && forall i :: 0 <= i < |events| ==> EventTerminated(events[i].records)
    requires forall i, j :: 0 <= i < j < |ss| ==> ss[i] != ss[j]
    modifies ss
    ensures forall i :: 0 <= i < |ss| ==>
      ss[i].Valid() && !ss[i].Done() && ss[i].started && ss[i].pending == events[i].records
      && ss[i].taskCancels == old(ss[i].taskCancels) && ss[i].messageId == old(ss[i].messageId)
  {
    for i := 0 to |ss|
      invariant forall k :: 0 <= k < i ==>
        ss[k].Valid() && !ss[k].Done() && ss[k].started && ss[k].pending == events[k].records
        && ss[k].taskCancels == old(ss[k].taskCancels) && ss[k].messageId == old(ss[k].messageId)
      invariant forall k :: i <= k < |ss| ==>
        ss[k].taskCancels == old(ss[k].taskCancels) && ss[k].messageId == old(ss[k].messageId)
    {
      ss[i].Start(events[i].records);
    }
  }

  /** publish_run up to the start of the streamers: with no source at all it
      creates nothing and publishes nothing; otherwise it times the run,
      publishes the run-start message on the run-info topic, and creates and
      starts one streamer per log source and then one per event source, all
      with the run's offset. */
  method StartRun<V>(producer: Producer<V>, args: RunArgs, logs: seq<LogSource<V>>, events: seq<EventSource>,
                     recordedStart: int, now: int, generated: string)
    returns (logStreamers: seq<LogSourceToStream<V>>, eventStreamers: seq<EventSourceToStream<V>>)
    requires forall i :: 0 <= i < |logs| ==> LogTerminated(logs[i].records)
    requires forall i :: 0 <= i < |events| ==> EventTerminated(events[i].records)
    modifies producer
    ensures logs == [] && events == [] ==> producer.sent == old(producer.sent)
    ensures logs != [] || events != [] ==>
      var t := ComputeRunTiming(args.slow, now, recordedStart, LastTimestamp(logs, events));
      && |producer.sent| == |old(producer.sent)| + 1 && producer.sent[..|old(producer.sent)|] == old(producer.sent)
      && producer.sent[|old(producer.sent)|]
         == Message(RunInfoTopic(args.instrument),
                    RunStart(args.instrument, args.runNumber, RunStructure(args, generated), t.streamerStart, t.stop))
      && (forall i :: 0 <= i < |logStreamers| ==> logStreamers[i].startTimeDelta == t.startTimeDelta)
      && (forall i :: 0 <= i < |eventStreamers| ==> eventStreamers[i].startTimeDelta == t.startTimeDelta)
    ensures |logStreamers| == |logs| && |eventStreamers| == |events|
    ensures forall i :: 0 <= i < |logStreamers| ==>
      && fresh(logStreamers[i]) && logStreamers[i].Valid() && logStreamers[i].started && !logStreamers[i].Done()
      && logStreamers[i].pending == logs[i].records && logStreamers[i].sourceName == logs[i].name
      && logStreamers[i].topic == LogTopic(args.instrument) && logStreamers[i].producer == producer
    ensures forall i :: 0 <= i < |eventStreamers| ==>
      && fresh(eventStreamers[i]) && eventStreamers[i].Valid() && eventStreamers[i].started && !eventStreamers[i].Done()
      && eventStreamers[i].pending == events[i].records && eventStreamers[i].sourceName == events[i].name
      && eventStreamers[i].topic == EventTopic(args.instrument) && eventStreamers[i].producer == producer
      && eventStreamers[i].messageId == 0
    ensures producer.closed == old(producer.closed)
  {
    logStreamers, eventStreamers := [], [];
    if logs == [] && events == [] {
      return;
    }
    var last := LastTimestamp(logs, events);
    var t := ComputeRunTiming(args.slow, now, recordedStart, last);
    var logTopic, eventTopic := LogTopic(args.instrument), EventTopic(args.instrument);
    var structure := NexusStructure(args, generated);
    producer.Produce(RunInfoTopic(args.instrument),
                     RunStart(args.instrument, args.runNumber, structure, t.streamerStart, t.stop));
    logStreamers := NewLogStreamers(producer, logs, logTopic, t.startTimeDelta);
    eventStreamers := NewEventStreamers(producer, events, eventTopic, t.startTimeDelta);
    StartLogStreamers(logStreamers, logs);
    StartEventStreamers(eventStreamers, events);
  }

  /** The `finally` block of publish_run: every streamer is stopped and the
      producer closed. */
  method Shutdown<V>(producer: Producer<V>, logStreamers: seq<LogSourceToStream<V>>, eventStreamers: seq<EventSourceToStream<V>>)
    requires forall i :: 0 <= i < |logStreamers| ==> logStreamers[i].Valid()
    requires forall i :: 0 <= i < |eventStreamers| ==> eventStreamers[i].Valid()
    modifies producer, logStreamers, eventStreamers
    ensures producer.closed && producer.sent == old(producer.sent)
    ensures forall i :: 0 <= i < |logStreamers| ==> logStreamers[i].Valid() && logStreamers[i].Done()
    ensures forall i :: 0 <= i < |eventStreamers| ==> eventStreamers[i].Valid() && eventStreamers[i].Done()
    ensures forall i :: 0 <= i < |logStreamers| ==> var s := logStreamers[i];
      && s.started == old(s.started) && s.pending == old(s.pending) && s.last == old(s.last)
      && s.taskCancels == old(s.taskCancels) + (if !old(s.cancelled) && old(s.started) then 1 else 0)
    ensures forall i :: 0 <= i < |eventStreamers| ==> var s := eventStreamers[i];
      && s.started == old(s.started) && s.pending == old(s.pending) && s.last == old(s.last)
      && s.messageId == old(s.messageId)
      && s.taskCancels == old(s.taskCancels) + (if !old(s.cancelled) && old(s.started) then 1 else 0)
  {
    StopLogStreamers(logStreamers);
    StopEventStreamers(eventStreamers);
    producer.Close();
  }

  /** The `finally` loop over the log streamers, which come first in
      `streamers`: each log streamer is stopped,
      which cancels its task if it was started and not yet cancelled, and
      leaves the rest of its state as it was. */
  method StopLogStreamers<V>(logStreamers: seq<LogSourceToStream<V>>)
    requires forall i :: 0 <= i < |logStreamers| ==> logStreamers[i].Valid()
    modifies logStreamers
    ensures forall i :: 0 <= i < |logStreamers| ==> logStreamers[i].Valid() && logStreamers[i].Done()
    ensures forall i :: 0 <= i < |logStreamers| ==> var s := logStreamers[i];
      && s.started == old(s.started) && s.pending == old(s.pending) && s.last == old(s.last)
      && s.taskCancels == old(s.taskCancels) + (if !old(s.cancelled) && old(s.started) then 1 else 0)
  {
    for i := 0 to |logStreamers|
      invariant forall j :: 0 <= j < |logStreamers| ==> logStreamers[j].Valid()
      invariant forall j :: 0 <= j < |logStreamers| ==> var s := logStreamers[j];
        && s.started == old(s.started) && s.pending == old(s.pending) && s.last == old(s.last)
        && ((s.cancelled == old(s.cancelled) && s.taskCancels == old(s.taskCancels))
            || (s.cancelled && s.taskCancels == old(s.taskCancels) + (if !old(s.cancelled) && old(s.started) then 1 else 0)))
      invariant forall j :: 0 <= j < i ==> logStreamers[j].Done()
    {
      logStreamers[i].Stop();
    }
  }

  /** The `finally` loop over the event streamers, which follow the log
      streamers in `streamers`; the message id is kept as well. */
  method StopEventStreamers<V>(eventStreamers: seq<EventSourceToStream<V>>)
    requires forall i :: 0 <= i < |eventStreamers| ==> eventStreamers[i].Valid()
    modifies eventStreamers
    ensures forall i :: 0 <= i < |eventStreamers| ==> eventStreamers[i].Valid() && eventStreamers[i].Done()
    ensures forall i :: 0 <= i < |eventStreamers| ==> var s := eventStreamers[i];
      && s.started == old(s.started) && s.pending == old(s.pending) && s.last == old(s.last)
      && s.messageId == old(s.messageId)
      && s.taskCancels == old(s.taskCancels) + (if !old(s.cancelled) && old(s.started) then 1 else 0)
  {
    for i := 0 to |eventStreamers|
      invariant forall j :: 0 <= j < |eventStreamers| ==> eventStreamers[j].Valid()
      invariant forall j :: 0 <= j < |eventStreamers| ==> var s := eventStreamers[j];
        && s.started == old(s.started) && s.pending == old(s.pending) && s.last == old(s.last)
        && s.messageId == old(s.messageId)
        && ((s.cancelled == old(s.cancelled) && s.taskCancels == old(s.taskCancels))
            || (s.cancelled && s.taskCancels == old(s.taskCancels) + (if !old(s.cancelled) && old(s.started) then 1 else 0)))
      invariant forall j :: 0 <= j < i ==> eventStreamers[j].Done()
    {
      eventStreamers[i].Stop();
    }
  }

  /** publish_run with the streamers stopped as soon as they are started (the
      wait for them to finish is not modelled): every streamer created is
      stopped, and the producer is closed whether or not there was anything
      to stream. */
  method PublishRun<V>(producer: Producer<V>, args: RunArgs, logs: seq<LogSource<V>>, events: seq<EventSource>,
                       recordedStart: int, now: int, generated: string)
    returns (logStreamers: seq<LogSourceToStream<V>>, eventStreamers: seq<EventSourceToStream<V>>)
    requires forall i :: 0 <= i < |logs| ==> LogTerminated(logs[i].records)
    requires forall i :: 0 <= i < |events| ==> EventTerminated(events[i].records)
    modifies producer
    ensures producer.closed
    ensures logs == [] && events == [] ==> logStreamers == [] && eventStreamers == [] && producer.sent == old(producer.sent)
    ensures logs != [] || events != [] ==>
      var t := ComputeRunTiming(args.slow, now, recordedStart, LastTimestamp(logs, events));
      producer.sent == old(producer.sent)
        + [Message(RunInfoTopic(args.instrument),
                   RunStart(args.instrument, args.runNumber, RunStructure(args, generated), t.streamerStart, t.stop))]
    ensures |logStreamers| == |logs| && |eventStreamers| == |events|
    ensures forall i :: 0 <= i < |logStreamers| ==> logStreamers[i].Done()
    ensures forall i :: 0 <= i < |eventStreamers| ==> eventStreamers[i].Done()
  {
    logStreamers, eventStreamers := StartRun(producer, args, logs, events, recordedStart, now, generated);
    Shutdown(producer, logStreamers, eventStreamers);
  }
}
