# nexus-streamer replay pipeline in Dafny

A verified model of the replay core of the NeXus Streamer. The streamer reads a
recorded NeXus (HDF5) file and publishes its data to Kafka as if the
experiment were running live. The model covers these parts:

- **Finding sources** (`create_data_sources.dfy`). The traversal of the file is a
  sequence of nodes. Groups are bucketed by their `NX_class` attribute: NXlog and
  NXevent_data. Both the current version and the older top-level version are
  modelled, with their exceptions (`KeyError` for a missing attribute,
  `UnicodeDecodeError`, and the older version's skip of text-valued attributes).
- **Reading events** (`event_data_source.dfy`, `chunks.dfy`). `ChunkCache` is a class
  over a dataset given as its sequence of chunks. Its forward-only
  `get_data_for_pulse` loop is proved against two accumulator-style
  specification functions, `Serve` (what is returned) and `Land` (where the cache
  ends up). `EventDataSource` has these parts:
  - its constructor with every error path (`Open`);
  - the in-place reconciliation of the last `event_index` boundary;
  - the field check;
  - `get_data`, which yields one record per pulse and then the sentinel.
- **Units** (`convert_units.dfy`, `utf8.dfy`). The four integer converters to
  nanoseconds, and the dispatch from a units attribute. The attribute is
  decoded with strict UTF-8 when it is bytes, and looked up in a fixed table of
  spellings that stands in for the pint registry.
- **Streaming** (`source_to_stream.dfy`). The log and event streamers are classes
  with the `start`/`stop`/`done` state machine. One pass of `_publish_loop` is a
  method `Tick(now)` with the wall clock as a parameter. The producer is a class
  holding the list of messages it was handed and a closed flag. What a tick
  pulls is given by `LogDrain`/`EventDrain`, and what it publishes by
  `LogMessages`/`EventMessages`.
- **Running a replay** (`launch.dfy`). Placing the run clock in slow and fast mode,
  the last timestamp, the topic names, placeholder substitution in a given NeXus
  structure, creating and starting the streamers with the run-start message, and
  the `finally` shutdown.

Behaviours of the code worth noting:

- When the last recorded `event_index` entry is below the event count,
  `EventDataSource.__init__` appends `event_count - 1`, not `event_count`
  (nexus_streamer/event_data_source.py:78).
- `get_data` counts pulses from the index as recorded
  (nexus_streamer/event_data_source.py:95). So the appended boundary is never
  read, and events from the last recorded boundary on are not published. The
  model does the same: `GetData` yields `|group.eventIndex| - 1` pulses.
- The code lets `BadSource` escape from `create_data_sources_from_nexus_file`
  (nexus_streamer/create_data_sources_from_nexus.py:39-41), and so does
  `CreateDataSourcesFromNexusFile`.

The model also keeps behaviours of the code that look unplanned but are not
errors:

- `ChunkCache` resets its local start to 0 once a request passes the cached
  chunk. So a first pulse starting past the first chunk is read from that
  chunk's end (`PulseStart`).
- Once the chunk iterator has run out, the last chunk stays cached while the
  start index keeps moving (`ServeStale`).

## Model

| member | source | states |
|---|---|---|
| Chunks.PySlice | nexus_streamer/event_data_source.py:30 | numpy slicing `s[a:b]`: within bounds it is exactly `s[a..b]`, and a start at or past the end gives an empty slice |
| EventDataSource.ChunkCache.constructor | nexus_streamer/event_data_source.py:11-16 | the iterator hands out the first chunk, which is cached with start index 0 |
| EventDataSource.ChunkCache.GetDataForPulse | nexus_streamer/event_data_source.py:18-45 | returns what `Serve` collects and leaves the cache where `Land` says; the cache invariant (the cached chunk is the last one handed out, starting at the start index while the iterator lasts) is preserved |
| EventDataSource.ServeLive | nexus_streamer/event_data_source.py:18-45 | from a live cache, a request returns exactly the dataset's elements `[start, end)`, cut at the dataset's end; the only exception is a start past the cached chunk, which is read from the chunk's end |
| EventDataSource.LandLive | nexus_streamer/event_data_source.py:38-45 | after a request the start index is the offset of the cached chunk, which holds `end`; a request ending inside the cached chunk loads nothing; when the chunks run out, the start index is the dataset's length |
| EventDataSource.InsideChunk | nexus_streamer/event_data_source.py:28-31 | a request ending inside the cached chunk is served from that chunk alone and leaves the cache unchanged |
| EventDataSource.ServeStale | nexus_streamer/event_data_source.py:41-44 | once the iterator has run out, the stale last chunk is sliced and returned short rather than raising; each request past it moves the start index on again |
| EventDataSource.LandWithinRequest | nexus_streamer/event_data_source.py:38-40 | a request moves the start index forward by at most the requested end |
| EventDataSource.ReadPulse | nexus_streamer/event_data_source.py:18-45 | one in-bounds request returns the dataset's `[s, e)` (with the chunk-end start clip) and leaves the cache ready for a request starting at `e` |
| EventDataSource.ChunkCache.GetPulse | nexus_streamer/event_data_source.py:97-101 | the request `get_data` issues for pulse `i` returns the flattened dataset from `PulseStart` to `index[i + 1]`, and the cache is ready for pulse `i + 1` |
| EventDataSource.FramedPrefix | nexus_streamer/event_data_source.py:95-101 | consecutive pulse requests over an ordered index read the dataset without gap or overlap: together they are the stretch from the first start to the last end |
| EventDataSource.MissingFields | nexus_streamer/event_data_source.py:104-119 | a field is logged exactly when it is required and missing |
| EventDataSource.NoneMissing | nexus_streamer/event_data_source.py:104-119 | a group holding every required field logs nothing |
| EventDataSource.HasMissingFields | nexus_streamer/event_data_source.py:104-119 | checks every field in order and logs each missing one, not just the first; the result is true exactly when some required field is missing |
| EventDataSource.MissingFieldRejected | nexus_streamer/event_data_source.py:57-58 | a group lacking any required field is a `BadSource`, whatever else it holds |
| EventDataSource.UnitConverter | nexus_streamer/event_data_source.py:59-67 | a unit converter is chosen exactly when the units attribute is present and recognised; a missing or unknown unit gives `BadSource`, and undecodable bytes give `UnicodeDecodeError` |
| EventDataSource.UnitConverterAsWritten | nexus_streamer/event_data_source.py:121-133 | as written, a missing units attribute ends with `KeyError`; otherwise it agrees with `UnitConverter` |
| EventDataSource.MissingUnitsEscape | nexus_streamer/event_data_source.py:122-125 | a field without units: `KeyError` as written, `BadSource` as intended |
| EventDataSource.Reconcile | nexus_streamer/event_data_source.py:75-83 | below the event count `n`, `n - 1` is appended; otherwise the last entry becomes `n`; the earlier entries are kept and the last becomes `min(last, n)` |
| EventDataSource.ReconcileFramesPulses | nexus_streamer/event_data_source.py:75-98 | for an ordered recorded index, the reconciled boundaries of the pulses `get_data` reads never decrease and never pass the event count |
| EventDataSource.PulseBounds | nexus_streamer/event_data_source.py:97-98 | each pulse read by `get_data` starts no later than it ends, and ends within the events |
| EventDataSource.WellFormedGroupOpens | nexus_streamer/event_data_source.py:57-86 | a group with every field, recognised units, a non-empty index and non-empty datasets opens without error |
| EventDataSource.Open | nexus_streamer/event_data_source.py:49-86 | construction fails exactly when `OpenError` says, and with that error (missing field, then units, then an empty index, then an empty dataset); on success the source holds the group, the chosen units and fresh, unread caches |
| EventDataSource.EventDataSource.constructor | nexus_streamer/event_data_source.py:69-86 | the index is reconciled in place and both caches hold their first chunk |
| EventDataSource.EventDataSource.GetData | nexus_streamer/event_data_source.py:88-102 | yields exactly `Pulses(..., len(event_index) - 1)`, where record `k` is `PulseAt(k)`, followed by the sentinel |
| EventDataSource.EventDataSource.NextRecord | nexus_streamer/event_data_source.py:96-101 | one pass of the loop: the record it yields is the next one of `Pulses` (converted pulse time, converted times of flight and ids of the pulse), and both caches are left ready for the following pulse |
| EventDataSource.PulsesSnoc | nexus_streamer/event_data_source.py:95-101 | the first `n` pulses are the first `n - 1` followed by pulse `n - 1`, so records come out in pulse order |
| EventDataSource.PulseContents | nexus_streamer/event_data_source.py:96-101 | pulse `i` carries the converted `event_time_zero[i]`; its times of flight (converted) and ids are both the stretch `[index[i], index[i + 1])`, so they are equally many |
| EventDataSource.PulsesIds | nexus_streamer/event_data_source.py:99-101 | the ids of the first `n` pulses, one after the other, are what those pulses frame of `event_id` |
| EventDataSource.Name | nexus_streamer/event_data_source.py:135-137 | the name is a suffix of the path that holds no `/` and is preceded by `/` when shorter than the path |
| EventDataSource.NameOfChild | nexus_streamer/event_data_source.py:135-137 | the name of `parent/child` is `child` |
| ConvertUnits.ConvertScales | nexus_streamer/convert_units.py:12-25 | each converter multiplies by its unit's nanosecond count (10^9, 10^6, 10^3, 1); the result is a whole multiple of that count and divides back to the input |
| ConvertUnits.SecondsToNanoseconds | nexus_streamer/convert_units.py:12-13 | `x` seconds become a whole number of nanoseconds that divides by 10^9 back to `x` |
| ConvertUnits.MillisecondsToNanoseconds | nexus_streamer/convert_units.py:16-17 | `x` milliseconds become a whole number of nanoseconds that divides by 10^6 back to `x` |
| ConvertUnits.MicrosecondsToNanoseconds | nexus_streamer/convert_units.py:20-21 | `x` microseconds become a whole number of nanoseconds that divides by 10^3 back to `x` |
| ConvertUnits.NanosecondsToNanoseconds | nexus_streamer/convert_units.py:24-25 | an integer number of nanoseconds is kept as it is |
| ConvertUnits.Convert | nexus_streamer/convert_units.py:12-25 | the converter chosen for unit `u` gives a whole multiple of `u`'s nanosecond count that divides back to the input |
| ConvertUnits.ScalesConsistent | nexus_streamer/convert_units.py:12-25 | seconds to nanoseconds of `x` equals milliseconds of `1000 x`, microseconds of `10^6 x` and nanoseconds of `10^9 x` |
| ConvertUnits.ConvertMonotone | nexus_streamer/convert_units.py:12-25 | every converter preserves order |
| ConvertUnits.Lookup | nexus_streamer/convert_units.py:33-44 | a unit is found exactly when the text is one of its spellings |
| ConvertUnits.SpellingsDisjoint | nexus_streamer/convert_units.py:5-9 | no spelling names two units |
| ConvertUnits.ConversionMethod | nexus_streamer/convert_units.py:28-44 | bytes that are not UTF-8 give `UnicodeDecode`; text is used unchanged and succeeds exactly when the lookup does |
| ConvertUnits.ConversionMethodSelects | nexus_streamer/convert_units.py:28-44 | converter `u` is returned exactly for a spelling of `u` given as text or as its UTF-8 bytes |
| Utf8.DecodeEncode | nexus_streamer/convert_units.py:30 | decoding the UTF-8 encoding of any string gives it back |
| Utf8.EncodeDecode | nexus_streamer/convert_units.py:30 | bytes that decode are the encoding of what they decode to |
| ConvertUnits.ConvertArrayAsWritten | nexus_streamer/event_data_source.py:99 | as written, converting a pulse's time-of-flight array succeeds exactly when it has one element |
| ConvertUnits.AsWrittenRejectsTwoEventPulse | nexus_streamer/event_data_source.py:99 | a pulse with two events, or none, fails as written, while the element-wise conversion keeps both events |
| ConvertUnits.ConvertAllAt | nexus_streamer/event_data_source.py:99 | the intended array conversion converts each element on its own, in place |
| ConvertUnits.ConvertAll | nexus_streamer/event_data_source.py:99 | the intended conversion of a time-of-flight array gives one value per time of flight (element by element, see `ConvertAllAt`) |
| ConvertUnits.ConvertAllSorted | nexus_streamer/event_data_source.py:99 | converting a sorted array keeps it sorted |
| SourceToStream.Producer.Produce | nexus_streamer/source_to_stream.py:64 | the message is appended to what the producer was handed |
| SourceToStream.Producer.Close | src/nexus_streamer/launch_nexus_streamer.py:149 | the producer is closed and nothing more is sent |
| SourceToStream.LogSourceToStream.constructor | nexus_streamer/source_to_stream.py:26-33 | a new streamer is not cancelled, has no task, and keeps its name, topic, producer and offset |
| SourceToStream.LogSourceToStream.Start | nexus_streamer/source_to_stream.py:35-37 | the cancelled flag is cleared, so `done` is false, and the loop starts from timestamp 0 on the fresh generator |
| SourceToStream.LogSourceToStream.Stop | nexus_streamer/source_to_stream.py:39-43 | afterwards `done` holds; the first call cancels the publish task if there is one; a later call changes nothing |
| SourceToStream.LogDrainExit | nexus_streamer/source_to_stream.py:54-67 | a tick stops pulling only once it is cancelled or the last timestamp has reached the run time; the sentinel is the last record pulled |
| SourceToStream.LogDrainPulledBelow | nexus_streamer/source_to_stream.py:55-60 | each record was pulled while the timestamp before it was below the run time, and every record before the last pulled has a value |
| SourceToStream.LogMessagesSkip | nexus_streamer/source_to_stream.py:57-64 | a message is published for a record exactly when the record has a value and a timestamp that is not negative |
| SourceToStream.LogMessagesAppend | nexus_streamer/source_to_stream.py:56-64 | publishing follows the order of the records pulled: the messages of two consecutive stretches are those of the first followed by those of the second |
| SourceToStream.PublishSample | nexus_streamer/source_to_stream.py:57-64 | a sample with a negative timestamp is skipped, any other is produced |
| SourceToStream.DrainLog | nexus_streamer/source_to_stream.py:55-67 | the inner loop pulls exactly what `LogDrain` says and publishes `LogMessages` of the records pulled |
| SourceToStream.LogSourceToStream.Tick | nexus_streamer/source_to_stream.py:49-67 | one tick at `now` drains to the run time `now - start_time_delta`: the remaining records, the last timestamp, the cancelled flag and the published messages are those of `LogDrain`/`LogMessages`; a stopped loop does nothing |
| SourceToStream.EventSourceToStream.constructor | nexus_streamer/source_to_stream.py:86-94 | a new event streamer is not cancelled and starts its message ids at 0 |
| SourceToStream.EventSourceToStream.Start | nexus_streamer/source_to_stream.py:96-98 | the cancelled flag is cleared and the message id carries on |
| SourceToStream.EventSourceToStream.Stop | nexus_streamer/source_to_stream.py:100-104 | afterwards `done` holds; the first call cancels the publish task if there is one; a later call changes nothing |
| SourceToStream.EventDrainExit | nexus_streamer/source_to_stream.py:115-130 | an event tick stops only once cancelled or caught up; the sentinel is pulled last and every record before it is a pulse |
| SourceToStream.EventMessagesAt | nexus_streamer/source_to_stream.py:119-127 | published pulse `j` carries message id `first + j`, its pulse time plus the offset, and its own times of flight and ids |
| SourceToStream.DrainEvents | nexus_streamer/source_to_stream.py:116-130 | the inner loop pulls what `EventDrain` says, publishes `EventMessages` of the records pulled and advances the message id by the number of pulses |
| SourceToStream.EventSourceToStream.Tick | nexus_streamer/source_to_stream.py:110-130 | one tick drains to the run time as `EventDrain` says, publishes `EventMessages` numbered from the current message id, and moves the id on by one per pulse |
| Launch.ComputeRunTiming | src/nexus_streamer/launch_nexus_streamer.py:50-64 | in both modes the duration is `last - recorded start`, the start is `recorded start + delta` and the stop is `last + delta`; in slow mode the start is now, in fast mode the stop is now |
| Launch.FastIsEarlierSlow | src/nexus_streamer/launch_nexus_streamer.py:50-64 | fast mode is slow mode started one run length before now |
| Launch.MaxOf | src/nexus_streamer/launch_nexus_streamer.py:34-39 | `max` returns an element that no element exceeds |
| Launch.LastTimestamp | src/nexus_streamer/launch_nexus_streamer.py:34-39 | the last timestamp is at least every source's final timestamp and is the final timestamp of one of them |
| Launch.TopicsDistinct | src/nexus_streamer/launch_nexus_streamer.py:73-74 | the `_sampleEnv`, `_events` and `_runInfo` topics never coincide, and each determines its instrument |
| Launch.LogTopic | src/nexus_streamer/launch_nexus_streamer.py:73 | the log topic is the instrument name followed by `_sampleEnv` |
| Launch.EventTopic | src/nexus_streamer/launch_nexus_streamer.py:74 | the event topic is the instrument name followed by `_events` |
| Launch.RunInfoTopic | src/nexus_streamer/launch_nexus_streamer.py:123 | the run-start topic is the instrument name followed by `_runInfo` |
| Launch.ReplaceAbsent | src/nexus_streamer/launch_nexus_streamer.py:152-158 | text without the placeholder comes back unchanged |
| Launch.ReplaceAll | src/nexus_streamer/launch_nexus_streamer.py:157 | Python's `str.replace`: an empty pattern inserts the replacement before every character and at the end (the result's length is `n + (n + 1) * k` for a text of length `n` and a replacement of length `k`); a replacement as long as its non-empty pattern keeps the length |
| Launch.ReplaceSelf | src/nexus_streamer/launch_nexus_streamer.py:152-158 | replacing a pattern by itself changes nothing |
| Launch.ReplacePlaceholderTopicNames | src/nexus_streamer/launch_nexus_streamer.py:152-158 | every `SAMPLE_ENV_TOPIC` is replaced by the log topic, then every `EVENT_DATA_TOPIC` by the event topic; text with neither comes back unchanged |
| Launch.NexusStructure | src/nexus_streamer/launch_nexus_streamer.py:75-88 | a given description has its placeholders replaced by this instrument's topics; otherwise the generated structure is used |
| Launch.NewLogStreamers | src/nexus_streamer/launch_nexus_streamer.py:90-101 | one new, distinct, unstarted log streamer per log source, in order, on the log topic with the run's offset and producer |
| Launch.NewEventStreamers | src/nexus_streamer/launch_nexus_streamer.py:102-113 | one new, distinct, unstarted event streamer per event source, in order, with message ids at 0 |
| Launch.StartLogStreamers | src/nexus_streamer/launch_nexus_streamer.py:136-137 | every log streamer is started on its own source's records |
| Launch.StartEventStreamers | src/nexus_streamer/launch_nexus_streamer.py:136-137 | every event streamer is started on its own source's records |
| Launch.StartRun | src/nexus_streamer/launch_nexus_streamer.py:22-137 | with no sources nothing is published or created; otherwise exactly one message goes to `<instrument>_runInfo`: a run start carrying the instrument, the run number, the given description with its placeholders replaced (or else the generated structure), and the computed start and stop; every streamer is started with the run's offset on its topic |
| Launch.Shutdown | src/nexus_streamer/launch_nexus_streamer.py:146-149 | every streamer is stopped (`done`), and a started streamer's task is cancelled by the first stop only; its records, clock, started flag and message id are kept; the producer is closed and nothing more is published |
| Launch.StopLogStreamers | src/nexus_streamer/launch_nexus_streamer.py:147-148 | each log streamer ends done, with its task cancelled once if it was started and not yet stopped, and the rest of its state kept |
| Launch.StopEventStreamers | src/nexus_streamer/launch_nexus_streamer.py:147-148 | each event streamer ends done, with its task cancelled once if it was started and not yet stopped, and the rest of its state, message id included, kept |
| Launch.PublishRun | src/nexus_streamer/launch_nexus_streamer.py:22-149 | with sources, the producer is handed exactly the run-start message (instrument, run number, placeholder-substituted structure, computed start and stop) on `<instrument>_runInfo`; without sources nothing is sent; either way the producer ends closed and every streamer created is done |
| CreateDataSources.GetAttrAsStr | nexus_streamer/create_data_sources_from_nexus.py:6-10 | text is returned unchanged; bytes are decoded as UTF-8 and re-encode to the attribute; a missing attribute raises `KeyError` and undecodable bytes `UnicodeDecodeError` |
| CreateDataSources.ClassOf | create_data_sources_from_nexus.py:14-22 | only groups are filed; the older version skips a group whose attribute is text (the `AttributeError` it swallows); otherwise the class is `GetAttrAsStr` of the attribute |
| CreateDataSources.FindByNxClass | nexus_streamer/create_data_sources_from_nexus.py:13-31 | the keys are exactly the requested classes, and each bucket holds the groups of that class in traversal order; the first exception not swallowed ends the traversal with that error |
| CreateDataSources.FirstErrorStops | nexus_streamer/create_data_sources_from_nexus.py:20-30 | once the traversal has raised, later objects change nothing |
| CreateDataSources.BucketAppend | nexus_streamer/create_data_sources_from_nexus.py:24-26 | buckets keep traversal order: the bucket of a concatenated traversal is the two buckets in sequence |
| CreateDataSources.BucketMembers | nexus_streamer/create_data_sources_from_nexus.py:20-26 | an object is in bucket `c` exactly when the traversal met it as a group of class `c` |
| CreateDataSources.BucketsDisjoint | nexus_streamer/create_data_sources_from_nexus.py:24-26 | an object lands in at most one bucket: together, the buckets of two different classes hold each object no more often than the traversal meets it (as multisets) |
| CreateDataSources.BucketsShareNothing | nexus_streamer/create_data_sources_from_nexus.py:24-26 | when the traversal meets each object once, as `visititems` does, no object is in the buckets of two different classes |
| CreateDataSources.VersionsAgree | create_data_sources_from_nexus.py:14-22 | the two versions bucket every traversal with no text-valued class attribute the same way |
| CreateDataSources.OpenAllErrorFirst | nexus_streamer/create_data_sources_from_nexus.py:39-41 | the event sources are all created exactly when every group opens; otherwise the error is that of the first group that fails |
| CreateDataSources.OpenEventSources | nexus_streamer/create_data_sources_from_nexus.py:39-41 | one new event source per group, in bucket order, or the first construction error |
| CreateDataSources.CreateDataSourcesFromNexusFile | nexus_streamer/create_data_sources_from_nexus.py:34-42 | a traversal error ends the call; otherwise the NXlog bucket, and one event source per NXevent_data group in bucket order, or the first construction error |
| CreateDataSources.LegacyCreateDataSources | create_data_sources_from_nexus.py:28-35 | one list with every log source first and then every event source, each in bucket order, or the traversal error |

## Left out

- HDF5 is not modelled. Datasets are sequences of chunks, the traversal is a sequence of nodes, and attributes are values.
- The chunk order of `iter_chunks` is taken as the dataset's order.
- asyncio is not modelled: tasks, `asyncio.sleep`, the poll interval, and the `while not all(done)` wait between start and shutdown. `Tick` is one pass of the loop with the clock reading `now` as a parameter.
- The `KeyboardInterrupt` itself is not modelled.
- Kafka is not modelled: the producer's poll thread, the `BufferError` retry and delivery callbacks.
- The f142, ev42 and pl72 wire encodings are not modelled. Payloads are plain datatypes.
- publish_run_message is not part of this model. The run-start message carries the instrument, run number, structure, and start and stop times. It does not model the millisecond conversion, the job id or the detector maps.
- The pint registry is a fixed table of spellings for the four units. Floating-point inputs to the converters are not modelled: inputs are integers.
- Logging, command-line parsing, `ns_since_epoch_to_iso8601`, `nexus_file_to_json_description` (a parameter here) and reading the JSON description file (given as text) are not modelled.
- launch_streamer's loop over runs is not modelled.
- The log data source class is not part of this model. Log sources are given by their records and their final timestamp.
- `final_timestamp` of an event source is taken as given. Its definition is not part of this model.
- The callees that `publish_run` imports from its sibling modules (src/nexus_streamer/launch_nexus_streamer.py:3-19: `create_data_sources_from_nexus_file`, `get_recorded_run_start_time_ns`, the streamer classes, `ns_since_epoch_to_iso8601`) are not part of this model. The model uses the one-argument `create_data_sources_from_nexus_file` and the streamer constructors without `slow_mode` of nexus_streamer/, so `fake_events_per_pulse` and `slow_mode` are not modelled. The recorded run start is a parameter.
- `produce`: the streamers call it without the timestamp argument that kafka_producer.py declares. It is treated as an append of the message.
- Generators are not modelled as lazy. `get_data` is modelled as the whole sequence it yields, and a streamer holds the records its generator has still to yield. A restarted streamer is given a fresh sequence, whatever its source's caches have already read.
- Launch.PublishRun: its `logs` and `events` are already-created sources. Exceptions while opening the file or creating the sources happen before this, and the `finally` with no streamers then only closes the producer.
- Launch.PublishRun: it states the run-start message but not the messages the streamers publish, because the wait between start and shutdown is not modelled.
- CreateDataSources.OpenEventSources: states that each source is new and holds its group. It does not state that the caches are unread and consistent, which `EventDataSource.Open` states for each source.
- CreateDataSources.CreateDataSourcesFromNexusFile: NXlog groups are returned as groups, not as log sources.
- EventDataSource.EventDataSource.GetData requires the following, which the source does not check:
  - a non-decreasing recorded index whose entries before the last lie within the events;
  - one pulse time per pulse;
  - as many times of flight as detector ids.

  What the source yields without each of these is not modelled:
  - with fewer pulse times than pulses, `event_time_zero[pulse_number]` raises `IndexError` (nexus_streamer/event_data_source.py:96);
  - with a decreasing index, a request ends before it starts or before the cache's start index. With a signed `event_index` dtype, numpy's negative slice bounds read elements from the wrong place. With an unsigned one, `pulse_end_event - self._start_index` wraps to a huge value, and the cache reads on until it runs out;
  - with an entry before the last past the events, or with fewer times of flight than detector ids, a cache runs out first and returns short slices of its stale last chunk (nexus_streamer/event_data_source.py:41-44, `ServeStale`), so a pulse's times of flight and ids can differ in length.
- ConvertUnits.Scale, ConvertUnits.Convert, ConvertUnits.ConvertAll, EventDataSource.Reconcile: integers are unbounded; numpy's wrap-around on overflow in the converters' multiplications (nexus_streamer/convert_units.py:12-25) and the dtype cast of the appended boundary (nexus_streamer/event_data_source.py:76-80) are not modelled.
- Launch.StartRun: assumes the run-start message is produced. publish_run_message.py calls `producer.produce(...)` without `await`, and whether that sends anything depends on a producer class that is not part of this model.
- CreateDataSources.LegacyCreateDataSources: the older `LogDataSource` and `EventDataSource` constructors (the top-level `data_source` module) are not part of this model. They are taken never to fail, so the only error is the traversal's.
- SourceToStream.LogSourceToStream.Tick: the stopped state of a cancelled task is the cancelled flag. A task cancelled in the middle of a drain is not modelled.
- SourceToStream.EventSourceToStream.Tick: the same cancelled-flag simplification as the log streamer.

## Findings

| source | as written | input that shows it | evidently intended | confidence | as-written member | corrected member |
|---|---|---|---|---|---|---|
| nexus_streamer/event_data_source.py:99 | the event-time converter `int(value * k)` is applied to the whole time-of-flight array of a pulse; `int` of a numpy array only accepts a single element | a pulse with two events (or none): `TypeError` | convert each time of flight on its own | not executed | ConvertUnits.ConvertArrayAsWritten | ConvertUnits.ConvertAllAt |
| nexus_streamer/event_data_source.py:122-125 | a missing `units` attribute raises `KeyError` from `attrs["units"]`, but only `AttributeError` is caught | an `event_time_zero` without a `units` attribute: `KeyError` escapes the constructor | the "unrecognised or missing units" `BadSource` path | not executed | EventDataSource.MissingUnitsEscape | EventDataSource.UnitConverter |

In the first row, `AsWrittenRejectsTwoEventPulse` exhibits the failing input. The
rest of the model converts with `ConvertAll`, and `ConvertAllSorted` proves the
intended order property. In the second row, the as-written definition is
`UnitConverterAsWritten`. The corrected `UnitConverter` decides `Open`.
