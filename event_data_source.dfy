/** Forward-only chunk reading and pulse framing of an NXevent_data group
    (nexus_streamer/event_data_source.py). */
module EventDataSource {
  import opened Wrappers
  import opened Chunks
  import opened ConvertUnits

  function Min(a: int, b: int): int { if a < b then a else b }

  /** Where a request leaves the cache: how many chunks the iterator has handed
      out, how far the cache's start index has moved, and whether the iterator
      ran out on the way. */
  datatype Landing = Landing(consumed: nat, advance: nat, ranOut: bool)

  /** What the loop of get_data_for_pulse returns, `acc` followed by what it
      collects for the local bounds `[s, e)` from the cached chunk `chunk` on,
      after `consumed` chunks of `dataset` have been handed out: a request
      ending inside the chunk takes its slice; otherwise the rest of the chunk
      is taken and the next chunk, read from its start, serves what is left,
      until the iterator runs out. */
  function Serve<T>(dataset: seq<seq<T>>, consumed: nat, chunk: seq<T>, s: nat, e: nat, acc: seq<T>): seq<T>
    decreases |dataset| - consumed
  {
    if e < |chunk| then acc + PySlice(chunk, s, e)
    else if consumed >= |dataset| then acc + PySlice(chunk, s, |chunk|)
    else Serve(dataset, consumed + 1, dataset[consumed], 0, e - |chunk|, acc + PySlice(chunk, s, |chunk|))
  }

  /** Where the same loop leaves the cache, once the start index has already
      moved by `advance`. */
  function Land<T>(dataset: seq<seq<T>>, consumed: nat, chunk: seq<T>, e: nat, advance: nat): Landing
    decreases |dataset| - consumed
  {
    if e < |chunk| then Landing(consumed, advance, false)
    else if consumed >= |dataset| then Landing(consumed, advance + |chunk|, true)
    else Land(dataset, consumed + 1, dataset[consumed], e - |chunk|, advance + |chunk|)
  }

  /** A request reaching past the cached chunk, while the iterator has more,
      continues from the start of the next chunk. */
  lemma NextChunk<T>(dataset: seq<seq<T>>, consumed: nat, chunk: seq<T>, startIndex: nat, live: bool,
                     s: nat, e: nat, acc: seq<T>, advance: nat)
    requires Cached(dataset, consumed, chunk, startIndex, live)
    requires |chunk| <= e && consumed < |dataset|
    ensures Cached(dataset, consumed + 1, dataset[consumed], startIndex + |chunk|, live)
    ensures Serve(dataset, consumed, chunk, s, e, acc)
         == Serve(dataset, consumed + 1, dataset[consumed], 0, e - |chunk|, acc + PySlice(chunk, s, |chunk|))
    ensures Land(dataset, consumed, chunk, e, advance)
         == Land(dataset, consumed + 1, dataset[consumed], e - |chunk|, advance + |chunk|)
  {
    OffsetStep(dataset, consumed - 1);
  }

  /** A request reaching past the last chunk moves the start index past the
      dataset's end. */
  lemma RunOut<T>(dataset: seq<seq<T>>, consumed: nat, chunk: seq<T>, startIndex: nat, live: bool)
    requires Cached(dataset, consumed, chunk, startIndex, live) && consumed == |dataset|
    ensures Cached(dataset, consumed, chunk, startIndex + |chunk|, false)
  {
    OffsetStep(dataset, consumed - 1);
  }

  /** The cached chunk is the last one the iterator handed out; while live it
      starts at `startIndex`, and once the iterator has run out `startIndex` has
      moved past the dataset's end. */
  ghost predicate Cached<T>(dataset: seq<seq<T>>, consumed: nat, chunk: seq<T>, startIndex: nat, live: bool)
  {
    && 1 <= consumed <= |dataset|
    && chunk == dataset[consumed - 1]
    && (live ==> startIndex == Offset(dataset, consumed - 1))
    && (!live ==> consumed == |dataset| && startIndex >= Total(dataset))
  }

  /** Keeps one chunk of a dataset in memory and serves `[start, end)` requests
      that move forward through the dataset. `consumed` is how many chunks the
      chunk iterator has handed out; the cached chunk is the last of them. */
  class ChunkCache<T> {
    const dataset: seq<seq<T>>
    var consumed: nat
    var currentChunk: seq<T>
    var startIndex: nat
    /** Whether the cached chunk starts at `startIndex` of the dataset. Once the
        iterator has run out, `startIndex` has moved past the end of the dataset
        while the last chunk stays cached. */
    ghost var live: bool

    ghost predicate Valid()
      reads this
    {
      Cached(dataset, consumed, currentChunk, startIndex, live)
    }

    /** __init__: the iterator hands out the first chunk, which starts at index 0. */
    constructor (dataset: seq<seq<T>>)
      requires |dataset| > 0
      ensures Valid() && live
      ensures this.dataset == dataset && consumed == 1 && currentChunk == dataset[0] && startIndex == 0
    {
      this.dataset := dataset;
      consumed := 1;
      currentChunk := dataset[0];
      startIndex := 0;
      live := true;
      new;
      assert dataset[..0] == [];
    }

    /** get_data_for_pulse: the elements `[pulseStart, pulseEnd)`, read as
        `Serve` says, leaving the cache where `Land` says. */
    method GetDataForPulse(pulseStart: nat, pulseEnd: nat) returns (r: seq<T>)
      requires Valid() && startIndex <= pulseStart <= pulseEnd
      modifies this
      ensures Valid()
      ensures r == Serve(dataset, old(consumed), old(currentChunk), pulseStart - old(startIndex), pulseEnd - old(startIndex), [])
      ensures var l := Land(dataset, old(consumed), old(currentChunk), pulseEnd - old(startIndex), 0);
        && consumed == l.consumed && startIndex == old(startIndex) + l.advance
        && live == (old(live) && !l.ranOut)
    {
      var s: nat := pulseStart - startIndex;
      var e: nat := pulseEnd - startIndex;
      ghost var advance: nat := 0;
      var data: seq<T> := [];
      while true
        invariant Cached(dataset, consumed, currentChunk, startIndex, live) && live == old(live)
        invariant startIndex == old(startIndex) + advance
        invariant Serve(dataset, consumed, currentChunk, s, e, data)
               == Serve(dataset, old(consumed), old(currentChunk), pulseStart - old(startIndex), pulseEnd - old(startIndex), [])
        invariant Land(dataset, consumed, currentChunk, e, advance)
               == Land(dataset, old(consumed), old(currentChunk), pulseEnd - old(startIndex), 0)
        decreases |dataset| - consumed
      {
        if e < |currentChunk| {
          return data + PySlice(currentChunk, s, e);
        }
        if consumed < |dataset| {
          NextChunk(dataset, consumed, currentChunk, startIndex, live, s, e, data, advance);
        } else {
          RunOut(dataset, consumed, currentChunk, startIndex, live);
        }
        data := data + PySlice(currentChunk, s, |currentChunk|);
        e := e - |currentChunk|;
        s := 0;
        startIndex := startIndex + |currentChunk|;
        advance := advance + |currentChunk|;
        if consumed == |dataset| {
          live := false;
          return data;
        }
        currentChunk := dataset[consumed];
        consumed := consumed + 1;
      }
    }

    /** Ready to serve pulse `i` of `index`: untouched for the first pulse,
        and for a later one positioned by the pulses before it. */
    ghost predicate ReadyFor(index: seq<nat>, i: nat)
      requires i < |index|
      reads this
    {
      && Valid()
      && (i == 0 ==> consumed == 1 && startIndex == 0 && live)
      && (i > 0 ==> Ready(dataset, consumed, startIndex, live, index[i]))
    }

    /** `get_data_for_pulse(event_index[i], event_index[i + 1])` as `get_data`
        issues it: the pulse's stretch of the dataset, read from `PulseStart`. */
    method GetPulse(index: seq<nat>, i: nat) returns (r: seq<T>)
      requires i + 1 < |index| && index[i] <= index[i + 1] <= Total(dataset)
      requires ReadyFor(index, i)
      modifies this
      ensures ReadyFor(index, i + 1)
      ensures r == PySlice(Flatten(dataset), PulseStart(dataset, index, i), index[i + 1])
    {
      ghost var c, chunk, at, wasLive := consumed, currentChunk, startIndex, live;
      r := GetDataForPulse(index[i], index[i + 1]);
      PulseRead(dataset, index, i, c, chunk, at, wasLive, r, consumed, startIndex, live);
    }
  }

  /** From a live cache, a request reads exactly the dataset's elements
      `[pulseStart, pulseEnd)`, cut short at the dataset's end, except that a
      start lying past the cached chunk is read from the cached chunk's end. */
  lemma {:induction false} ServeLive<T>(dataset: seq<seq<T>>, elements: seq<T>, consumed: nat, startIndex: nat,
                                        pulseStart: nat, pulseEnd: nat, acc: seq<T>)
    requires Layout(dataset, elements)
    requires 1 <= consumed <= |dataset| && startIndex == Offset(dataset, consumed - 1)
    requires startIndex <= pulseStart <= pulseEnd
    ensures var lo, hi := Min(pulseStart, startIndex + |dataset[consumed - 1]|), Min(pulseEnd, |elements|);
      && lo <= hi
      && Serve(dataset, consumed, dataset[consumed - 1], pulseStart - startIndex, pulseEnd - startIndex, acc)
         == acc + elements[lo..hi]
    decreases |dataset| - consumed
  {
    var chunk := dataset[consumed - 1];
    var chunkEnd := startIndex + |chunk|;
    var s, e := pulseStart - startIndex, pulseEnd - startIndex;
    assert Placed(dataset, elements, consumed - 1);
    OffsetStep(dataset, consumed - 1);
    if e < |chunk| {
      SliceSlice(elements, startIndex, chunkEnd, s, e);
    } else if consumed >= |dataset| {
      SliceSlice(elements, startIndex, chunkEnd, Min(s, |chunk|), |chunk|);
    } else {
      var lo, hi := Min(pulseStart, chunkEnd), Min(pulseEnd, |elements|);
      var rest := PySlice(chunk, s, |chunk|);
      ServeLive(dataset, elements, consumed + 1, chunkEnd, chunkEnd, pulseEnd, acc + rest);
      SliceSlice(elements, startIndex, chunkEnd, Min(s, |chunk|), |chunk|);
      assert rest == elements[lo..chunkEnd];
      AppendAdjacent(elements, acc, lo, chunkEnd, hi);
    }
  }

  /** From a live cache, a request ending inside the cached chunk loads
      nothing; otherwise the cache moves on to the chunk holding `pulseEnd`,
      or, when the dataset ends before `pulseEnd`, runs out with its start
      index at the dataset's end. */
  lemma {:induction false} LandLive<T>(dataset: seq<seq<T>>, consumed: nat, startIndex: nat, pulseEnd: nat, advance: nat)
    requires 1 <= consumed <= |dataset| && startIndex == Offset(dataset, consumed - 1)
    requires startIndex <= pulseEnd
    ensures var l := Land(dataset, consumed, dataset[consumed - 1], pulseEnd - startIndex, advance);
      && consumed <= l.consumed <= |dataset| && advance <= l.advance
      && (pulseEnd < Offset(dataset, consumed) ==> l == Landing(consumed, advance, false))
      && (!l.ranOut ==>
            startIndex + l.advance - advance == Offset(dataset, l.consumed - 1) <= pulseEnd < Offset(dataset, l.consumed))
      && (l.ranOut ==> l.consumed == |dataset| && startIndex + l.advance - advance == Total(dataset) <= pulseEnd)
    decreases |dataset| - consumed
  {
    OffsetStep(dataset, consumed - 1);
    var chunkEnd := startIndex + |dataset[consumed - 1]|;
    if pulseEnd < chunkEnd {
    } else if consumed >= |dataset| {
    } else {
      LandLive(dataset, consumed + 1, chunkEnd, pulseEnd, advance + |dataset[consumed - 1]|);
    }
  }

  /** Once the iterator has run out, the stale last chunk is read as though it
      still started at the cache's start index, and each request reaching past
      it moves the start index on by the chunk's size again. */
  lemma ServeStale<T>(dataset: seq<seq<T>>, chunk: seq<T>, s: nat, e: nat, acc: seq<T>, advance: nat)
    requires s <= e
    ensures Serve(dataset, |dataset|, chunk, s, e, acc) == acc + chunk[Min(s, |chunk|)..Min(e, |chunk|)]
    ensures Land(dataset, |dataset|, chunk, e, advance)
         == if e < |chunk| then Landing(|dataset|, advance, false) else Landing(|dataset|, advance + |chunk|, true)
  {
  }

  /** Reading one pulse `[s, e)` that lies within the dataset. From a live
      cache whose start index is at most `s` the read is the dataset's
      `[s, e)`, except that a start past the cached chunk is read from the
      chunk's end; from a cache that has run out, `s` and `e` are the
      dataset's end and the read is empty. Afterwards the cache is ready for
      a pulse starting at `e`: live with `e` inside or just past its chunk,
      or run out with its start index at `e`, the dataset's end. */
  lemma ReadPulse<T>(dataset: seq<seq<T>>, consumed: nat, chunk: seq<T>, startIndex: nat, live: bool, s: nat, e: nat)
    requires Cached(dataset, consumed, chunk, startIndex, live)
    requires live ==> startIndex <= s
    requires !live ==> s == startIndex == Total(dataset)
    requires s <= e <= Total(dataset)
    ensures var lo := if live then Min(s, startIndex + |chunk|) else s;
      && lo <= e <= |Flatten(dataset)|
      && Serve(dataset, consumed, chunk, s - startIndex, e - startIndex, []) == Flatten(dataset)[lo..e]
    ensures var l := Land(dataset, consumed, chunk, e - startIndex, 0);
      && 1 <= l.consumed <= |dataset|
      && Ready(dataset, l.consumed, startIndex + l.advance, live && !l.ranOut, e)
  {
    TotalLength(dataset);
    if live {
      ReadPulseLive(dataset, consumed, chunk, startIndex, s, e);
    } else {
      ServeStale(dataset, chunk, 0, 0, [], 0);
    }
  }

  /** What `ReadPulse` reads from a live cache. */
  lemma ReadPulseLive<T>(dataset: seq<seq<T>>, consumed: nat, chunk: seq<T>, startIndex: nat, s: nat, e: nat)
    requires Cached(dataset, consumed, chunk, startIndex, true)
    requires startIndex <= s <= e <= Total(dataset)
    ensures var lo := Min(s, startIndex + |chunk|);
      && lo <= e <= |Flatten(dataset)|
      && Serve(dataset, consumed, chunk, s - startIndex, e - startIndex, []) == Flatten(dataset)[lo..e]
    ensures var l := Land(dataset, consumed, chunk, e - startIndex, 0);
      && 1 <= l.consumed <= |dataset|
      && Ready(dataset, l.consumed, startIndex + l.advance, !l.ranOut, e)
  {
    TotalLength(dataset);
    FlattenLayout(dataset);
    ServeLive(dataset, Flatten(dataset), consumed, startIndex, s, e, []);
    LandLiveReady(dataset, consumed, chunk, startIndex, e);
  }

  /** Where `ReadPulse` leaves a live cache. */
  lemma LandLiveReady<T>(dataset: seq<seq<T>>, consumed: nat, chunk: seq<T>, startIndex: nat, e: nat)
    requires Cached(dataset, consumed, chunk, startIndex, true)
    requires startIndex <= e <= Total(dataset)
    ensures var l := Land(dataset, consumed, chunk, e - startIndex, 0);
      && 1 <= l.consumed <= |dataset|
      && Ready(dataset, l.consumed, startIndex + l.advance, !l.ranOut, e)
  {
    TotalLength(dataset);
    LandLive(dataset, consumed, startIndex, e, 0);
    OffsetStep(dataset, Land(dataset, consumed, chunk, e - startIndex, 0).consumed - 1);
  }

  /** The errors `EventDataSource.__init__` can end with: `BadSource`, which it
      raises itself, and the exceptions that escape from the code it calls. */
  datatype SourceError = BadSource | KeyError | IndexError | StopIteration | UnicodeDecodeError

  /** An NXevent_data group as the streamer reads it: its path, the names of the
      fields it holds, and the content of those fields. A dataset read whole is
      a sequence; one read chunk by chunk is the sequence of its chunks. A
      units attribute that is not there is `None`. */
  datatype EventGroup = EventGroup(
    path: string,
    fields: set<string>,
    eventTimeZero: seq<int>,
    eventTimeZeroUnits: Option<UnitsAttr>,
    eventIndex: seq<nat>,
    eventId: seq<seq<int>>,
    eventTimeOffset: seq<seq<int>>,
    eventTimeOffsetUnits: Option<UnitsAttr>)

  /** What `get_data` yields: one pulse's times of flight, detector ids and
      time, and then the `(None, None, 0)` sentinel. */
  datatype PulseRecord = Pulse(tof: seq<int>, ids: seq<int>, time: int) | EndOfData

  /** The fields checked by `_has_missing_fields`, in its order (`event_index`
      is listed twice). */
  const RequiredFields: seq<string> :=
    ["event_time_zero", "event_index", "event_id", "event_index", "event_time_offset"]

  /** The fields of `required` that `fields` lacks, in order, one entry per
      check: the error messages the check logs. */
  function MissingFields(required: seq<string>, fields: set<string>): (r: seq<string>)
    ensures forall f :: f in r <==> f in required && f !in fields
  {
    if required == [] then []
    else
      var front, f := required[..|required| - 1], required[|required| - 1];
      MissingFields(front, fields) + (if f in fields then [] else [f])
  }

  /** A group holding every required field logs nothing. */
  lemma {:induction false} NoneMissing(required: seq<string>, fields: set<string>)
    requires forall f :: f in required ==> f in fields
    ensures MissingFields(required, fields) == []
  {
    if required != [] {
      var front := required[..|required| - 1];
      assert forall f :: f in front ==> f in required;
      NoneMissing(front, fields);
    }
  }

  /** _has_missing_fields: checks every required field, logs each one that is
      missing (not just the first), and says whether any was missing. */
  method HasMissingFields(fields: set<string>) returns (missing: bool, logged: seq<string>)
    ensures logged == MissingFields(RequiredFields, fields)
    ensures missing <==> logged != []
    ensures missing <==> exists f :: f in RequiredFields && f !in fields
  {
    missing, logged := false, [];
    for i := 0 to |RequiredFields|
      invariant logged == MissingFields(RequiredFields[..i], fields)
      invariant missing <==> logged != []
    {
      var field := RequiredFields[i];
      assert RequiredFields[..i + 1][..i] == RequiredFields[..i];
      if field !in fields {
        logged := logged + [field];
        missing := true;
      }
    }
    assert RequiredFields[..|RequiredFields|] == RequiredFields;
    if missing {
      assert logged[0] in MissingFields(RequiredFields, fields);
    }
  }

  /** _get_pulse_time_unit_converter and _get_event_time_unit_converter as
      evidently intended: a field without a units attribute, or with one that
      is not a recognised time unit, makes the source a `BadSource`; bytes that
      are not UTF-8 raise `UnicodeDecodeError`, which nothing catches. */
  function UnitConverter(units: Option<UnitsAttr>): (r: Result<TimeUnit, SourceError>)
    ensures r.Ok? <==> units.Some? && ConversionMethod(units.value).Ok?
    ensures r.Ok? ==> r.value == ConversionMethod(units.value).value
    ensures units.None? ==> r == Err(BadSource)
    ensures r.Err? && units.Some? ==>
      (r.error == UnicodeDecodeError <==> ConversionMethod(units.value) == Err(UnicodeDecode))
  {
    match units
    case None => Err(BadSource)
    case Some(attr) =>
      match ConversionMethod(attr)
      case Ok(u) => Ok(u)
      case Err(UndefinedUnit) => Err(BadSource)
      case Err(UnicodeDecode) => Err(UnicodeDecodeError)
  }

  /** The same converters as written: a missing units attribute makes h5py
      raise `KeyError`, which the `except AttributeError` clause does not catch,
      so it escapes instead of becoming `BadSource`. */
  function UnitConverterAsWritten(units: Option<UnitsAttr>): (r: Result<TimeUnit, SourceError>)
    ensures units.None? ==> r == Err(KeyError)
    ensures units.Some? ==> r == UnitConverter(units)
  {
    if units.None? then Err(KeyError) else UnitConverter(units)
  }

  /** A field without a units attribute: as written the construction ends with
      `KeyError`; the evidently intended outcome is `BadSource`. */
  lemma MissingUnitsEscape()
    ensures UnitConverterAsWritten(None) == Err(KeyError)
    ensures UnitConverter(None) == Err(BadSource)
  {
  }

  /** The boundary reconciliation of `__init__` on the last `event_index`
      entry: below the event count `n`, `n - 1` is appended; otherwise the last
      entry is overwritten with `n`. Either way the entries before the last are
      kept, the last becomes `min(last, n)`, and only an append lengthens the
      index. */
  function Reconcile(index: seq<nat>, n: nat): (r: seq<nat>)
    requires |index| > 0
    ensures var last := |index| - 1;
      && |r| >= |index|
      && r[..last] == index[..last]
      && r[last] == Min(index[last], n)
      && (index[last] < n ==> r == index + [n - 1])
      && (index[last] >= n ==> |r| == |index|)
  {
    var last := |index| - 1;
    if index[last] < n then index + [n - 1] else index[last := n]
  }

  /** The reconciled boundaries of the pulses `get_data` yields, `index[..L]`
      for the original length `L`, never decrease and never pass the event
      count, provided the recorded index does not decrease and its entries
      before the last do not pass the event count. */
  lemma ReconcileFramesPulses(index: seq<nat>, n: nat)
    requires |index| > 0
    requires forall j, k :: 0 <= j <= k < |index| ==> index[j] <= index[k]
    requires forall j :: 0 <= j < |index| - 1 ==> index[j] <= n
    ensures var r := Reconcile(index, n);
      forall j, k :: 0 <= j <= k < |index| ==> r[j] <= r[k] <= n
  {
    var r, last := Reconcile(index, n), |index| - 1;
    forall j, k | 0 <= j <= k < |index|
      ensures r[j] <= r[k] <= n
    {
      if k < last {
        assert r[j] == r[..last][j] && r[k] == r[..last][k];
      } else if j < last {
        assert r[j] == r[..last][j];
      }
    }
  }

  /** Where pulse `i` of a chunked field starts being read: at its boundary,
      except that the first pulse starts no later than the end of the field's
      first chunk (the cache reads a start that lies past its chunk from the
      chunk's end). */
  function PulseStart<T>(chunks: seq<seq<T>>, index: seq<nat>, i: nat): nat
    requires |chunks| > 0 && i < |index|
  {
    if i == 0 && |chunks[0]| < index[0] then |chunks[0]| else index[i]
  }

  /** The first `n` pulses `get_data` yields: record `k` is pulse `k`. */
  function Pulses(g: EventGroup, index: seq<nat>, pulseUnit: TimeUnit, eventUnit: TimeUnit, n: nat): (r: seq<PulseRecord>)
    requires |g.eventId| > 0 && |g.eventTimeOffset| > 0 && n < |index| && n <= |g.eventTimeZero|
    ensures |r| == n
  {
    seq(n, k requires 0 <= k < n => PulseAt(g, index, pulseUnit, eventUnit, k))
  }

  /** The first `n` pulses are the first `n - 1` followed by pulse `n - 1`. */
  lemma PulsesSnoc(g: EventGroup, index: seq<nat>, pulseUnit: TimeUnit, eventUnit: TimeUnit, n: nat)
    requires |g.eventId| > 0 && |g.eventTimeOffset| > 0 && 0 < n < |index| && n <= |g.eventTimeZero|
    ensures Pulses(g, index, pulseUnit, eventUnit, n)
         == Pulses(g, index, pulseUnit, eventUnit, n - 1) + [PulseAt(g, index, pulseUnit, eventUnit, n - 1)]
  {
    var whole, front := Pulses(g, index, pulseUnit, eventUnit, n), Pulses(g, index, pulseUnit, eventUnit, n - 1);
    forall k | 0 <= k < n - 1
      ensures whole[k] == front[k]
    {
    }
  }

  /** Pulse `i` as `get_data` yields it from the reconciled index: times of
      flight converted to nanoseconds, detector ids, and the converted pulse
      time. */
  function PulseAt(g: EventGroup, index: seq<nat>, pulseUnit: TimeUnit, eventUnit: TimeUnit, i: nat): PulseRecord
    requires |g.eventId| > 0 && |g.eventTimeOffset| > 0 && i + 1 < |index| && i < |g.eventTimeZero|
  {
    var e := index[i + 1];
    Pulse(ConvertAll(eventUnit, PySlice(Flatten(g.eventTimeOffset), PulseStart(g.eventTimeOffset, index, i), e)),
          PySlice(Flatten(g.eventId), PulseStart(g.eventId, index, i), e),
          Convert(pulseUnit, g.eventTimeZero[i]))
  }

  /** A cache ready for a pulse starting at `s`: live with `s` inside or just
      past its chunk, or run out with its start index at `s`, the dataset's
      end. */
  ghost predicate Ready<T>(dataset: seq<seq<T>>, consumed: nat, startIndex: nat, live: bool, s: nat)
    requires 1 <= consumed <= |dataset|
  {
    && (live ==> startIndex <= s <= startIndex + |dataset[consumed - 1]|)
    && (!live ==> s == startIndex == Total(dataset))
  }

  /** Whether `EventDataSource.__init__` fails, and how: first the field check,
      then the units of `event_time_zero` and of `event_time_offset`, then the
      last `event_index` entry (none in an empty index), then the first chunk
      of `event_time_offset` and of `event_id` (none in an empty dataset). */
  function OpenError(g: EventGroup): Option<SourceError>
  {
    if MissingFields(RequiredFields, g.fields) != [] then Some(BadSource)
    else if UnitConverter(g.eventTimeZeroUnits).Err? then Some(UnitConverter(g.eventTimeZeroUnits).error)
    else if UnitConverter(g.eventTimeOffsetUnits).Err? then Some(UnitConverter(g.eventTimeOffsetUnits).error)
    else if g.eventIndex == [] then Some(IndexError)
    else if g.eventTimeOffset == [] || g.eventId == [] then Some(StopIteration)
    else None
  }

  /** A group lacking any required field is a `BadSource`, whatever else it holds. */
  lemma MissingFieldRejected(g: EventGroup, f: string)
    requires f in RequiredFields && f !in g.fields
    ensures OpenError(g) == Some(BadSource)
  {
    assert f in MissingFields(RequiredFields, g.fields);
  }

  /** A group with every required field, recognised time units, a non-empty
      index and non-empty chunked datasets opens. */
  lemma WellFormedGroupOpens(g: EventGroup, pulseUnit: TimeUnit, eventUnit: TimeUnit)
    requires forall f :: f in RequiredFields ==> f in g.fields
    requires g.eventTimeZeroUnits.Some? && ConversionMethod(g.eventTimeZeroUnits.value) == Ok(pulseUnit)
    requires g.eventTimeOffsetUnits.Some? && ConversionMethod(g.eventTimeOffsetUnits.value) == Ok(eventUnit)
    requires g.eventIndex != [] && g.eventTimeOffset != [] && g.eventId != []
    ensures OpenError(g) == None
  {
    NoneMissing(RequiredFields, g.fields);
  }

  /** An NXevent_data source: the group, the unit converters of its two time
      fields, the reconciled event index and one chunk cache per chunked
      field. */
  class EventDataSource {
    const group: EventGroup
    const pulseUnit: TimeUnit
    const eventUnit: TimeUnit
    var eventIndex: seq<nat>
    const tofLoader: ChunkCache<int>
    const idLoader: ChunkCache<int>

    ghost predicate Valid()
      reads this, tofLoader, idLoader
    {
      && tofLoader != idLoader
      && |group.eventIndex| > 0
      && eventIndex == Reconcile(group.eventIndex, Total(group.eventId))
      && tofLoader.dataset == group.eventTimeOffset && tofLoader.Valid()
      && idLoader.dataset == group.eventId && idLoader.Valid()
    }

    /** Neither cache has served a request yet. */
    ghost predicate Unread()
      reads this, tofLoader, idLoader
    {
      && tofLoader.consumed == 1 && tofLoader.startIndex == 0 && tofLoader.live
      && idLoader.consumed == 1 && idLoader.startIndex == 0 && idLoader.live
    }

    /** The successful end of `__init__`: the index is read and its last
        boundary reconciled in place against the number of events, and both
        chunk caches load their first chunk. */
    constructor (group: EventGroup, pulseUnit: TimeUnit, eventUnit: TimeUnit)
      requires |group.eventIndex| > 0 && |group.eventTimeOffset| > 0 && |group.eventId| > 0
      ensures Valid() && Unread() && fresh(tofLoader) && fresh(idLoader)
      ensures this.group == group && this.pulseUnit == pulseUnit && this.eventUnit == eventUnit
    {
      this.group := group;
      this.pulseUnit := pulseUnit;
      this.eventUnit := eventUnit;
      eventIndex := group.eventIndex;
      tofLoader := new ChunkCache(group.eventTimeOffset);
      idLoader := new ChunkCache(group.eventId);
      new;
      var events := Total(group.eventId);
      var last := |eventIndex| - 1;
      if eventIndex[last] < events {
        eventIndex := eventIndex + [events - 1];
      } else {
        eventIndex := eventIndex[last := events];
      }
    }

    /** get_data: one record per pulse, `len(event_index) - 1` of them counted
        from the index as recorded, then the sentinel. Both caches read the
        pulse's boundaries from the reconciled index. Requires a recorded index
        that does not decrease, whose entries before the last do not pass the
        event count, a pulse time per pulse and as many times of flight as
        detector ids. */
    method GetData() returns (records: seq<PulseRecord>)
      requires Valid() && Unread()
      requires forall j, k :: 0 <= j <= k < |group.eventIndex| ==> group.eventIndex[j] <= group.eventIndex[k]
      requires forall j :: 0 <= j < |group.eventIndex| - 1 ==> group.eventIndex[j] <= Total(group.eventId)
      requires |group.eventTimeZero| >= |group.eventIndex| - 1
      requires Total(group.eventTimeOffset) == Total(group.eventId)
      modifies tofLoader, idLoader
      ensures records == Pulses(group, eventIndex, pulseUnit, eventUnit, |group.eventIndex| - 1) + [EndOfData]
    {
      var pulses := |group.eventIndex| - 1;
      records := [];
      for i := 0 to pulses
        invariant Valid()
        invariant records == Pulses(group, eventIndex, pulseUnit, eventUnit, i)
        invariant tofLoader.ReadyFor(eventIndex, i) && idLoader.ReadyFor(eventIndex, i)
      {
        var p := NextRecord(i);
        records := records + [p];
      }
      records := records + [EndOfData];
    }

    /** One pass of `get_data`'s loop: the record of pulse `i`, read from both
        caches, which are then ready for pulse `i + 1`. */
    method NextRecord(i: nat) returns (p: PulseRecord)
      requires Valid() && i + 1 < |group.eventIndex|
      requires forall j, k :: 0 <= j <= k < |group.eventIndex| ==> group.eventIndex[j] <= group.eventIndex[k]
      requires forall j :: 0 <= j < |group.eventIndex| - 1 ==> group.eventIndex[j] <= Total(group.eventId)
      requires |group.eventTimeZero| >= |group.eventIndex| - 1
      requires Total(group.eventTimeOffset) == Total(group.eventId)
      requires tofLoader.ReadyFor(eventIndex, i) && idLoader.ReadyFor(eventIndex, i)
      modifies tofLoader, idLoader
      ensures Valid()
      ensures tofLoader.ReadyFor(eventIndex, i + 1) && idLoader.ReadyFor(eventIndex, i + 1)
      ensures Pulses(group, eventIndex, pulseUnit, eventUnit, i + 1) == Pulses(group, eventIndex, pulseUnit, eventUnit, i) + [p]
    {
      var pulseTime := Convert(pulseUnit, group.eventTimeZero[i]);
      PulseBounds(group.eventIndex, Total(group.eventId), i);
      var tof := tofLoader.GetPulse(eventIndex, i);
      var id := idLoader.GetPulse(eventIndex, i);
      PulsesStep(group, eventIndex, pulseUnit, eventUnit, i, tof, id);
      p := Pulse(ConvertAll(eventUnit, tof), id, pulseTime);
    }
  }

  /** Pulse `i` of a well-ordered recorded index starts no later than it ends,
      and ends within the events, once the index is reconciled. */
  lemma PulseBounds(index: seq<nat>, n: nat, i: nat)
    requires i + 1 < |index|
    requires forall j, k :: 0 <= j <= k < |index| ==> index[j] <= index[k]
    requires forall j :: 0 <= j < |index| - 1 ==> index[j] <= n
    ensures var r := Reconcile(index, n); i + 1 < |r| && r[i] <= r[i + 1] <= n
  {
    ReconcileFramesPulses(index, n);
  }

  /** One more pulse read from both fields extends the records by that pulse. */
  lemma PulsesStep(g: EventGroup, index: seq<nat>, pulseUnit: TimeUnit, eventUnit: TimeUnit, i: nat, tof: seq<int>, id: seq<int>)
    requires |g.eventId| > 0 && |g.eventTimeOffset| > 0 && i + 1 < |index| && i < |g.eventTimeZero|
    requires tof == PySlice(Flatten(g.eventTimeOffset), PulseStart(g.eventTimeOffset, index, i), index[i + 1])
    requires id == PySlice(Flatten(g.eventId), PulseStart(g.eventId, index, i), index[i + 1])
    ensures Pulses(g, index, pulseUnit, eventUnit, i + 1)
         == Pulses(g, index, pulseUnit, eventUnit, i) + [Pulse(ConvertAll(eventUnit, tof), id, Convert(pulseUnit, g.eventTimeZero[i]))]
  {
    PulsesSnoc(g, index, pulseUnit, eventUnit, i + 1);
  }

  /** A request never moves the start index past its own end: the cache
      passes a chunk only when the request reaches beyond it. */
  lemma {:induction false} LandWithinRequest<T>(dataset: seq<seq<T>>, consumed: nat, chunk: seq<T>, e: nat, advance: nat)
    ensures advance <= Land(dataset, consumed, chunk, e, advance).advance <= advance + e
    decreases |dataset| - consumed
  {
    if |chunk| <= e && consumed < |dataset| {
      LandWithinRequest(dataset, consumed + 1, dataset[consumed], e - |chunk|, advance + |chunk|);
    }
  }

  /** A request ending inside the cached chunk loads nothing and moves
      nothing: it is served from the cached chunk alone. */
  lemma InsideChunk<T>(dataset: seq<seq<T>>, consumed: nat, chunk: seq<T>, s: nat, e: nat)
    requires e < |chunk|
    ensures Serve(dataset, consumed, chunk, s, e, []) == PySlice(chunk, s, e)
    ensures Land(dataset, consumed, chunk, e, 0) == Landing(consumed, 0, false)
  {
  }

  /** Pulse `i` with both fields read from its recorded start: the converted
      pulse time, and times of flight and detector ids drawn from the same
      stretch `[index[i], index[i + 1])`, so they are equally many. Every pulse
      but the first starts at its recorded start; the first does too when it
      starts within both fields' first chunks. */
  lemma PulseContents(g: EventGroup, index: seq<nat>, pulseUnit: TimeUnit, eventUnit: TimeUnit, i: nat)
    requires |g.eventId| > 0 && |g.eventTimeOffset| > 0 && i + 1 < |index| && i < |g.eventTimeZero|
    requires index[i] <= index[i + 1] <= Total(g.eventId) == Total(g.eventTimeOffset)
    requires i > 0 || (index[0] <= |g.eventId[0]| && index[0] <= |g.eventTimeOffset[0]|)
    ensures index[i + 1] <= |Flatten(g.eventId)| && index[i + 1] <= |Flatten(g.eventTimeOffset)|
    ensures var p := PulseAt(g, index, pulseUnit, eventUnit, i);
      && p.time == Convert(pulseUnit, g.eventTimeZero[i])
      && p.ids == Flatten(g.eventId)[index[i]..index[i + 1]]
      && p.tof == ConvertAll(eventUnit, Flatten(g.eventTimeOffset)[index[i]..index[i + 1]])
      && |p.tof| == |p.ids| == index[i + 1] - index[i]
  {
    TotalLength(g.eventId);
    TotalLength(g.eventTimeOffset);
  }

  /** The elements the first `n` pulses draw from a field, one pulse after
      the other. */
  function Framed<T>(chunks: seq<seq<T>>, index: seq<nat>, n: nat): seq<T>
    requires |chunks| > 0 && n < |index|
  {
    if n == 0 then [] else Framed(chunks, index, n - 1) + PySlice(Flatten(chunks), PulseStart(chunks, index, n - 1), index[n])
  }

  /** Consecutive pulses of an ordered index within the dataset read the
      dataset without gap or overlap: together they are the stretch from the
      first pulse's start to the last pulse's end. */
  lemma {:induction false} FramedPrefix<T>(chunks: seq<seq<T>>, index: seq<nat>, n: nat)
    requires |chunks| > 0 && 0 < n < |index|
    requires forall j, k :: 0 <= j <= k <= n ==> index[j] <= index[k] <= Total(chunks)
    ensures PulseStart(chunks, index, 0) <= index[n] <= |Flatten(chunks)|
    ensures Framed(chunks, index, n) == Flatten(chunks)[PulseStart(chunks, index, 0)..index[n]]
  {
    TotalLength(chunks);
    var all := Flatten(chunks);
    assert index[0] <= index[n] <= Total(chunks);
    if n > 1 {
      FramedPrefix(chunks, index, n - 1);
      assert index[n - 1] <= index[n];
      AdjacentSlices(all, PulseStart(chunks, index, 0), index[n - 1], index[n]);
    }
  }

  /** The detector ids of a sequence of records, pulse after pulse. */
  function IdsOf(records: seq<PulseRecord>): seq<int>
  {
    if records == [] then []
    else IdsOf(records[..|records| - 1]) + (if records[|records| - 1].Pulse? then records[|records| - 1].ids else [])
  }

  /** The ids of the first `n` pulses are what they frame of `event_id`. */
  lemma {:induction false} PulsesIds(g: EventGroup, index: seq<nat>, pulseUnit: TimeUnit, eventUnit: TimeUnit, n: nat)
    requires |g.eventId| > 0 && |g.eventTimeOffset| > 0 && n < |index| && n <= |g.eventTimeZero|
    ensures IdsOf(Pulses(g, index, pulseUnit, eventUnit, n)) == Framed(g.eventId, index, n)
  {
    if n > 0 {
      PulsesIds(g, index, pulseUnit, eventUnit, n - 1);
      PulsesSnoc(g, index, pulseUnit, eventUnit, n);
      IdsOfSnoc(Pulses(g, index, pulseUnit, eventUnit, n - 1), PulseAt(g, index, pulseUnit, eventUnit, n - 1));
    }
  }

  lemma IdsOfSnoc(front: seq<PulseRecord>, p: PulseRecord)
    requires p.Pulse?
    ensures IdsOf(front + [p]) == IdsOf(front) + p.ids
  {
    assert (front + [p])[..|front|] == front;
  }

  /** The start `ReadPulse` reads pulse `i` from is `PulseStart`. */
  lemma PulseStartRead<T>(dataset: seq<seq<T>>, index: seq<nat>, i: nat, consumed: nat, startIndex: nat, live: bool)
    requires 1 <= consumed <= |dataset| && i < |index|
    requires i == 0 ==> consumed == 1 && startIndex == 0 && live
    requires i > 0 ==> Ready(dataset, consumed, startIndex, live, index[i])
    ensures (if live then Min(index[i], startIndex + |dataset[consumed - 1]|) else index[i])
         == if i == 0 && |dataset[0]| < index[0] then |dataset[0]| else index[i]
  {
  }

  /** What one `get_data_for_pulse` call for pulse `i` leaves behind, from the
      cache's state before it (`consumed`, `chunk`, `startIndex`, `live`) and
      after it (`consumed'`, `startIndex'`, `live'`): the pulse's slice of
      the dataset, and a cache ready for the next pulse. */
  lemma PulseRead<T>(dataset: seq<seq<T>>, index: seq<nat>, i: nat,
                     consumed: nat, chunk: seq<T>, startIndex: nat, live: bool,
                     r: seq<T>, consumed': nat, startIndex': nat, live': bool)
    requires Cached(dataset, consumed, chunk, startIndex, live)
    requires i + 1 < |index| && index[i] <= index[i + 1] <= Total(dataset)
    requires i == 0 ==> consumed == 1 && startIndex == 0 && live
    requires i > 0 ==> Ready(dataset, consumed, startIndex, live, index[i])
    requires r == Serve(dataset, consumed, chunk, index[i] - startIndex, index[i + 1] - startIndex, [])
    requires var l := Land(dataset, consumed, chunk, index[i + 1] - startIndex, 0);
      && consumed' == l.consumed && startIndex' == startIndex + l.advance && live' == (live && !l.ranOut)
    ensures r == PySlice(Flatten(dataset), PulseStart(dataset, index, i), index[i + 1])
    ensures 1 <= consumed' <= |dataset| && Ready(dataset, consumed', startIndex', live', index[i + 1])
  {
    var s, e := index[i], index[i + 1];
    ReadPulse(dataset, consumed, chunk, startIndex, live, s, e);
    PulseStartRead(dataset, index, i, consumed, startIndex, live);
    var lo := if live then Min(s, startIndex + |chunk|) else s;
    assert lo == PulseStart(dataset, index, i) && lo <= e <= |Flatten(dataset)|;
    assert r == Flatten(dataset)[lo..e];
  }

  /** `EventDataSource.__init__` with its error paths: the group is checked
      field by field, the unit converters are chosen, and only then is the
      source built. */
  method Open(group: EventGroup) returns (r: Result<EventDataSource, SourceError>)
    ensures r.Err? <==> OpenError(group).Some?
    ensures r.Err? ==> r.error == OpenError(group).value
    ensures r.Ok? ==>
      && fresh(r.value) && fresh(r.value.tofLoader) && fresh(r.value.idLoader)
      && r.value.Valid() && r.value.Unread() && r.value.group == group
      && UnitConverter(group.eventTimeZeroUnits) == Ok(r.value.pulseUnit)
      && UnitConverter(group.eventTimeOffsetUnits) == Ok(r.value.eventUnit)
  {
    var missing, logged := HasMissingFields(group.fields);
    if missing {
      return Err(BadSource);
    }
    var pulseUnit := UnitConverter(group.eventTimeZeroUnits);
    if pulseUnit.Err? {
      return Err(pulseUnit.error);
    }
    var eventUnit := UnitConverter(group.eventTimeOffsetUnits);
    if eventUnit.Err? {
      return Err(eventUnit.error);
    }
    if group.eventIndex == [] {
      return Err(IndexError);
    }
    if group.eventTimeOffset == [] || group.eventId == [] {
      return Err(StopIteration);
    }
    var source := new EventDataSource(group, pulseUnit.value, eventUnit.value);
    return Ok(source);
  }

  /** The `name` property: the group path after its last `/`, or the whole
      path when it has none. */
  function Name(path: string): (r: string)
    ensures '/' !in r && |r| <= |path| && r == path[|path| - |r|..]
    ensures |r| < |path| ==> path[|path| - |r| - 1] == '/'
  {
    if path == [] then ""
    else if path[|path| - 1] == '/' then ""
    else Name(path[..|path| - 1]) + [path[|path| - 1]]
  }

  /** The name of a group is the last component of its path. */
  lemma NameOfChild(parent: string, child: string)
    requires '/' !in child
    ensures Name(parent + "/" + child) == child
  {
    var path := parent + "/" + child;
    var r := Name(path);
    var n := |path|;
    assert path[n - |child| - 1] == '/' && path[n - |child|..] == child;
  }
}
