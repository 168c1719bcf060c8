/** Normalisation of recorded time values to nanoseconds
    (nexus_streamer/convert_units.py). A units attribute is looked up in a fixed
    table of spellings standing in for the pint unit registry; the lookup picks
    one of four integer scale converters or fails with `UndefinedUnit`. */
module ConvertUnits {
  import opened Wrappers
  import Utf8

  datatype TimeUnit = Seconds | Milliseconds | Microseconds | Nanoseconds

  /** A units attribute as h5py hands it over: a `str`, or raw `bytes`. */
  datatype UnitsAttr = Text(text: string) | Raw(bytes: seq<Utf8.byte>)

  /** `UndefinedUnit` is pint's UndefinedUnitError; `UnicodeDecode` is the
      UnicodeDecodeError that `str(units, encoding="utf8")` raises on bytes that are
      not UTF-8 (the source does not catch it). */
  datatype UnitError = UndefinedUnit | UnicodeDecode

  /** The spellings of each unit that the model's registry accepts. */
  function Spellings(u: TimeUnit): set<string>
  {
    match u
    case Seconds => {"s", "sec", "second", "seconds"}
    case Milliseconds => {"ms", "msec", "millisecond", "milliseconds"}
    case Microseconds => {"us", "µs", "μs", "usec", "microsecond", "microseconds"}
    case Nanoseconds => {"ns", "nsec", "nanosecond", "nanoseconds"}
  }

  /** Nanoseconds in one unit. */
  function Scale(u: TimeUnit): (k: nat)
    ensures k > 0
  {
    match u
    case Seconds => 1_000_000_000
    case Milliseconds => 1_000_000
    case Microseconds => 1_000
    case Nanoseconds => 1
  }

  /** `x` seconds as a whole number of nanoseconds. */
  function SecondsToNanoseconds(x: int): (r: int)
    ensures r % 1_000_000_000 == 0 && r / 1_000_000_000 == x
  {
    x * 1_000_000_000
  }

  /** `x` milliseconds as a whole number of nanoseconds. */
  function MillisecondsToNanoseconds(x: int): (r: int)
    ensures r % 1_000_000 == 0 && r / 1_000_000 == x
  {
    x * 1_000_000
  }

  /** `x` microseconds as a whole number of nanoseconds. */
  function MicrosecondsToNanoseconds(x: int): (r: int)
    ensures r % 1_000 == 0 && r / 1_000 == x
  {
    x * 1_000
  }

  /** Nanoseconds are kept as they are. */
  function NanosecondsToNanoseconds(x: int): (r: int)
    ensures r == x
  {
    x
  }

  /** Applies the converter that the dispatch returned for `u`: the result is
      a whole number of `u`'s, namely `x` of them. */
  function Convert(u: TimeUnit, x: int): (r: int)
    ensures r % Scale(u) == 0 && r / Scale(u) == x
  {
    match u
    case Seconds => SecondsToNanoseconds(x)
    case Milliseconds => MillisecondsToNanoseconds(x)
    case Microseconds => MicrosecondsToNanoseconds(x)
    case Nanoseconds => NanosecondsToNanoseconds(x)
  }

  /** Every converter multiplies by its unit's scale: the result is a whole
      number of `u`'s and converts back to `x`. */
  lemma ConvertScales(u: TimeUnit, x: int)
    ensures Convert(u, x) == x * Scale(u)
    ensures Convert(u, x) % Scale(u) == 0 && Convert(u, x) / Scale(u) == x
  {
    var k := Scale(u);
    assert Convert(u, x) == x * k;
    assert (x * k) / k == x && (x * k) % k == 0 by {
      assert x * k == k * x + 0;
    }
  }

  /** The registry lookup `ureg(units)` compared against the four units. */
  function Lookup(text: string): (r: Option<TimeUnit>)
    ensures r.Some? <==> exists u :: text in Spellings(u)
    ensures r.Some? ==> text in Spellings(r.value)
  {
    if text in Spellings(Seconds) then Some(Seconds)
    else if text in Spellings(Milliseconds) then Some(Milliseconds)
    else if text in Spellings(Microseconds) then Some(Microseconds)
    else if text in Spellings(Nanoseconds) then Some(Nanoseconds)
    else None
  }

  /** get_to_nanoseconds_conversion_method: bytes are decoded as UTF-8 first, a
      string is used unchanged; then the unit is looked up. */
  function ConversionMethod(units: UnitsAttr): (r: Result<TimeUnit, UnitError>)
    ensures units.Raw? && Utf8.Decode(units.bytes).None? ==> r == Err(UnicodeDecode)
    ensures units.Text? ==> (r.Ok? <==> Lookup(units.text).Some?)
  {
    var text :=
      match units
      case Text(t) => Some(t)
      case Raw(b) => Utf8.Decode(b);
    match text
    case None => Err(UnicodeDecode)
    case Some(t) =>
      match Lookup(t)
      case None => Err(UndefinedUnit)
      case Some(u) => Ok(u)
  }

  /** The dispatch picks converter `u` exactly for the spellings of `u`, given as a
      string or as their UTF-8 bytes; nothing else selects it. */
  lemma ConversionMethodSelects(units: UnitsAttr, u: TimeUnit)
    ensures ConversionMethod(units) == Ok(u) <==>
            exists s :: s in Spellings(u) && (units == Text(s) || units == Raw(Utf8.Encode(s)))
  {
    if ConversionMethod(units) == Ok(u) {
      match units
      case Text(t) =>
        assert t in Spellings(u);
      case Raw(b) =>
        var t := Utf8.Decode(b).value;
        Utf8.EncodeDecode(b);
        assert t in Spellings(u) && units == Raw(Utf8.Encode(t));
    }
    if s :| s in Spellings(u) && (units == Text(s) || units == Raw(Utf8.Encode(s))) {
      Utf8.DecodeEncode(s);
      SpellingsDisjoint(s, u);
    }
  }

  /** No spelling names two units. */
  lemma SpellingsDisjoint(s: string, u: TimeUnit)
    requires s in Spellings(u)
    ensures Lookup(s) == Some(u)
  {
  }

  /** Every converter is order preserving, since every scale is positive. */
  lemma ConvertMonotone(u: TimeUnit, x: int, y: int)
    requires x <= y
    ensures Convert(u, x) <= Convert(u, y)
  {
    ConvertScales(u, x);
    ConvertScales(u, y);
    MultiplyMonotone(x, y, Scale(u));
  }

  lemma MultiplyMonotone(x: int, y: int, k: nat)
    requires x <= y
    ensures x * k <= y * k
  {
    assert y * k - x * k == (y - x) * k;
  }

  /** The four scales agree: one second is a thousand milliseconds, a million
      microseconds and a billion nanoseconds. */
  lemma ScalesConsistent(x: int)
    ensures SecondsToNanoseconds(x) == MillisecondsToNanoseconds(1000 * x)
    ensures SecondsToNanoseconds(x) == MicrosecondsToNanoseconds(1_000_000 * x)
    ensures SecondsToNanoseconds(x) == NanosecondsToNanoseconds(1_000_000_000 * x)
  {
  }

  /** Element-wise conversion of a whole array of times (the corrected form of
      applying a converter to a pulse's time-of-flight array). */
  function ConvertAll(u: TimeUnit, xs: seq<int>): (r: seq<int>)
    ensures |r| == |xs|
  {
    if xs == [] then [] else ConvertAll(u, xs[..|xs| - 1]) + [Convert(u, xs[|xs| - 1])]
  }

  /** Each element is converted on its own, in place. */
  lemma {:induction false} ConvertAllAt(u: TimeUnit, xs: seq<int>)
    ensures forall i :: 0 <= i < |xs| ==> ConvertAll(u, xs)[i] == Convert(u, xs[i])
  {
    if xs != [] {
      var front := xs[..|xs| - 1];
      ConvertAllAt(u, front);
      assert forall i :: 0 <= i < |front| ==> front[i] == xs[i];
    }
  }

  /** Converting a whole array keeps it sorted. */
  lemma ConvertAllSorted(u: TimeUnit, xs: seq<int>)
    requires forall i, j :: 0 <= i <= j < |xs| ==> xs[i] <= xs[j]
    ensures forall i, j :: 0 <= i <= j < |xs| ==> ConvertAll(u, xs)[i] <= ConvertAll(u, xs)[j]
  {
    ConvertAllAt(u, xs);
    forall i, j | 0 <= i <= j < |xs|
      ensures ConvertAll(u, xs)[i] <= ConvertAll(u, xs)[j]
    {
      ConvertMonotone(u, xs[i], xs[j]);
    }
  }

  /** The converter as the source applies it to a numpy array: `int(array * k)`
      converts only a one-element array (to a scalar); any other size raises
      TypeError. */
  function ConvertArrayAsWritten(u: TimeUnit, xs: seq<int>): (r: Result<int, string>)
    ensures r.Ok? <==> |xs| == 1
    ensures r.Ok? ==> r.value == ConvertAll(u, xs)[0]
  {
    if |xs| == 1 then Ok(Convert(u, xs[0]))
    else Err("TypeError: only length-1 arrays can be converted to Python scalars")
  }

  /** A pulse with two events (or none) cannot be converted as written, while the
      element-wise conversion keeps both events. */
  lemma AsWrittenRejectsTwoEventPulse(u: TimeUnit, a: int, b: int)
    ensures ConvertArrayAsWritten(u, [a, b]).Err?
    ensures ConvertArrayAsWritten(u, []).Err?
    ensures |ConvertAll(u, [a, b])| == 2
  {
  }
}
