/** Finding the data sources of a NeXus file by NX_class
    (nexus_streamer/create_data_sources_from_nexus.py, and the older
    create_data_sources_from_nexus.py at the top of the repository). The
    file's objects are visited in traversal order; each group whose NX_class
    is one of the requested classes is appended to that class's bucket. The
    two versions differ only in how the attribute becomes a class name. */
module CreateDataSources {
  import opened Wrappers
  import Utf8
  import opened EventDataSource

  /** The NX_class attribute of an object: bytes, text, or not there. */
  datatype Attr = Absent | Bytes(bytes: seq<Utf8.byte>) | Text(text: string)

  /** An object met by the traversal: whether it is a group, its NX_class
      attribute, and the object itself. */
  datatype Node<G> = Node(isGroup: bool, nxClass: Attr, item: G)

  const NxLog: string := "NXlog"
  const NxEventData: string := "NXevent_data"

  /** get_attr_as_str: bytes are decoded as UTF-8, text is returned as it is.
      Reading an attribute that is not there raises `KeyError`, and bytes
      that are not UTF-8 raise `UnicodeDecodeError`. */
  function GetAttrAsStr(a: Attr): (r: Result<string, SourceError>)
    ensures a.Absent? ==> r == Err(KeyError)
    ensures a.Text? ==> r == Ok(a.text)
    ensures a.Bytes? ==> (r.Ok? <==> Utf8.Decode(a.bytes).Some?)
    ensures a.Bytes? && r.Ok? ==> Utf8.Encode(r.value) == a.bytes
    ensures r.Err? ==> r.error in {KeyError, UnicodeDecodeError}
  {
    match a
    case Absent => Err(KeyError)
    case Text(s) => Ok(s)
    case Bytes(b) =>
      match Utf8.Decode(b)
      case None => Err(UnicodeDecodeError)
      case Some(s) => Utf8.EncodeDecode(b); Ok(s)
  }

  /** The class name an object is filed under, if any. The current version
      uses GetAttrAsStr; the older one calls `.decode` on the attribute
      directly, so a text attribute raises `AttributeError`, which the
      traversal callback swallows: such a group is skipped. */
  function ClassOf<G>(legacy: bool, n: Node<G>): (r: Result<Option<string>, SourceError>)
    ensures !n.isGroup ==> r == Ok(None)
    ensures n.isGroup && legacy && n.nxClass.Text? ==> r == Ok(None)
    ensures n.isGroup && !(legacy && n.nxClass.Text?) ==>
      && (r.Ok? <==> GetAttrAsStr(n.nxClass).Ok?)
      && (r.Ok? ==> r.value == Some(GetAttrAsStr(n.nxClass).value))
      && (r.Err? ==> r.error == GetAttrAsStr(n.nxClass).error)
  {
    if !n.isGroup then Ok(None)
    else if legacy && n.nxClass.Text? then Ok(None)
    else
      match GetAttrAsStr(n.nxClass)
      case Err(e) => Err(e)
      case Ok(s) => Ok(Some(s))
  }

  /** Whether an object lands in the bucket of class `c`. */
  predicate InBucket<G>(legacy: bool, c: string, n: Node<G>)
  {
    ClassOf(legacy, n) == Ok(Some(c))
  }

  /** The bucket of class `c`: the objects filed under `c`, in traversal order. */
  function Bucket<G>(legacy: bool, c: string, nodes: seq<Node<G>>): seq<G>
  {
    if nodes == [] then []
    else
      var n := nodes[|nodes| - 1];
      Bucket(legacy, c, nodes[..|nodes| - 1]) + (if InBucket(legacy, c, n) then [n.item] else [])
  }

  /** The exception that ends the traversal: the first one raised, if any. */
  function FirstError<G>(legacy: bool, nodes: seq<Node<G>>): Option<SourceError>
  {
    if nodes == [] then None
    else
      var e := FirstError(legacy, nodes[..|nodes| - 1]);
      if e.Some? then e
      else match ClassOf(legacy, nodes[|nodes| - 1])
        case Err(err) => Some(err)
        case Ok(_) => None
  }

  /** find_by_nx_class: a bucket per requested class, filled in place during
      the traversal; the first exception the callback does not swallow ends
      the traversal. */
  method FindByNxClass<G>(legacy: bool, classNames: seq<string>, nodes: seq<Node<G>>)
    returns (r: Result<map<string, seq<G>>, SourceError>)
    ensures r.Err? <==> FirstError(legacy, nodes).Some?
    ensures r.Err? ==> r.error == FirstError(legacy, nodes).value
    ensures r.Ok? ==> forall c :: c in r.value <==> c in classNames
    ensures r.Ok? ==> forall c :: c in classNames ==> r.value[c] == Bucket(legacy, c, nodes)
  {
    var groups: map<string, seq<G>> := map c | c in classNames :: [];
    for i := 0 to |nodes|
      invariant FirstError(legacy, nodes[..i]) == None
      invariant forall c :: c in groups <==> c in classNames
      invariant forall c :: c in classNames ==> groups[c] == Bucket(legacy, c, nodes[..i])
    {
      assert nodes[..i + 1][..i] == nodes[..i];
      var n := nodes[i];
      var cls := ClassOf(legacy, n);
      if cls.Err? {
        FirstErrorStops(legacy, nodes, i + 1);
        return Err(cls.error);
      }
      if cls.value.Some? && cls.value.value in classNames {
        groups := groups[cls.value.value := groups[cls.value.value] + [n.item]];
      }
    }
    assert nodes[..|nodes|] == nodes;
    return Ok(groups);
  }

  /** Once the traversal has met an exception, nothing after it matters. */
  lemma {:induction false} FirstErrorStops<G>(legacy: bool, nodes: seq<Node<G>>, i: nat)
    requires i <= |nodes| && FirstError(legacy, nodes[..i]).Some?
    ensures FirstError(legacy, nodes) == FirstError(legacy, nodes[..i])
    decreases |nodes| - i
  {
    if i < |nodes| {
      assert nodes[..i + 1][..i] == nodes[..i];
      FirstErrorStops(legacy, nodes, i + 1);
    } else {
      assert nodes[..i] == nodes;
    }
  }

  /** Buckets keep traversal order: the bucket of a concatenated traversal is
      the two buckets one after the other. */
  lemma {:induction false} BucketAppend<G>(legacy: bool, c: string, a: seq<Node<G>>, b: seq<Node<G>>)
    ensures Bucket(legacy, c, a + b) == Bucket(legacy, c, a) + Bucket(legacy, c, b)
    decreases |b|
  {
    if b == [] {
      assert a + b == a;
    } else {
      var front := b[..|b| - 1];
      assert (a + b)[..|a + b| - 1] == a + front;
      assert (a + b)[|a + b| - 1] == b[|b| - 1];
      BucketAppend(legacy, c, a, front);
    }
  }

  /** An object is in a bucket exactly when the traversal met it with that
      class name. */
  lemma {:induction false} BucketMembers<G>(legacy: bool, c: string, nodes: seq<Node<G>>, x: G)
    ensures x in Bucket(legacy, c, nodes) <==>
      exists i :: 0 <= i < |nodes| && InBucket(legacy, c, nodes[i]) && nodes[i].item == x
  {
    if nodes != [] {
      var n := |nodes| - 1;
      var front := nodes[..n];
      BucketMembers(legacy, c, front, x);
      if x in Bucket(legacy, c, front) {
        var i :| 0 <= i < |front| && InBucket(legacy, c, front[i]) && front[i].item == x;
        assert nodes[i] == front[i];
      }
      if exists i :: 0 <= i < |nodes| && InBucket(legacy, c, nodes[i]) && nodes[i].item == x {
        var i :| 0 <= i < |nodes| && InBucket(legacy, c, nodes[i]) && nodes[i].item == x;
        if i < n {
          assert front[i] == nodes[i];
        }
      }
    }
  }

  /** The objects of a traversal, in order. */
  function Items<G>(nodes: seq<Node<G>>): (r: seq<G>)
    ensures |r| == |nodes| && forall i :: 0 <= i < |nodes| ==> r[i] == nodes[i].item
  {
    seq(|nodes|, i requires 0 <= i < |nodes| => nodes[i].item)
  }

  /** An object lands in at most one bucket: together, the buckets of two
      different classes hold each object of the traversal no more often than
      the traversal meets it. */
  lemma {:induction false} BucketsDisjoint<G>(legacy: bool, c: string, d: string, nodes: seq<Node<G>>)
    requires c != d
    ensures multiset(Bucket(legacy, c, nodes)) + multiset(Bucket(legacy, d, nodes)) <= multiset(Items(nodes))
  {
    if nodes != [] {
      var front, n := nodes[..|nodes| - 1], nodes[|nodes| - 1];
      BucketsDisjoint(legacy, c, d, front);
      var inC, inD := InBucket(legacy, c, n), InBucket(legacy, d, n);
      assert !(inC && inD);
      var addC, addD := if inC then [n.item] else [], if inD then [n.item] else [];
      assert Bucket(legacy, c, nodes) == Bucket(legacy, c, front) + addC;
      assert Bucket(legacy, d, nodes) == Bucket(legacy, d, front) + addD;
      assert Items(nodes) == Items(front) + [n.item];
      MultisetsStep(Bucket(legacy, c, front), Bucket(legacy, d, front), Items(front), addC, addD, n.item);
    }
  }

  /** One traversal step of `BucketsDisjoint`: adding the new object to at most
      one of two buckets keeps them within the traversal. */
  lemma MultisetsStep<G>(bc: seq<G>, bd: seq<G>, items: seq<G>, addC: seq<G>, addD: seq<G>, x: G)
    requires multiset(bc) + multiset(bd) <= multiset(items)
    requires (addC == [] && addD == []) || (addC == [x] && addD == []) || (addC == [] && addD == [x])
    ensures multiset(bc + addC) + multiset(bd + addD) <= multiset(items + [x])
  {
  }

  /** Since `visititems` meets each object once, no object is in two buckets. */
  lemma BucketsShareNothing<G>(legacy: bool, c: string, d: string, nodes: seq<Node<G>>, x: G)
    requires c != d
    requires forall i, j :: 0 <= i < j < |nodes| ==> nodes[i].item != nodes[j].item
    ensures !(x in Bucket(legacy, c, nodes) && x in Bucket(legacy, d, nodes))
  {
    BucketsDisjoint(legacy, c, d, nodes);
    if x in Bucket(legacy, c, nodes) {
      assert x in multiset(Items(nodes));
      var i :| 0 <= i < |nodes| && Items(nodes)[i] == x;
      ItemsOnce(nodes, i);
      assert multiset(Bucket(legacy, d, nodes))[x] == 0;
    }
  }

  /** An object met once by the traversal occurs once among its items. */
  lemma {:induction false} ItemsOnce<G>(nodes: seq<Node<G>>, i: nat)
    requires i < |nodes|
    requires forall a, b :: 0 <= a < b < |nodes| ==> nodes[a].item != nodes[b].item
    ensures multiset(Items(nodes))[nodes[i].item] == 1
  {
    var front, n := nodes[..|nodes| - 1], nodes[|nodes| - 1];
    assert Items(nodes) == Items(front) + [n.item];
    if i == |nodes| - 1 {
      assert forall k :: 0 <= k < |front| ==> Items(front)[k] != n.item;
      assert n.item !in Items(front);
    } else {
      ItemsOnce(front, i);
    }
  }

  /** The two versions file every traversal that has no text-valued NX_class
      attribute on a group the same way. */
  lemma {:induction false} VersionsAgree<G>(c: string, nodes: seq<Node<G>>)
    requires forall i :: 0 <= i < |nodes| ==> !(nodes[i].isGroup && nodes[i].nxClass.Text?)
    ensures Bucket(true, c, nodes) == Bucket(false, c, nodes)
    ensures FirstError(true, nodes) == FirstError(false, nodes)
  {
    if nodes != [] {
      var front := nodes[..|nodes| - 1];
      assert forall i :: 0 <= i < |front| ==> front[i] == nodes[i];
      VersionsAgree(c, front);
    }
  }

  /** The exception that ends `[EventDataSource(group) for group in groups]`:
      that of the first group that cannot be opened, if any. */
  function OpenAllError(groups: seq<EventGroup>): Option<SourceError>
  {
    if groups == [] then None
    else if OpenError(groups[0]).Some? then OpenError(groups[0])
    else OpenAllError(groups[1..])
  }

  /** The list comprehension fails exactly when one of its groups cannot be
      opened, and then with the exception of the first such group. */
  lemma {:induction false} OpenAllErrorFirst(groups: seq<EventGroup>)
    ensures OpenAllError(groups).None? <==> forall i :: 0 <= i < |groups| ==> OpenError(groups[i]).None?
    ensures OpenAllError(groups).Some? ==>
      exists i :: 0 <= i < |groups| && OpenAllError(groups) == OpenError(groups[i])
                  && forall k :: 0 <= k < i ==> OpenError(groups[k]).None?
  {
    if groups != [] && OpenError(groups[0]).None? {
      var rest := groups[1..];
      OpenAllErrorFirst(rest);
      assert forall i :: 0 <= i < |rest| ==> rest[i] == groups[i + 1];
      if OpenAllError(rest).Some? {
        var i :| 0 <= i < |rest| && OpenAllError(rest) == OpenError(rest[i])
          && forall k :: 0 <= k < i ==> OpenError(rest[k]).None?;
        assert forall k :: 0 <= k < i + 1 ==> OpenError(groups[k]).None?;
      } else {
        assert forall i :: 0 <= i < |groups| ==> OpenError(groups[i]).None?;
      }
    }
  }

  /** `[EventDataSource(group) for group in groups]`: the groups are opened in
      order, and the first one that cannot be opened ends the list with its
      exception. */
  method OpenEventSources(groups: seq<EventGroup>) returns (r: Result<seq<EventDataSource>, SourceError>)
    ensures r.Err? <==> OpenAllError(groups).Some?
    ensures r.Err? ==> r.error == OpenAllError(groups).value
    ensures r.Ok? ==> |r.value| == |groups| && forall i :: 0 <= i < |groups| ==>
      fresh(r.value[i]) && r.value[i].group == groups[i]
  {
    var sources: seq<EventDataSource> := [];
    for i := 0 to |groups|
      invariant |sources| == i
      invariant OpenAllError(groups[i..]) == OpenAllError(groups)
      invariant forall k :: 0 <= k < i ==>
        fresh(sources[k]) && sources[k].group == groups[k]
    {
      assert groups[i..][1..] == groups[i + 1..];
      var source := Open(groups[i]);
      if source.Err? {
        return Err(source.error);
      }
      sources := sources + [source.value];
    }
    return Ok(sources);
  }

  /** create_data_sources_from_nexus_file: the NXlog groups, and one event
      source opened per NXevent_data group in bucket order. A source that
      cannot be opened (`BadSource` and the other exceptions of
      `EventDataSource.__init__`) ends the call. Log sources are returned as
      their groups: the log source class is not part of this model. */
  method CreateDataSourcesFromNexusFile(nodes: seq<Node<EventGroup>>)
    returns (r: Result<(seq<EventGroup>, seq<EventDataSource>), SourceError>)
    ensures FirstError(false, nodes).Some? ==> r == Err(FirstError(false, nodes).value)
    ensures FirstError(false, nodes).None? ==>
      && (r.Err? <==> OpenAllError(Bucket(false, NxEventData, nodes)).Some?)
      && (r.Err? ==> r.error == OpenAllError(Bucket(false, NxEventData, nodes)).value)
    ensures r.Ok? ==>
      && r.value.0 == Bucket(false, NxLog, nodes)
      && |r.value.1| == |Bucket(false, NxEventData, nodes)|
      && forall i :: 0 <= i < |r.value.1| ==>
           fresh(r.value.1[i]) && r.value.1[i].group == Bucket(false, NxEventData, nodes)[i]
  {
    var groups := FindByNxClass(false, [NxLog, NxEventData], nodes);
    if groups.Err? {
      return Err(groups.error);
    }
    var logs, events := groups.value[NxLog], groups.value[NxEventData];
    var sources := OpenEventSources(events);
    if sources.Err? {
      return Err(sources.error);
    }
    return Ok((logs, sources.value));
  }

  /** A data source of the older version: a log source or an event source
      built from its group (the older source classes are not part of this
      model). */
  datatype DataSource<G> = LogSource(group: G) | EventSource(group: G)

  /** The older create_data_sources_from_nexus_file: one list holding the log
      sources of the NXlog groups and then the event sources of the
      NXevent_data groups, each in bucket order. */
  method LegacyCreateDataSources<G>(nodes: seq<Node<G>>) returns (r: Result<seq<DataSource<G>>, SourceError>)
    ensures r.Err? <==> FirstError(true, nodes).Some?
    ensures r.Err? ==> r.error == FirstError(true, nodes).value
    ensures r.Ok? ==>
      var logs, events := Bucket(true, NxLog, nodes), Bucket(true, NxEventData, nodes);
      && |r.value| == |logs| + |events|
      && (forall i :: 0 <= i < |logs| ==> r.value[i] == LogSource(logs[i]))
      && (forall i :: 0 <= i < |events| ==> r.value[|logs| + i] == EventSource(events[i]))
  {
    var groups := FindByNxClass(true, [NxLog, NxEventData], nodes);
    if groups.Err? {
      return Err(groups.error);
    }
    var logs, events := groups.value[NxLog], groups.value[NxEventData];
    var sources: seq<DataSource<G>> := [];
    for i := 0 to |logs|
      invariant |sources| == i && forall k :: 0 <= k < i ==> sources[k] == LogSource(logs[k])
    {
      sources := sources + [LogSource(logs[i])];
    }
    for i := 0 to |events|
      invariant |sources| == |logs| + i
      invariant forall k :: 0 <= k < |logs| ==> sources[k] == LogSource(logs[k])
      invariant forall k :: 0 <= k < i ==> sources[|logs| + k] == EventSource(events[k])
    {
      sources := sources + [EventSource(events[i])];
    }
    return Ok(sources);
  }
}
