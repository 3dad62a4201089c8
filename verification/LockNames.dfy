/**
 Which locks a save takes (store/adapters/base.py and `_determine_required_locks` in
 store/adapters/memory/adapter.py), and why taking them in stream order is taking them in
 name order.
 */
module LockNames {
  import opened Prelude
  import opened Values
  import opened Ordering
  import opened Events
  import opened Conditions

  datatype Guarantee = LogGuarantee | CategoryGuarantee | StreamGuarantee

  const NAMESPACE := "memory"

  function CategoryLock(category: string): string {
    NAMESPACE + "." + category
  }

  function StreamLock(category: string, stream: string): string {
    NAMESPACE + "." + category + "." + stream
  }

  /** The lock protecting a stream. */
  function LockOf(g: Guarantee, category: string, stream: string): string {
    match g
    case LogGuarantee => NAMESPACE
    case CategoryGuarantee => CategoryLock(category)
    case StreamGuarantee => StreamLock(category, stream)
  }

  /** What is published to one stream. */
  datatype Part = Part(stream: string, events: seq<NewEvent>, condition: WriteCondition)

  datatype Save =
    | StreamSave(category: string, part: Part)
    | CategorySave(category: string, streams: seq<Part>)
  {
    function Parts(): seq<Part> {
      match this
      case StreamSave(_, part) => [part]
      case CategorySave(_, streams) => streams
    }

    /** A category publish visits its streams in the sorted order of their names. */
    ghost predicate Valid() {
      forall i, j :: 0 <= i < j < |Parts()| ==> StringBelow(Parts()[i].stream, Parts()[j].stream)
    }
  }

  function ByStream(): (Part, Part) -> bool {
    (a: Part, b: Part) => StringBelow(a.stream, b.stream)
  }

  /** Sorting the streams of a mapping, however it iterates, makes a valid publish. */
  lemma SortedStreamsAreValid(category: string, streams: seq<Part>)
    requires forall i, j :: 0 <= i < j < |streams| ==> streams[i].stream != streams[j].stream
    ensures CategorySave(category, Sort(ByStream(), streams)).Valid()
  {
    forall a: Part, b: Part, c: Part
      ensures !StringBelow(a.stream, a.stream)
      ensures StringBelow(a.stream, b.stream) && StringBelow(b.stream, c.stream) ==> StringBelow(a.stream, c.stream)
      ensures StringBelow(a.stream, c.stream) ==> StringBelow(a.stream, b.stream) || StringBelow(b.stream, c.stream)
    {
      StringBelowTotal(a.stream, b.stream);
      StringBelowTotal(b.stream, c.stream);
      StringBelowTotal(a.stream, c.stream);
      if StringBelow(a.stream, b.stream) && StringBelow(b.stream, c.stream) {
        StringBelowTransitive(a.stream, b.stream, c.stream);
      }
      if StringBelow(b.stream, a.stream) && StringBelow(a.stream, c.stream) {
        StringBelowTransitive(b.stream, a.stream, c.stream);
      }
    }
    var sorted := Sort(ByStream(), streams);
    SortSorted(ByStream(), streams);
    DistinctStreamsKept(streams, sorted);
    forall i, j | 0 <= i < j < |sorted| ensures StringBelow(sorted[i].stream, sorted[j].stream) {
      assert !ByStream()(sorted[j], sorted[i]);
      StringBelowTotal(sorted[i].stream, sorted[j].stream);
    }
  }

  lemma DistinctStreamsKept(streams: seq<Part>, sorted: seq<Part>)
    requires forall i, j :: 0 <= i < j < |streams| ==> streams[i].stream != streams[j].stream
    requires multiset(streams) == multiset(sorted)
    ensures forall i, j :: 0 <= i < j < |sorted| ==> sorted[i].stream != sorted[j].stream
  {
    MultisetMembership(streams, sorted);
    forall i, j | 0 <= i < j < |sorted| ensures sorted[i].stream != sorted[j].stream {
      if sorted[i].stream == sorted[j].stream {
        var a, b := sorted[i], sorted[j];
        assert a in streams && b in streams;
        assert a == b;
        TwiceInMultiset(sorted, i, j);
        OnceInMultiset(streams, a);
        assert false;
      }
    }
  }

  lemma TwiceInMultiset(s: seq<Part>, i: nat, j: nat)
    requires i < j < |s| && s[i] == s[j]
    ensures multiset(s)[s[i]] >= 2
  {
    assert s == s[..i] + [s[i]] + s[i + 1..j] + [s[j]] + s[j + 1..];
  }

  lemma {:induction false} OnceInMultiset(s: seq<Part>, x: Part)
    requires forall i, j :: 0 <= i < j < |s| ==> s[i].stream != s[j].stream
    ensures multiset(s)[x] <= 1
  {
    if s != [] {
      assert s == [s[0]] + s[1..];
      OnceInMultiset(s[1..], x);
      if s[0] == x {
        assert x !in s[1..];
        assert x !in multiset(s[1..]);
      }
    }
  }

  function StreamLocks(category: string, parts: seq<Part>): (r: seq<string>)
    ensures |r| == |parts|
    ensures forall i :: 0 <= i < |r| ==> r[i] == StreamLock(category, parts[i].stream)
  {
    Map((part: Part) => StreamLock(category, part.stream), parts)
  }

  function RequiredLocks(g: Guarantee, save: Save): seq<string> {
    match save
    case StreamSave(category, part) => [LockOf(g, category, part.stream)]
    case CategorySave(category, streams) =>
      match g
      case StreamGuarantee => StreamLocks(category, streams)
      case CategoryGuarantee => [CategoryLock(category)]
      case LogGuarantee => [NAMESPACE]
  }

  ghost predicate Ordered(names: seq<string>) {
    forall i, j :: 0 <= i < j < |names| ==> StringBelow(names[i], names[j])
  }

  /** The common category prefix keeps stream order and lock order equal, so no lock is taken twice. */
  lemma RequiredLocksOrdered(g: Guarantee, save: Save)
    requires save.Valid()
    ensures Ordered(RequiredLocks(g, save))
  {
    var names := RequiredLocks(g, save);
    forall i, j | 0 <= i < j < |names| ensures StringBelow(names[i], names[j]) {
      assert save.CategorySave? && g.StreamGuarantee?;
      var prefix := NAMESPACE + "." + save.category + ".";
      var a, b := save.streams[i].stream, save.streams[j].stream;
      assert save.Parts()[i] == save.streams[i] && save.Parts()[j] == save.streams[j];
      StringBelowPrefix(prefix, a, b);
      assert names[i] == prefix + a && names[j] == prefix + b;
    }
  }

  /** The locks of a save protect every stream it writes to. */
  lemma RequiredLocksProtect(g: Guarantee, save: Save, k: nat)
    requires k < |save.Parts()|
    ensures LockOf(g, save.category, save.Parts()[k].stream) in RequiredLocks(g, save)
  {
  }
}
