/**
  The value types of the Expat facade (inc/james/expat-facade.hpp): the
  `Path` handed to callbacks, the attribute array of a start tag and its
  lookups, the attribute iterator, the `Tag` callback bundle with its fluent
  setters, and the path-keyed listener registry.

  The facade's event routing (`StartElement`, `EndElement`, `CharacterData`
  and `ListenFor`) is not part of this model.
 */
module ExpatFacade {
  import opened Wrappers

  /** What a callback learns about the element: its name, absolute path, depth and occurrence number. */
  datatype Path = Path(name: string, path: string, depth: int, instance: int)

  /** `Path()`: depth 0 and instance 0. */
  const DEFAULT_PATH: Path := Path("", "", 0, 0)

  /** One name/value pair of a start tag. */
  datatype Attribute = Attribute(name: string, value: string)

  /**
    The `const char**` array Expat passes with a start tag: names and values
    alternate and a null entry ends the array. `None` stands for null; the
    terminator is the last entry, so it sits at an even index.
   */
  predicate WellFormed(data: seq<Option<string>>) {
    && |data| % 2 == 1
    && data[|data| - 1].None?
    && forall i :: 0 <= i < |data| - 1 ==> data[i].Some?
  }

  type AttrArray = data: seq<Option<string>> | WellFormed(data) witness [None]

  /** The pairs the array holds, in order. */
  function Pairs(data: AttrArray): seq<Attribute> {
    seq(|data| / 2, k requires 0 <= k < |data| / 2 => Attribute(data[2 * k].value, data[2 * k + 1].value))
  }

  /** First-match lookup: the value of the first pair called `name`, and "" when no pair is. */
  function Get(ps: seq<Attribute>, name: string): (r: string)
    ensures r != "" ==> exists k :: 0 <= k < |ps| && ps[k] == Attribute(name, r)
  {
    if ps == [] then ""
    else if ps[0].name == name then ps[0].value
    else Get(ps[1..], name)
  }

  /** Some pair is called exactly `name`. */
  predicate HasName(ps: seq<Attribute>, name: string) {
    exists k :: 0 <= k < |ps| && ps[k].name == name
  }

  /** `attr[name]` as the builder sees it. */
  function Value(data: AttrArray, name: string): (r: string)
    ensures r != "" ==> exists k :: 0 <= k < |data| / 2 && data[2 * k] == Some(name) && data[2 * k + 1] == Some(r)
  {
    Get(Pairs(data), name)
  }

  /** The attribute array of a start tag that carries these pairs, in order. */
  function AttributesOf(ps: seq<Attribute>): (data: AttrArray)
    ensures Pairs(data) == ps
    decreases |ps|
  {
    if ps == [] then [None]
    else
      var tail := AttributesOf(ps[1..]);
      var data := [Some(ps[0].name), Some(ps[0].value)] + tail;
      assert WellFormed(data) by {
        forall i | 0 <= i < |data| - 1 ensures data[i].Some? {
          if i >= 2 {
            assert data[i] == tail[i - 2];
          }
        }
      }
      assert Pairs(data) == ps by {
        forall k | 0 <= k < |ps| ensures Pairs(data)[k] == ps[k] {
          if k > 0 {
            assert data[2 * k] == tail[2 * (k - 1)] && data[2 * k + 1] == tail[2 * (k - 1) + 1];
            assert Pairs(tail)[k - 1] == ps[1..][k - 1];
          }
        }
      }
      data
  }

  /** The attribute array of a start tag that carries `name="value"` and nothing else. */
  function OneAttribute(name: string, value: string): AttrArray {
    [Some(name), Some(value), None]
  }

  /** Its only pair is found by name. */
  lemma ValueOfOneAttribute(name: string, value: string)
    ensures Value(OneAttribute(name, value), name) == value
  {
    assert Pairs(OneAttribute(name, value)) == [Attribute(name, value)];
  }

  /** `Get` returns the value of the first pair whose name equals `name` character for character. */
  lemma {:induction false} GetFirstMatch(ps: seq<Attribute>, name: string, k: nat)
    requires k < |ps| && ps[k].name == name
    requires forall j :: 0 <= j < k ==> ps[j].name != name
    ensures Get(ps, name) == ps[k].value
  {
    if k > 0 {
      GetFirstMatch(ps[1..], name, k - 1);
    }
  }

  /** When no pair has the name, `Get` yields the empty string, never "no value". */
  lemma {:induction false} GetAbsent(ps: seq<Attribute>, name: string)
    requires !HasName(ps, name)
    ensures Get(ps, name) == ""
  {
    if ps != [] {
      assert ps[0].name != name;
      assert !HasName(ps[1..], name) by {
        forall k | 0 <= k < |ps[1..]| ensures ps[1..][k].name != name {
          assert ps[1..][k] == ps[k + 1];
        }
      }
      GetAbsent(ps[1..], name);
    }
  }

  /** The entries at `2 * p` and `2 * p + 1` form pair `p`. */
  lemma PairAt(data: AttrArray, p: nat)
    requires 2 * p < |data| - 1
    ensures p < |Pairs(data)| && Pairs(data)[p] == Attribute(data[2 * p].value, data[2 * p + 1].value)
  {
  }

  /** The terminator at `2 * p` means the array holds exactly `p` pairs. */
  lemma PairCount(data: AttrArray, p: nat)
    requires 2 * p < |data| && data[2 * p].None?
    ensures |Pairs(data)| == p
  {
  }

  /** Searching from pair `j` either stops there or goes on from `j + 1`. */
  lemma GetFrom(ps: seq<Attribute>, j: nat, name: string)
    requires j < |ps|
    ensures Get(ps[j..], name) == if ps[j].name == name then ps[j].value else Get(ps[j + 1..], name)
  {
    assert ps[j..][0] == ps[j];
    assert ps[j..][1..] == ps[j + 1..];
  }

  /** `Attributes::operator[]`: scans the array two entries at a time. */
  method Lookup(data: AttrArray, name: string) returns (v: string)
    ensures v == Get(Pairs(data), name)
    ensures !HasName(Pairs(data), name) ==> v == ""
  {
    ghost var ps := Pairs(data);
    var i := 0;
    ghost var p := 0;
    while data[i].Some?
      invariant 0 <= i < |data| && i == 2 * p
      invariant Get(ps, name) == Get(ps[p..], name)
      decreases |data| - i
    {
      PairAt(data, p);
      GetFrom(ps, p, name);
      if data[i].value == name {
        return data[i + 1].value;
      }
      i, p := i + 2, p + 1;
    }
    PairCount(data, p);
    assert ps[p..] == [];
    return "";
  }

  /** `Attributes::Has`. */
  method Contains(data: AttrArray, name: string) returns (b: bool)
    ensures b == HasName(Pairs(data), name)
  {
    ghost var ps := Pairs(data);
    var i := 0;
    ghost var p := 0;
    while data[i].Some?
      invariant 0 <= i < |data| && i == 2 * p
      invariant forall j :: 0 <= j < p ==> ps[j].name != name
      decreases |data| - i
    {
      PairAt(data, p);
      if data[i].value == name {
        assert ps[p].name == name;
        return true;
      }
      i, p := i + 2, p + 1;
    }
    PairCount(data, p);
    return false;
  }

  /** `Attributes::Length`: half the index of the null terminator. */
  method Length(data: AttrArray) returns (n: nat)
    ensures n == |Pairs(data)|
    ensures 2 * n == |data| - 1 && data[2 * n].None?
  {
    var i := 0;
    while data[i].Some?
      invariant 0 <= i < |data| && i % 2 == 0
      decreases |data| - i
    {
      i := i + 2;
    }
    n := i / 2;
  }

  /** `Attributes::Iterator`: a `const char**` cursor into the attribute array, advanced one pair at a time. */
  class AttrIterator {
    const data: AttrArray
    var position: int

    constructor (data: AttrArray, position: int)
      ensures this.data == data && this.position == position
    {
      this.data := data;
      this.position := position;
    }

    /** `operator==`: the two point at the same entry. */
    predicate Equals(other: AttrIterator): (eq: bool)
      reads this, other
      ensures other == this ==> eq
      ensures eq ==> other.data == data && other.position == position
    {
      data == other.data && position == other.position
    }

    /** `operator++`: moves on by one pair, two entries. */
    method Next() returns (self: AttrIterator)
      modifies this
      ensures self == this && position == old(position) + 2
    {
      position := position + 2;
      self := this;
    }

    /** `operator--`: moves back by one pair, undoing `Next`. */
    method Previous() returns (self: AttrIterator)
      modifies this
      ensures self == this && position == old(position) - 2
    {
      position := position - 2;
      self := this;
    }

    /** `operator*`: the pair the iterator points at. */
    function Current(): (a: Attribute)
      reads this
      requires 0 <= position < |data| - 1 && position % 2 == 0
      ensures a == Pairs(data)[position / 2]
    {
      Attribute(data[position].value, data[position + 1].value)
    }
  }

  /** The callbacks one `Tag` binds; `None` is an empty `std::function`. */
  datatype Callbacks<O, C, X> = Callbacks(onOpen: Option<O>, onClose: Option<C>, onText: Option<X>)

  /** `Tag`: up to three callbacks, set through fluent setters that return the same `Tag`. */
  class Tag<O, C, X> {
    var tagOpened: Option<O>
    var tagClosed: Option<C>
    var textContent: Option<X>

    constructor ()
      ensures tagOpened == None && tagClosed == None && textContent == None
    {
      tagOpened, tagClosed, textContent := None, None, None;
    }

    function Bound(): Callbacks<O, C, X>
      reads this
    {
      Callbacks(tagOpened, tagClosed, textContent)
    }

    method Opened(f: O) returns (self: Tag<O, C, X>)
      modifies this
      ensures self == this
      ensures tagOpened == Some(f) && tagClosed == old(tagClosed) && textContent == old(textContent)
    {
      tagOpened := Some(f);
      self := this;
    }

    method Closed(f: C) returns (self: Tag<O, C, X>)
      modifies this
      ensures self == this
      ensures tagClosed == Some(f) && tagOpened == old(tagOpened) && textContent == old(textContent)
    {
      tagClosed := Some(f);
      self := this;
    }

    method Text(f: X) returns (self: Tag<O, C, X>)
      modifies this
      ensures self == this
      ensures textContent == Some(f) && tagOpened == old(tagOpened) && tagClosed == old(tagClosed)
    {
      textContent := Some(f);
      self := this;
    }
  }

  /** `ExpatFacade::TagData`: a copy of a tag's callbacks, its text buffer and its occurrence counter. */
  datatype TagData<O, C, X> = TagData(tag: Callbacks<O, C, X>, textContent: string, instanceCount: int)

  /** `TagData(tag)`: no text yet and an occurrence count of 0. */
  function NewTagData<O, C, X>(tag: Callbacks<O, C, X>): TagData<O, C, X> {
    TagData(tag, "", 0)
  }

  /** A default path is at depth 0 and instance 0; a new `TagData` keeps the tag, has no text and has counted no occurrence. */
  lemma FreshRecords<O, C, X>(tag: Callbacks<O, C, X>)
    ensures DEFAULT_PATH.depth == 0 && DEFAULT_PATH.instance == 0
    ensures NewTagData(tag).tag == tag && NewTagData(tag).textContent == "" && NewTagData(tag).instanceCount == 0
  {
  }

  /**
    `std::multimap<std::string, TagData>`: each path maps to every entry
    registered under it, oldest first.
   */
  type TagMap<V> = map<string, seq<V>>

  /** `equal_range(path)`: the entries registered under `path`. */
  function EqualRange<V>(m: TagMap<V>, path: string): seq<V> {
    if path in m then m[path] else []
  }

  /** `std::multimap::insert`: the entry joins the end of its path's range and nothing else changes. */
  function MultimapInsert<V>(m: TagMap<V>, path: string, v: V): (r: TagMap<V>)
    ensures EqualRange(r, path) == EqualRange(m, path) + [v]
    ensures forall p :: p != path ==> EqualRange(r, p) == EqualRange(m, p)
  {
    m[path := EqualRange(m, path) + [v]]
  }

  /** Registering two tags under one path keeps both, in registration order. */
  lemma SharedPath<V>(m: TagMap<V>, path: string, first: V, second: V)
    ensures EqualRange(MultimapInsert(MultimapInsert(m, path, first), path, second), path)
            == EqualRange(m, path) + [first, second]
  {
  }
}
