/**
  Properties of the geometry accumulator over whole event streams: every
  record that reaches an owner has what its acceptance rule checks (meshes an
  id and parts, parts indices and a position accessor, sources an id and
  values, accessors an id), a stored mesh is never replaced, `<param>`
  elements fill the accessor's slots in order, text delivered in chunks is
  read as their concatenation, and one whole `<geometry>` yields its mesh.
 */
module GeometriesProofs {
  import opened Wrappers
  import opened Scan
  import opened Dom
  import opened ExpatFacade
  import opened LibGeometries

  // What an accepted record looks like.

  /** A kept polylist has indices and a position accessor. */
  predicate GoodPart(p: VertexIndex) {
    |p.indices| > 0 && |p.position.accessor| > 0
  }

  predicate GoodParts(parts: seq<VertexIndex>) {
    forall i :: 0 <= i < |parts| ==> GoodPart(parts[i])
  }

  /** Every stored float source has an id and at least one value. */
  predicate GoodSources(sources: map<string, FloatSource>) {
    forall k :: k in sources ==> |k| > 0 && |sources[k]| > 0
  }

  /** Every stored accessor has an id. */
  predicate GoodAccessorIds(accessors: map<string, Accessor>) {
    forall k :: k in accessors ==> |k| > 0
  }

  /** A stored mesh has at least one part, and its parts, sources and accessors are as above. */
  predicate GoodMesh(m: Mesh) {
    |m.parts| > 0 && GoodParts(m.parts) && GoodSources(m.sources) && GoodAccessorIds(m.accessors)
  }

  /**
    Every record committed so far, to a stored mesh or to the current one:
    meshes have an id and parts, parts have indices and a position accessor,
    sources an id and values, accessors an id. The triangles-only half of the
    polylist rule and the named-param half of the accessor rule are not kept
    in the committed records, so they are not part of this invariant.
   */
  predicate Inv(s: State) {
    && (forall k :: k in s.meshes ==> |k| > 0 && GoodMesh(s.meshes[k]))
    && GoodParts(s.mesh.parts)
    && GoodSources(s.mesh.sources)
    && GoodAccessorIds(s.mesh.accessors)
  }

  lemma InitialInv()
    ensures Inv(INITIAL)
  {
  }

  lemma GeometryClosedInv(s: State)
    requires Inv(s)
    ensures Inv(GeometryClosed(s))
  {
    var r := GeometryClosed(s);
    forall k | k in r.meshes
      ensures |k| > 0 && GoodMesh(r.meshes[k])
    {
      if k !in s.meshes {
        assert k == s.mesh.id && MeshAccepted(s.mesh);
      }
    }
  }

  lemma FloatArrayClosedInv(s: State)
    requires Inv(s)
    ensures Inv(FloatArrayClosed(s))
  {
    var r := FloatArrayClosed(s);
    forall k | k in r.mesh.sources
      ensures |k| > 0 && |r.mesh.sources[k]| > 0
    {
      if k !in s.mesh.sources {
        assert k == s.source.id;
      }
    }
  }

  lemma SourceClosedInv(s: State)
    requires Inv(s)
    ensures Inv(SourceClosed(s))
  {
  }

  lemma PolylistClosedInv(s: State)
    requires Inv(s)
    ensures Inv(PolylistClosed(s))
  {
    var r := PolylistClosed(s);
    forall i | 0 <= i < |r.mesh.parts|
      ensures GoodPart(r.mesh.parts[i])
    {
      if i >= |s.mesh.parts| {
        assert r.mesh.parts[i] == s.vertexIndex.data;
      } else {
        assert r.mesh.parts[i] == s.mesh.parts[i];
      }
    }
  }

  /** Start tags and character data never touch a committed record: only close listeners commit. */
  lemma OpenKeepsMeshes(s: State, path: string, attrs: AttrArray)
    ensures Open(s, path, attrs).meshes == s.meshes
  {
  }

  lemma OpenKeepsParts(s: State, path: string, attrs: AttrArray)
    ensures Open(s, path, attrs).mesh.parts == s.mesh.parts
  {
    if path == VERTICES_INPUT {
      assert VerticesInputOpened(s, attrs).mesh.parts == s.mesh.parts;
    } else if path == POLYLIST_INPUT {
      assert PolylistInputOpened(s, attrs).mesh == s.mesh;
    }
  }

  lemma OpenKeepsRecords(s: State, path: string, attrs: AttrArray)
    ensures Open(s, path, attrs).mesh.sources == s.mesh.sources
    ensures Open(s, path, attrs).mesh.accessors == s.mesh.accessors
  {
    if path == VERTICES_INPUT {
      assert VerticesInputOpened(s, attrs).mesh.sources == s.mesh.sources;
    } else if path == POLYLIST_INPUT {
      assert PolylistInputOpened(s, attrs).mesh == s.mesh;
    }
  }

  lemma OpenInv(s: State, path: string, attrs: AttrArray)
    requires Inv(s)
    ensures Inv(Open(s, path, attrs))
  {
    OpenKeepsMeshes(s, path, attrs);
    OpenKeepsParts(s, path, attrs);
    OpenKeepsRecords(s, path, attrs);
  }

  lemma TextKeepsCommitted(s: State, path: string, chunk: string)
    ensures Text(s, path, chunk).meshes == s.meshes
    ensures Text(s, path, chunk).mesh == s.mesh
  {
  }

  lemma TextInv(s: State, path: string, chunk: string)
    requires Inv(s)
    ensures Inv(Text(s, path, chunk))
  {
    TextKeepsCommitted(s, path, chunk);
  }

  /** Each close keeps only records that pass their rule. */
  lemma CloseInv(s: State, path: string)
    requires Inv(s)
    ensures Inv(Close(s, path))
  {
    if path == GEOMETRY {
      assert Close(s, path) == GeometryClosed(s);
      GeometryClosedInv(s);
    } else if path == FLOAT_ARRAY {
      assert Close(s, path) == FloatArrayClosed(s);
      FloatArrayClosedInv(s);
    } else if path == SOURCE {
      assert Close(s, path) == SourceClosed(s);
      SourceClosedInv(s);
    } else if path == POLYLIST {
      assert Close(s, path) == PolylistClosed(s);
      PolylistClosedInv(s);
    } else {
      assert Close(s, path).mesh == s.mesh && Close(s, path).meshes == s.meshes;
    }
  }

  /** No listener breaks the invariant. */
  lemma StepInv(s: State, e: Event)
    requires Inv(s)
    ensures Inv(Step(s, e))
  {
    match e
    case StartTag(path, attrs) =>
      OpenInv(s, path, attrs);
    case CharData(path, chunk) =>
      TextInv(s, path, chunk);
    case EndTag(path) =>
      CloseInv(s, path);
  }

  /**
    Whatever events arrive, every mesh in `meshes_` has a non-empty id and
    at least one part, every part has indices and a position accessor, and
    every stored source and accessor has an id.
   */
  lemma {:induction false} RunInv(s: State, events: seq<Event>)
    requires Inv(s)
    ensures Inv(Run(s, events))
    decreases |events|
  {
    if events != [] {
      StepInv(s, events[0]);
      RunInv(Step(s, events[0]), events[1..]);
    }
  }

  // Stored meshes are permanent.

  /** `meshes_` only grows, and an entry once stored keeps its mesh. */
  predicate Extends(before: map<string, Mesh>, after: map<string, Mesh>) {
    forall k :: k in before ==> k in after && after[k] == before[k]
  }

  lemma StepExtends(s: State, e: Event)
    ensures Extends(s.meshes, Step(s, e).meshes)
    ensures Step(s, e).meshes != s.meshes ==> e == EndTag(GEOMETRY)
  {
    match e
    case StartTag(path, attrs) =>
      OpenKeepsMeshes(s, path, attrs);
    case CharData(path, chunk) =>
      TextKeepsCommitted(s, path, chunk);
    case EndTag(path) =>
      CloseExtends(s, path);
  }

  /** Only the close of `<geometry>` stores a mesh, and it never replaces one. */
  lemma CloseExtends(s: State, path: string)
    ensures Extends(s.meshes, Close(s, path).meshes)
    ensures Close(s, path).meshes != s.meshes ==> path == GEOMETRY
  {
    if path == GEOMETRY {
      assert Close(s, path) == GeometryClosed(s);
    }
  }

  /** A second `<geometry>` with an id already stored, or any later event, never replaces the stored mesh. */
  lemma {:induction false} RunExtends(s: State, events: seq<Event>)
    ensures Extends(s.meshes, Run(s, events).meshes)
    decreases |events|
  {
    if events != [] {
      StepExtends(s, events[0]);
      RunExtends(Step(s, events[0]), events[1..]);
    }
  }

  /** Running two event streams in turn is running their concatenation. */
  lemma {:induction false} RunAppend(s: State, first: seq<Event>, second: seq<Event>)
    ensures Run(s, first + second) == Run(Run(s, first), second)
    decreases |first|
  {
    if first == [] {
      assert first + second == second;
    } else {
      assert (first + second)[0] == first[0];
      assert (first + second)[1..] == first[1..] + second;
      RunAppend(Step(s, first[0]), first[1..], second);
    }
  }

  // <param> elements.

  /** The accessor accumulator after `<param>` elements with these names, in order. */
  function Params(a: AccessorAccumulator, names: seq<string>): AccessorAccumulator
    decreases |names|
  {
    if names == [] then a else ParamStep(Params(a, names[..|names| - 1]), names[|names| - 1])
  }

  /** The positions of the non-empty names, in increasing order. */
  function Named(names: seq<string>): (r: seq<nat>)
    ensures forall i :: 0 <= i < |r| ==> r[i] < |names| && |names[r[i]]| > 0
    ensures forall i, j :: 0 <= i < j < |r| ==> r[i] < r[j]
    ensures forall k :: 0 <= k < |names| && |names[k]| > 0 ==> k in r
    decreases |names|
  {
    if names == [] then []
    else
      var last := |names| - 1;
      Named(names[..last]) + (if |names[last]| > 0 then [last] else [])
  }

  /** Slot `k` of an accessor: the `k`-th named param's position, or `NOT_PRESENT`. */
  function Slot(named: seq<nat>, k: nat): nat {
    if k < |named| then named[k] else NOT_PRESENT
  }

  /**
    From a reset accessor, `<param>`s with the given names leave the running
    index at their number and the named count at the number of non-empty
    names; slots a, b and c hold the positions of the first three named
    params, and are `NOT_PRESENT` where there are fewer. Nothing else changes.
   */
  lemma {:induction false} ParamsFill(a: AccessorAccumulator, names: seq<string>)
    requires a.nParamsFound == 0 && a.currentIndex == 0
    requires a.data.aIndex == NOT_PRESENT && a.data.bIndex == NOT_PRESENT && a.data.cIndex == NOT_PRESENT
    ensures var r := Params(a, names);
            var named := Named(names);
            && r.currentIndex == |names|
            && r.nParamsFound == |named|
            && r.data.aIndex == Slot(named, 0)
            && r.data.bIndex == Slot(named, 1)
            && r.data.cIndex == Slot(named, 2)
            && r.id == a.id
            && r.data == a.data.(aIndex := r.data.aIndex, bIndex := r.data.bIndex, cIndex := r.data.cIndex)
    decreases |names|
  {
    if names != [] {
      var last := |names| - 1;
      ParamsFill(a, names[..last]);
      ParamStepFills(a, Params(a, names[..last]), last, Named(names[..last]), names[last]);
    }
  }

  /** `p` is `a` after `count` params of which those at positions `named` had a name. */
  predicate Filled(p: AccessorAccumulator, a: AccessorAccumulator, count: nat, named: seq<nat>) {
    && p.currentIndex == count
    && p.nParamsFound == |named|
    && p.data.aIndex == Slot(named, 0)
    && p.data.bIndex == Slot(named, 1)
    && p.data.cIndex == Slot(named, 2)
    && p.id == a.id
    && p.data == a.data.(aIndex := p.data.aIndex, bIndex := p.data.bIndex, cIndex := p.data.cIndex)
  }

  /** One more param: a named one takes the next free slot at the running index. */
  lemma ParamStepFills(a: AccessorAccumulator, p: AccessorAccumulator, count: nat, named: seq<nat>, name: string)
    requires Filled(p, a, count, named)
    ensures Filled(ParamStep(p, name), a, count + 1, named + (if |name| > 0 then [count] else []))
  {
    var named' := named + (if |name| > 0 then [count] else []);
    if |name| > 0 {
      assert named'[|named|] == count;
      assert forall k :: 0 <= k < |named| ==> named'[k] == named[k];
    } else {
      assert named' == named;
    }
  }

  /** One `<param>` start tag per attribute array. */
  function ParamEvents(attrsList: seq<AttrArray>): seq<Event> {
    seq(|attrsList|, i requires 0 <= i < |attrsList| => StartTag(PARAM, attrsList[i]))
  }

  /** The `name` each attribute array gives, "" where it has none. */
  function NamesOf(attrsList: seq<AttrArray>): seq<string> {
    seq(|attrsList|, i requires 0 <= i < |attrsList| => Value(attrsList[i], "name"))
  }

  /** A run of `<param>` start tags changes only the accessor, as `Params` says. */
  lemma {:induction false} RunParams(s: State, attrsList: seq<AttrArray>)
    ensures Run(s, ParamEvents(attrsList)) == s.(accessor := Params(s.accessor, NamesOf(attrsList)))
    decreases |attrsList|
  {
    if attrsList != [] {
      var last := |attrsList| - 1;
      var front := attrsList[..last];
      assert ParamEvents(attrsList) == ParamEvents(front) + [StartTag(PARAM, attrsList[last])];
      assert NamesOf(front) == NamesOf(attrsList)[..last];
      RunAppend(s, ParamEvents(front), [StartTag(PARAM, attrsList[last])]);
      RunParams(s, front);
    }
  }

  /** A param with a name and no `type` still counts: the missing type reads as "" and is not checked. */
  lemma ParamWithoutType(s: State, name: string)
    requires |name| > 0
    ensures ParamOpened(s, OneAttribute("name", name)).accessor.nParamsFound == s.accessor.nParamsFound + 1
  {
    ValueOfOneAttribute("name", name);
  }

  // Text delivered in chunks.

  /** The chunks joined in order. */
  function Concat(chunks: seq<string>): string
    decreases |chunks|
  {
    if chunks == [] then "" else chunks[0] + Concat(chunks[1..])
  }

  /** One character-data event per chunk, all at `path`. */
  function TextEvents(path: string, chunks: seq<string>): seq<Event> {
    seq(|chunks|, i requires 0 <= i < |chunks| => CharData(path, chunks[i]))
  }

  /** Two chunks written in turn buffer what writing their concatenation does. */
  lemma TextTwice(s: State, path: string, x: string, y: string)
    requires TakesText(path)
    ensures Text(Text(s, path, x), path, y) == Text(s, path, x + y)
  {
    if path == FLOAT_ARRAY {
      AppendChunks(s.source.buffer, x, y);
    } else if path == VCOUNT {
      AppendChunks(s.vertexIndex.vCountBuffer, x, y);
    } else {
      AppendChunks(s.vertexIndex.pBuffer, x, y);
    }
  }

  /** However the text of `<float_array>`, `<vcount>` or `<p>` is split into chunks, the buffer receives their concatenation. */
  lemma {:induction false} TextChunks(s: State, path: string, chunks: seq<string>)
    requires TakesText(path)
    ensures Run(s, TextEvents(path, chunks)) == Text(s, path, Concat(chunks))
    decreases |chunks|
  {
    if chunks == [] {
      if path == FLOAT_ARRAY {
        assert s.source.buffer.Buffer? ==> s.source.buffer.text + "" == s.source.buffer.text;
      } else if path == VCOUNT {
        assert s.vertexIndex.vCountBuffer.Buffer? ==> s.vertexIndex.vCountBuffer.text + "" == s.vertexIndex.vCountBuffer.text;
      } else {
        assert s.vertexIndex.pBuffer.Buffer? ==> s.vertexIndex.pBuffer.text + "" == s.vertexIndex.pBuffer.text;
      }
    } else {
      assert TextEvents(path, chunks)[1..] == TextEvents(path, chunks[1..]);
      TextChunks(Text(s, path, chunks[0]), path, chunks[1..]);
      TextTwice(s, path, chunks[0], Concat(chunks[1..]));
    }
  }

  /** What `<float_array>` stores depends only on the concatenation of its chunks, not on how they were split. */
  lemma FloatArraySplitInvariant(s: State, chunks1: seq<string>, chunks2: seq<string>)
    requires Concat(chunks1) == Concat(chunks2)
    ensures Close(Run(s, TextEvents(FLOAT_ARRAY, chunks1)), FLOAT_ARRAY)
            == Close(Run(s, TextEvents(FLOAT_ARRAY, chunks2)), FLOAT_ARRAY)
  {
    TextChunks(s, FLOAT_ARRAY, chunks1);
    TextChunks(s, FLOAT_ARRAY, chunks2);
  }

  /** `<float_array id="...">` followed by one chunk of text leaves exactly that id and text in a fresh source. */
  lemma FloatArrayFilled(s: State, id: string, text: string)
    requires s.source.buffer == EMPTY_BUFFER
    ensures Text(Open(s, FLOAT_ARRAY, OneAttribute("id", id)), FLOAT_ARRAY, text) == s.(source := SourceAccumulator(id, Buffer(text)))
  {
    ValueOfOneAttribute("id", id);
    assert Open(s, FLOAT_ARRAY, OneAttribute("id", id)) == s.(source := s.source.(id := id));
    assert "" + text == text;
  }

  /** `</float_array>` on a source holding "1.0 2.0 3.0" stores the values 1, 2 and 3. */
  lemma OneTwoThreeClosed(s: State, id: string)
    requires |id| > 0 && id !in s.mesh.sources
    ensures var r := Close(s.(source := SourceAccumulator(id, Buffer("1.0 2.0 3.0"))), FLOAT_ARRAY);
            id in r.mesh.sources && r.mesh.sources[id] == [1.0, 2.0, 3.0]
  {
    var filled := s.(source := SourceAccumulator(id, Buffer("1.0 2.0 3.0")));
    ThreeFloats();
    assert BufferedFloats(filled.source.buffer) == [1.0, 2.0, 3.0];
    assert Close(filled, FLOAT_ARRAY) == FloatArrayClosed(filled);
  }

  /** `<float_array id="...">1.0 2.0 3.0</float_array>` in a fresh source stores the values 1, 2 and 3 under its id. */
  lemma FloatArrayOneTwoThree(s: State, id: string)
    requires |id| > 0 && id !in s.mesh.sources && s.source.buffer == EMPTY_BUFFER
    ensures var r := Close(Text(Open(s, FLOAT_ARRAY, OneAttribute("id", id)), FLOAT_ARRAY, "1.0 2.0 3.0"), FLOAT_ARRAY);
            id in r.mesh.sources && r.mesh.sources[id] == [1.0, 2.0, 3.0]
  {
    FloatArrayFilled(s, id, "1.0 2.0 3.0");
    OneTwoThreeClosed(s, id);
  }

  // Polylists.

  /** An event that ends neither the polylist nor the geometry. */
  predicate KeepsPolylist(e: Event) {
    e != EndTag(POLYLIST) && e != EndTag(GEOMETRY)
  }

  /** Once `trianglesOnly` is false, an event that does not end the polylist or the geometry keeps it false and keeps the parts. */
  lemma StepKeepsDropped(s: State, e: Event)
    requires !s.vertexIndex.trianglesOnly && KeepsPolylist(e)
    ensures !Step(s, e).vertexIndex.trianglesOnly && Step(s, e).mesh.parts == s.mesh.parts
  {
    match e
    case StartTag(path, attrs) =>
      OpenKeepsParts(s, path, attrs);
    case CharData(path, chunk) =>
    case EndTag(path) =>
  }

  lemma {:induction false} RunKeepsDropped(s: State, events: seq<Event>)
    requires !s.vertexIndex.trianglesOnly
    requires forall i :: 0 <= i < |events| ==> KeepsPolylist(events[i])
    ensures !Run(s, events).vertexIndex.trianglesOnly && Run(s, events).mesh.parts == s.mesh.parts
    decreases |events|
  {
    if events != [] {
      StepKeepsDropped(s, events[0]);
      RunKeepsDropped(Step(s, events[0]), events[1..]);
    }
  }

  /**
    A `<vcount>` that lists any polygon other than a triangle makes its
    polylist be dropped, whatever arrives before `</polylist>`, such as a
    well-formed `<p>`.
   */
  lemma NonTriangleDropped(s: State, events: seq<Event>)
    requires exists i :: 0 <= i < |BufferedUInts(s.vertexIndex.vCountBuffer)| && BufferedUInts(s.vertexIndex.vCountBuffer)[i] != 3
    requires forall i :: 0 <= i < |events| ==> KeepsPolylist(events[i])
    ensures Close(Run(VCountClosed(s), events), POLYLIST).mesh.parts == s.mesh.parts
  {
    VCountDrops(s);
    RunThenCloseDropped(VCountClosed(s), events);
  }

  /** `</vcount>` with a count other than 3 in the buffer clears `trianglesOnly`. */
  lemma VCountDrops(s: State)
    requires exists i :: 0 <= i < |BufferedUInts(s.vertexIndex.vCountBuffer)| && BufferedUInts(s.vertexIndex.vCountBuffer)[i] != 3
    ensures !VCountClosed(s).vertexIndex.trianglesOnly
  {
  }

  /** With `trianglesOnly` false, events that keep the polylist open and then `</polylist>` keep the parts. */
  lemma RunThenCloseDropped(s: State, events: seq<Event>)
    requires !s.vertexIndex.trianglesOnly
    requires forall i :: 0 <= i < |events| ==> KeepsPolylist(events[i])
    ensures Close(Run(s, events), POLYLIST).mesh.parts == s.mesh.parts
  {
    RunKeepsDropped(s, events);
    DroppedPartClosed(Run(s, events));
  }

  /** `</polylist>` with `trianglesOnly` false keeps the parts. */
  lemma DroppedPartClosed(s: State)
    requires !s.vertexIndex.trianglesOnly
    ensures Close(s, POLYLIST).mesh.parts == s.mesh.parts
  {
    assert Close(s, POLYLIST) == PolylistClosed(s);
  }

  /** One whole `<p>` element: its indices are appended to the polylist's. */
  lemma OnePElement(s: State, x: string)
    ensures PClosed(PText(POpened(s), x)).vertexIndex.data.indices == s.vertexIndex.data.indices + UInts(x)
  {
    assert PText(POpened(s), x).vertexIndex.pBuffer == Buffer("" + x);
    assert "" + x == x;
  }

  /** Indices of two `<p>` elements in one polylist accumulate, first then second. */
  lemma TwoPElements(s: State, x: string, y: string)
    ensures var r := PClosed(PText(POpened(PClosed(PText(POpened(s), x))), y));
            r.vertexIndex.data.indices == s.vertexIndex.data.indices + UInts(x) + UInts(y)
  {
    OnePElement(s, x);
    OnePElement(PClosed(PText(POpened(s), x)), y);
  }

  // Absent attributes.

  /** An accessor without `count`, `stride` or `offset` gets 0 for each: `strtoul("")` is 0. */
  lemma AccessorDefaults(s: State, attrs: AttrArray)
    requires !HasName(Pairs(attrs), "count") && !HasName(Pairs(attrs), "stride") && !HasName(Pairs(attrs), "offset")
    ensures var d := AccessorOpened(s, attrs).accessor.data;
            d.count == 0 && d.stride == 0 && d.offset == 0
  {
    GetAbsent(Pairs(attrs), "count");
    GetAbsent(Pairs(attrs), "stride");
    GetAbsent(Pairs(attrs), "offset");
  }

  /** An event that does not open another `<geometry>`. */
  predicate KeepsGeometry(e: Event) {
    !(e.StartTag? && e.path == GEOMETRY)
  }

  /** While the current mesh has the empty id, no event other than a new `<geometry>` gives it one or stores a mesh. */
  lemma StepWithoutId(s: State, e: Event)
    requires s.mesh.id == "" && KeepsGeometry(e)
    ensures Step(s, e).mesh.id == "" && Step(s, e).meshes == s.meshes
  {
    match e
    case StartTag(path, attrs) =>
      OpenKeepsId(s, path, attrs);
    case CharData(path, chunk) =>
    case EndTag(path) =>
      CloseWithoutId(s, path);
  }

  /** Only the start of `<geometry>` sets the mesh id. */
  lemma OpenKeepsId(s: State, path: string, attrs: AttrArray)
    requires path != GEOMETRY
    ensures Open(s, path, attrs).mesh.id == s.mesh.id
  {
    if path == VERTICES_INPUT {
      assert VerticesInputOpened(s, attrs).mesh.id == s.mesh.id;
    } else if path == POLYLIST_INPUT {
      assert PolylistInputOpened(s, attrs).mesh == s.mesh;
    }
  }

  /** An end tag leaves the empty id empty and stores no mesh that has it. */
  lemma CloseWithoutId(s: State, path: string)
    requires s.mesh.id == ""
    ensures Close(s, path).mesh.id == "" && Close(s, path).meshes == s.meshes
  {
    if path == GEOMETRY {
      assert !MeshAccepted(s.mesh);
      assert Close(s, path) == GeometryClosed(s);
    }
  }

  lemma {:induction false} RunWithoutId(s: State, events: seq<Event>)
    requires s.mesh.id == ""
    requires forall i :: 0 <= i < |events| ==> KeepsGeometry(events[i])
    ensures Run(s, events).meshes == s.meshes
    decreases |events|
  {
    if events != [] {
      StepWithoutId(s, events[0]);
      RunWithoutId(Step(s, events[0]), events[1..]);
    }
  }

  /**
    A `<geometry>` without an id gets the empty id, so its mesh is never
    stored: whatever arrives up to the next `<geometry>`, its sources,
    polylists and its own end tag included, `meshes_` stays as it was.
   */
  lemma GeometryWithoutId(s: State, attrs: AttrArray, events: seq<Event>)
    requires !HasName(Pairs(attrs), "id")
    requires forall i :: 0 <= i < |events| ==> KeepsGeometry(events[i])
    ensures !MeshAccepted(GeometryOpened(s, attrs).mesh)
    ensures Run(GeometryOpened(s, attrs), events).meshes == s.meshes
  {
    GetAbsent(Pairs(attrs), "id");
    RunWithoutId(GeometryOpened(s, attrs), events);
  }

  // Paths nobody listens at.

  /** Events at any other path, such as `<library_materials>` content, change nothing. */
  lemma UnregisteredIgnored(s: State, path: string, attrs: AttrArray, chunk: string)
    requires !Registered(path)
    ensures Open(s, path, attrs) == s && Text(s, path, chunk) == s && Close(s, path) == s
  {
  }

  // One whole geometry, from the builder's construction to `</geometry>`.

  lemma RunOne(s: State, a: Event)
    ensures Run(s, [a]) == Step(s, a)
  {
    assert [a][1..] == [];
  }

  lemma RunTwo(s: State, a: Event, b: Event)
    ensures Run(s, [a, b]) == Step(Step(s, a), b)
  {
    assert [a, b][1..] == [b];
    RunOne(Step(s, a), b);
  }

  lemma RunThree(s: State, a: Event, b: Event, c: Event)
    ensures Run(s, [a, b, c]) == Step(Step(Step(s, a), b), c)
  {
    assert [a, b, c][1..] == [b, c];
    RunTwo(Step(s, a), b, c);
  }

  lemma RunFour(s: State, a: Event, b: Event, c: Event, d: Event)
    ensures Run(s, [a, b, c, d]) == Step(Step(Step(Step(s, a), b), c), d)
  {
    assert [a, b, c, d][1..] == [b, c, d];
    RunThree(Step(s, a), b, c, d);
  }

  /**
    The events the builder's listeners receive for

      <geometry id="cube"><mesh>
        <source id="pos">
          <float_array id="pos-array">0 0 0 1 1 1</float_array>
          <technique_common>
            <accessor source="#pos-array" count="2" stride="3">
              <param name="X"/><param name="Y"/><param name="Z"/>
            </accessor>
          </technique_common>
        </source>
        <vertices id="verts"><input semantic="POSITION" source="#pos"/></vertices>
        <polylist count="1">
          <input semantic="VERTEX" source="#verts" offset="0"/>
          <vcount>3</vcount><p>0 1 2</p>
        </polylist>
      </mesh></geometry>

    `<mesh>` and `<technique_common>` have no listener, and end tags reach
    only the six listeners that register a close callback.
   */
  const CUBE_OPEN: seq<Event> := [StartTag(GEOMETRY, OneAttribute("id", "cube"))]

  const POS_FLOATS: seq<Event> := [
    StartTag(SOURCE, OneAttribute("id", "pos")),
    StartTag(FLOAT_ARRAY, OneAttribute("id", "pos-array")),
    CharData(FLOAT_ARRAY, "0 0 0 1 1 1"),
    EndTag(FLOAT_ARRAY)]

  const POS_ACCESSOR_ATTRIBUTES: AttrArray :=
    AttributesOf([Attribute("source", "#pos-array"), Attribute("count", "2"), Attribute("stride", "3")])

  const POS_ACCESSOR: seq<Event> := [
    StartTag(ACCESSOR, POS_ACCESSOR_ATTRIBUTES),
    StartTag(PARAM, OneAttribute("name", "X")),
    StartTag(PARAM, OneAttribute("name", "Y")),
    StartTag(PARAM, OneAttribute("name", "Z"))]

  const POS_CLOSE: seq<Event> := [EndTag(SOURCE)]

  const VERTS: seq<Event> := [
    StartTag(VERTICES, OneAttribute("id", "verts")),
    StartTag(VERTICES_INPUT, AttributesOf([Attribute("semantic", "POSITION"), Attribute("source", "#pos")]))]

  const TRIANGLE_INPUT_ATTRIBUTES: AttrArray :=
    AttributesOf([Attribute("semantic", "VERTEX"), Attribute("source", "#verts"), Attribute("offset", "0")])

  const TRIANGLE_HEAD: seq<Event> := [
    StartTag(POLYLIST, OneAttribute("count", "1")),
    StartTag(POLYLIST_INPUT, TRIANGLE_INPUT_ATTRIBUTES)]

  const TRIANGLE_VCOUNT: seq<Event> := [StartTag(VCOUNT, AttributesOf([])), CharData(VCOUNT, "3"), EndTag(VCOUNT)]

  const TRIANGLE_P: seq<Event> := [StartTag(P, AttributesOf([])), CharData(P, "0 1 2"), EndTag(P)]

  const CUBE_CLOSE: seq<Event> := [EndTag(POLYLIST), EndTag(GEOMETRY)]

  const CUBE_SOURCE_EVENTS: seq<Event> := CUBE_OPEN + POS_FLOATS + POS_ACCESSOR + POS_CLOSE

  const CUBE_TRIANGLE_EVENTS: seq<Event> := VERTS + TRIANGLE_HEAD + TRIANGLE_VCOUNT + TRIANGLE_P

  const CUBE_EVENTS: seq<Event> := CUBE_SOURCE_EVENTS + CUBE_TRIANGLE_EVENTS + CUBE_CLOSE

  /** What the document describes: six floats, an accessor over them, the vertices and one triangle. */
  const CUBE_ACCESSOR: Accessor := Accessor("#pos-array", 2, 3, 0, 0, 1, 2)

  const CUBE_TRIANGLE: VertexIndex := VertexIndex("", Input("#verts", 0), DEFAULT_INPUT, DEFAULT_INPUT, [0, 1, 2])

  const CUBE_MESH: Mesh := Mesh(
    map["pos-array" := [0.0, 0.0, 0.0, 1.0, 1.0, 1.0]],
    map["pos" := CUBE_ACCESSOR],
    VertexLink("verts", "#pos"),
    [CUBE_TRIANGLE])

  /** `<geometry id="cube">` names the current mesh. */
  lemma CubeOpened()
    ensures Run(INITIAL, CUBE_OPEN) == INITIAL.(mesh := EMPTY_MESH.(id := "cube"))
  {
    RunOne(INITIAL, CUBE_OPEN[0]);
    ValueOfOneAttribute("id", "cube");
    assert Step(INITIAL, CUBE_OPEN[0]) == GeometryOpened(INITIAL, OneAttribute("id", "cube"));
  }

  /** `</float_array>` on a buffer holding `text` stores what `text` reads as under a new id. */
  lemma FloatsClosed(s: State, id: string, text: string, values: seq<real>)
    requires |id| > 0 && id !in s.mesh.sources && Floats(text) == values && |values| > 0
    ensures Close(s.(source := SourceAccumulator(id, Buffer(text))), FLOAT_ARRAY)
            == s.(mesh := s.mesh.(sources := s.mesh.sources[id := values]), source := EMPTY_SOURCE)
  {
    var filled := s.(source := SourceAccumulator(id, Buffer(text)));
    assert Close(filled, FLOAT_ARRAY) == FloatArrayClosed(filled);
  }

  /** `<source id="pos">` and its `<float_array>`: the six values are stored and the accessor takes the source's id. */
  lemma PosFloatsRead(s: State)
    requires s.source == EMPTY_SOURCE && "pos-array" !in s.mesh.sources
    ensures Run(s, POS_FLOATS)
            == s.(mesh := s.mesh.(sources := s.mesh.sources["pos-array" := [0.0, 0.0, 0.0, 1.0, 1.0, 1.0]]),
                  accessor := s.accessor.(id := "pos"))
  {
    var e := POS_FLOATS;
    RunFour(s, e[0], e[1], e[2], e[3]);
    ValueOfOneAttribute("id", "pos");
    var named := s.(accessor := s.accessor.(id := "pos"));
    assert Step(s, e[0]) == named;
    FloatArrayFilled(named, "pos-array", "0 0 0 1 1 1");
    SixFloats();
    FloatsClosed(named, "pos-array", "0 0 0 1 1 1", [0.0, 0.0, 0.0, 1.0, 1.0, 1.0]);
  }

  lemma PosAccessorValues()
    ensures Value(POS_ACCESSOR_ATTRIBUTES, "source") == "#pos-array"
    ensures Value(POS_ACCESSOR_ATTRIBUTES, "count") == "2" && Value(POS_ACCESSOR_ATTRIBUTES, "stride") == "3"
    ensures Value(POS_ACCESSOR_ATTRIBUTES, "offset") == ""
  {
  }

  /** `<accessor source="#pos-array" count="2" stride="3">` sets its source and reads both numbers. */
  lemma PosAccessorOpened(s: State)
    requires s.accessor.data == DEFAULT_ACCESSOR
    ensures Open(s, ACCESSOR, POS_ACCESSOR_ATTRIBUTES)
            == s.(accessor := s.accessor.(data := DEFAULT_ACCESSOR.(source := "#pos-array", count := 2, stride := 3)))
  {
    assert Open(s, ACCESSOR, POS_ACCESSOR_ATTRIBUTES) == AccessorOpened(s, POS_ACCESSOR_ATTRIBUTES);
    PosAccessorValues();
    SmallNumerals();
  }

  /** Three named `<param>`s fill slots a, b and c with 0, 1 and 2. */
  lemma XYZ(a: AccessorAccumulator)
    requires a.nParamsFound == 0 && a.currentIndex == 0
    ensures ParamStep(ParamStep(ParamStep(a, "X"), "Y"), "Z")
            == a.(nParamsFound := 3, currentIndex := 3, data := a.data.(aIndex := 0, bIndex := 1, cIndex := 2))
  {
  }

  /** The accessor and its three params, ready to be committed under "pos". */
  lemma PosAccessorRead(s: State)
    requires s.accessor == EMPTY_ACCESSOR.(id := "pos")
    ensures Run(s, POS_ACCESSOR) == s.(accessor := AccessorAccumulator("pos", 3, 3, CUBE_ACCESSOR))
  {
    var e := POS_ACCESSOR;
    RunFour(s, e[0], e[1], e[2], e[3]);
    PosAccessorOpened(s);
    var started := Open(s, ACCESSOR, POS_ACCESSOR_ATTRIBUTES);
    ValueOfOneAttribute("name", "X");
    ValueOfOneAttribute("name", "Y");
    ValueOfOneAttribute("name", "Z");
    var x := Step(started, e[1]);
    assert x == started.(accessor := ParamStep(started.accessor, "X"));
    var y := Step(x, e[2]);
    assert y == x.(accessor := ParamStep(x.accessor, "Y"));
    assert Step(y, e[3]) == y.(accessor := ParamStep(y.accessor, "Z"));
    XYZ(started.accessor);
  }

  /** `</source>` commits the accessor under the source's id. */
  lemma PosClosed(s: State)
    requires s.accessor == AccessorAccumulator("pos", 3, 3, CUBE_ACCESSOR) && "pos" !in s.mesh.accessors
    ensures Run(s, POS_CLOSE)
            == s.(mesh := s.mesh.(accessors := s.mesh.accessors["pos" := CUBE_ACCESSOR]), accessor := EMPTY_ACCESSOR)
  {
    RunOne(s, POS_CLOSE[0]);
    assert Step(s, POS_CLOSE[0]) == SourceClosed(s);
  }

  /** `<vertices id="verts">` and its POSITION `<input>` bind the vertices to "#pos". */
  lemma VertsRead(s: State)
    ensures Run(s, VERTS) == s.(mesh := s.mesh.(vertexLink := VertexLink("verts", "#pos")))
  {
    var e := VERTS;
    RunTwo(s, e[0], e[1]);
    ValueOfOneAttribute("id", "verts");
    var started := s.(mesh := s.mesh.(vertexLink := s.mesh.vertexLink.(id := "verts")));
    assert Step(s, e[0]) == started;
    assert Step(started, e[1]) == VerticesInputOpened(started, AttributesOf([Attribute("semantic", "POSITION"), Attribute("source", "#pos")]));
  }

  /** `<polylist>` without a material and its VERTEX `<input>` at offset 0. */
  lemma TriangleHeadRead(s: State)
    requires s.vertexIndex.data == DEFAULT_VERTEX_INDEX
    ensures Run(s, TRIANGLE_HEAD) == s.(vertexIndex := s.vertexIndex.(data := DEFAULT_VERTEX_INDEX.(position := Input("#verts", 0))))
  {
    var e := TRIANGLE_HEAD;
    RunTwo(s, e[0], e[1]);
    assert Value(OneAttribute("count", "1"), "material") == "";
    assert Step(s, e[0]) == s;
    TriangleInputValues();
    SmallNumerals();
    assert Step(s, e[1]) == PolylistInputOpened(s, TRIANGLE_INPUT_ATTRIBUTES);
  }

  lemma TriangleInputValues()
    ensures Value(TRIANGLE_INPUT_ATTRIBUTES, "semantic") == "VERTEX"
    ensures Value(TRIANGLE_INPUT_ATTRIBUTES, "source") == "#verts" && Value(TRIANGLE_INPUT_ATTRIBUTES, "offset") == "0"
  {
  }

  /** `<vcount>3</vcount>`: one triangle, so the polylist stays triangles-only. */
  lemma TriangleVCountRead(s: State)
    requires s.vertexIndex.trianglesOnly
    ensures Run(s, TRIANGLE_VCOUNT) == s.(vertexIndex := s.vertexIndex.(vCountBuffer := Failed))
  {
    var e := TRIANGLE_VCOUNT;
    RunThree(s, e[0], e[1], e[2]);
    VCountFilled(s);
    VCountRead(s.(vertexIndex := s.vertexIndex.(vCountBuffer := Buffer("3"))));
  }

  lemma VCountFilled(s: State)
    ensures Step(Step(s, TRIANGLE_VCOUNT[0]), TRIANGLE_VCOUNT[1]) == s.(vertexIndex := s.vertexIndex.(vCountBuffer := Buffer("3")))
  {
    assert Step(s, TRIANGLE_VCOUNT[0]) == VCountOpened(s);
    assert "" + "3" == "3";
  }

  lemma VCountRead(s: State)
    requires s.vertexIndex.trianglesOnly && s.vertexIndex.vCountBuffer == Buffer("3")
    ensures Step(s, TRIANGLE_VCOUNT[2]) == s.(vertexIndex := s.vertexIndex.(vCountBuffer := Failed))
  {
    VCountEnded(s);
    VCountThree(s);
  }

  lemma VCountEnded(s: State)
    ensures Step(s, TRIANGLE_VCOUNT[2]) == VCountClosed(s)
  {
    assert TRIANGLE_VCOUNT[2] == EndTag(VCOUNT);
  }

  lemma VCountThree(s: State)
    requires s.vertexIndex.trianglesOnly && s.vertexIndex.vCountBuffer == Buffer("3")
    ensures VCountClosed(s) == s.(vertexIndex := s.vertexIndex.(vCountBuffer := Failed))
  {
    OneTriangleCount(s.vertexIndex.vCountBuffer);
  }

  lemma OneTriangleCount(b: TextBuffer)
    requires b == Buffer("3")
    ensures AllTriangles(BufferedUInts(b))
  {
    TriangleNumerals();
    var counts := BufferedUInts(b);
    assert counts == [3];
    assert counts[0] == 3;
  }

  /** `<p>0 1 2</p>`: the three indices join the polylist. */
  lemma TrianglePRead(s: State)
    ensures Run(s, TRIANGLE_P)
            == s.(vertexIndex := s.vertexIndex.(data := s.vertexIndex.data.(indices := s.vertexIndex.data.indices + [0, 1, 2]), pBuffer := Failed))
  {
    var e := TRIANGLE_P;
    RunThree(s, e[0], e[1], e[2]);
    PFilled(s);
    PIndicesRead(s.(vertexIndex := s.vertexIndex.(pBuffer := Buffer("0 1 2"))));
  }

  lemma PFilled(s: State)
    ensures Step(Step(s, TRIANGLE_P[0]), TRIANGLE_P[1]) == s.(vertexIndex := s.vertexIndex.(pBuffer := Buffer("0 1 2")))
  {
    assert Step(s, TRIANGLE_P[0]) == POpened(s);
    assert "" + "0 1 2" == "0 1 2";
  }

  lemma PIndicesRead(s: State)
    requires s.vertexIndex.pBuffer == Buffer("0 1 2")
    ensures Step(s, TRIANGLE_P[2])
            == s.(vertexIndex := s.vertexIndex.(data := s.vertexIndex.data.(indices := s.vertexIndex.data.indices + [0, 1, 2]), pBuffer := Failed))
  {
    PEnded(s);
    TriangleNumerals();
    assert BufferedUInts(s.vertexIndex.pBuffer) == [0, 1, 2];
  }

  lemma PEnded(s: State)
    ensures Step(s, TRIANGLE_P[2]) == PClosed(s)
  {
    assert TRIANGLE_P[2] == EndTag(P);
  }

  /** `</polylist>` keeps the triangle; `</geometry>` stores the mesh under its id. */
  lemma CubeClosed(s: State)
    requires s.mesh.id == "cube" && |s.vertexIndex.data.indices| > 0 && s.vertexIndex.trianglesOnly
    requires s.vertexIndex.data.position.accessor == "#verts" && s.meshes == map[]
    ensures Run(s, CUBE_CLOSE).meshes == map["cube" := MeshOf(s.mesh.(parts := s.mesh.parts + [s.vertexIndex.data]))]
  {
    RunTwo(s, CUBE_CLOSE[0], CUBE_CLOSE[1]);
    var kept := PolylistClosed(s);
    assert Step(s, CUBE_CLOSE[0]) == kept;
    assert Step(kept, CUBE_CLOSE[1]) == GeometryClosed(kept);
  }

  /** The state once `</source>` has committed the float array and the accessor. */
  const CUBE_SOURCE_READ: State := INITIAL.(mesh := EMPTY_MESH.(
    id := "cube",
    sources := map["pos-array" := [0.0, 0.0, 0.0, 1.0, 1.0, 1.0]],
    accessors := map["pos" := CUBE_ACCESSOR]))

  lemma CubeSourceRead()
    ensures Run(INITIAL, CUBE_SOURCE_EVENTS) == CUBE_SOURCE_READ
  {
    var s1 := INITIAL.(mesh := EMPTY_MESH.(id := "cube"));
    CubeOpened();
    var s2 := s1.(mesh := s1.mesh.(sources := map["pos-array" := [0.0, 0.0, 0.0, 1.0, 1.0, 1.0]]), accessor := EMPTY_ACCESSOR.(id := "pos"));
    PosFloatsRead(s1);
    RunAppend(INITIAL, CUBE_OPEN, POS_FLOATS);
    var s3 := s2.(accessor := AccessorAccumulator("pos", 3, 3, CUBE_ACCESSOR));
    PosAccessorRead(s2);
    RunAppend(INITIAL, CUBE_OPEN + POS_FLOATS, POS_ACCESSOR);
    PosClosed(s3);
    RunAppend(INITIAL, CUBE_OPEN + POS_FLOATS + POS_ACCESSOR, POS_CLOSE);
  }

  /** The state just before `</polylist>`: the vertices are bound and the triangle is read. */
  const CUBE_TRIANGLE_READ: State := CUBE_SOURCE_READ.(
    mesh := CUBE_SOURCE_READ.mesh.(vertexLink := VertexLink("verts", "#pos")),
    vertexIndex := VertexIndexAccumulator(true, CUBE_TRIANGLE, Failed, Failed))

  lemma CubeTriangleRead()
    ensures Run(CUBE_SOURCE_READ, CUBE_TRIANGLE_EVENTS) == CUBE_TRIANGLE_READ
  {
    var s5 := CUBE_SOURCE_READ.(mesh := CUBE_SOURCE_READ.mesh.(vertexLink := VertexLink("verts", "#pos")));
    VertsRead(CUBE_SOURCE_READ);
    var s6 := s5.(vertexIndex := s5.vertexIndex.(data := DEFAULT_VERTEX_INDEX.(position := Input("#verts", 0))));
    TriangleHeadRead(s5);
    RunAppend(CUBE_SOURCE_READ, VERTS, TRIANGLE_HEAD);
    var s7 := s6.(vertexIndex := s6.vertexIndex.(vCountBuffer := Failed));
    TriangleVCountRead(s6);
    RunAppend(CUBE_SOURCE_READ, VERTS + TRIANGLE_HEAD, TRIANGLE_VCOUNT);
    TrianglePRead(s7);
    RunAppend(CUBE_SOURCE_READ, VERTS + TRIANGLE_HEAD + TRIANGLE_VCOUNT, TRIANGLE_P);
  }

  /**
    The whole document yields exactly one mesh, "cube": the six floats under
    "pos-array", one accessor under "pos" with slots 0, 1 and 2, the vertices
    bound to "#pos", and one triangle of three indices.
   */
  lemma Cube()
    ensures Run(INITIAL, CUBE_EVENTS).meshes == map["cube" := CUBE_MESH]
    ensures var m := Run(INITIAL, CUBE_EVENTS).meshes["cube"];
            && |m.sources["pos-array"]| == 6
            && m.accessors["pos"].aIndex == 0 && m.accessors["pos"].bIndex == 1 && m.accessors["pos"].cIndex == 2
            && |m.parts| == 1 && |m.parts[0].indices| == 3
  {
    CubeSourceRead();
    CubeTriangleRead();
    RunAppend(INITIAL, CUBE_SOURCE_EVENTS, CUBE_TRIANGLE_EVENTS);
    RunAppend(INITIAL, CUBE_SOURCE_EVENTS + CUBE_TRIANGLE_EVENTS, CUBE_CLOSE);
    CubeStored();
  }

  /** The two end tags store the finished cube and nothing else. */
  lemma CubeStored()
    ensures Run(CUBE_TRIANGLE_READ, CUBE_CLOSE).meshes == map["cube" := CUBE_MESH]
  {
    var s := CUBE_TRIANGLE_READ;
    CubeClosed(s);
    assert s.mesh.parts + [s.vertexIndex.data] == [CUBE_TRIANGLE];
    assert MeshOf(s.mesh.(parts := [CUBE_TRIANGLE])) == CUBE_MESH;
  }
}
