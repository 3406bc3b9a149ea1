/**
  The streaming geometry accumulator of src/james/collada/lib-geometries-builder.cpp,
  as functions on its state. The builder registers one listener per path of
  `<library_geometries>`; each open, text or close event at such a path
  updates four scratch records (the current mesh, float source, accessor and
  polylist) and, at a close event, commits a record to its owner when an
  acceptance rule holds and then resets the scratch record.

  The class `GeometriesBuilder.LibGeometriesBuilder` performs the same updates
  in place and is proved against these functions.
 */
module LibGeometries {
  import opened Wrappers
  import opened Scan
  import opened Dom
  import opened ExpatFacade

  // The paths the builder listens at, exactly as it registers them.
  const GEOMETRY: string := "/COLLADA/library_geometries/geometry"
  const FLOAT_ARRAY: string := "/COLLADA/library_geometries/geometry/mesh/source/float_array"
  const SOURCE: string := "/COLLADA/library_geometries/geometry/mesh/source"
  const ACCESSOR: string := "/COLLADA/library_geometries/geometry/mesh/source/technique_common/accessor"
  const PARAM: string := "/COLLADA/library_geometries/geometry/mesh/source/technique_common/accessor/param"
  const VERTICES: string := "/COLLADA/library_geometries/geometry/mesh/vertices"
  const VERTICES_INPUT: string := "/COLLADA/library_geometries/geometry/mesh/vertices/input"
  const POLYLIST: string := "/COLLADA/library_geometries/geometry/mesh/polylist"
  const POLYLIST_INPUT: string := "/COLLADA/library_geometries/geometry/mesh/polylist/input"
  const VCOUNT: string := "/COLLADA/library_geometries/geometry/mesh/polylist/vcount"
  const P: string := "/COLLADA/library_geometries/geometry/mesh/polylist/p"

  /** `currentMesh_`: the parts of the `<geometry>` being read. */
  datatype MeshAccumulator = MeshAccumulator(
    id: string,
    sources: map<string, FloatSource>,
    accessors: map<string, Accessor>,
    vertexLink: VertexLink,
    parts: seq<VertexIndex>)

  /** `currentSource_`: the id of the `<float_array>` being read and the text it has received. */
  datatype SourceAccumulator = SourceAccumulator(id: string, buffer: TextBuffer)

  /**
    `currentAccessor_`: the id of the enclosing `<source>`, the number of named
    `<param>`s seen, the number of all `<param>`s seen, and the accessor itself.
   */
  datatype AccessorAccumulator = AccessorAccumulator(id: string, nParamsFound: nat, currentIndex: nat, data: Accessor)

  /** `currentVertexIndex_`: the `<polylist>` being read and the text buffers of its `<vcount>` and `<p>`. */
  datatype VertexIndexAccumulator = VertexIndexAccumulator(
    trianglesOnly: bool,
    data: VertexIndex,
    vCountBuffer: TextBuffer,
    pBuffer: TextBuffer)

  /** All the builder's fields: the four accumulators and the finished meshes by id. */
  datatype State = State(
    mesh: MeshAccumulator,
    source: SourceAccumulator,
    accessor: AccessorAccumulator,
    vertexIndex: VertexIndexAccumulator,
    meshes: map<string, Mesh>)

  const EMPTY_MESH: MeshAccumulator := MeshAccumulator("", map[], map[], DEFAULT_VERTEX_LINK, [])
  const EMPTY_SOURCE: SourceAccumulator := SourceAccumulator("", EMPTY_BUFFER)
  const EMPTY_ACCESSOR: AccessorAccumulator := AccessorAccumulator("", 0, 0, DEFAULT_ACCESSOR)

  /** `ResetMeshAccumulator`. */
  function ResetMesh(s: State): State {
    s.(mesh := EMPTY_MESH)
  }

  /** `ResetSourceAccumulator`: the id is cleared and the buffer replaced by a new stream. */
  function ResetSource(s: State): State {
    s.(source := EMPTY_SOURCE)
  }

  /** `ResetAccessorAccumulator`. */
  function ResetAccessor(s: State): State {
    s.(accessor := EMPTY_ACCESSOR)
  }

  /** `ResetVertexIndexAccumulator`: the polylist and its flag only; the two text buffers are kept. */
  function ResetVertexIndex(s: State): State {
    s.(vertexIndex := s.vertexIndex.(data := DEFAULT_VERTEX_INDEX, trianglesOnly := true))
  }

  /** `ResetAccumulators`: the four resets in turn. */
  function ResetAccumulators(s: State): State {
    ResetVertexIndex(ResetAccessor(ResetSource(ResetMesh(s))))
  }

  /** Every accumulator is as `ResetAccumulators` leaves it. */
  predicate Fresh(s: State) {
    && s.mesh == EMPTY_MESH
    && s.source == EMPTY_SOURCE
    && s.accessor == EMPTY_ACCESSOR
    && s.vertexIndex.trianglesOnly
    && s.vertexIndex.data == DEFAULT_VERTEX_INDEX
  }

  /**
    The state after construction: two new `<vcount>` and `<p>` streams, no
    meshes, and every accumulator reset.
   */
  const INITIAL: State := State(
    EMPTY_MESH, EMPTY_SOURCE, EMPTY_ACCESSOR,
    VertexIndexAccumulator(true, DEFAULT_VERTEX_INDEX, EMPTY_BUFFER, EMPTY_BUFFER),
    map[])

  /** The mesh that `<geometry>`'s close commits, built from the accumulator's four parts. */
  function MeshOf(m: MeshAccumulator): Mesh {
    Mesh(m.sources, m.accessors, m.vertexLink, m.parts)
  }

  // Listener 1: <geometry>.

  /** The id attribute becomes the mesh id; an absent one reads as "". */
  function GeometryOpened(s: State, attrs: AttrArray): State {
    s.(mesh := s.mesh.(id := Value(attrs, "id")))
  }

  /** The rule for committing a mesh: it has an id and at least one part. */
  predicate MeshAccepted(m: MeshAccumulator) {
    |m.id| > 0 && |m.parts| > 0
  }

  /**
    The mesh is inserted under its id when it is accepted; an id that is
    already stored keeps its first mesh. Every accumulator is reset whatever
    the outcome.
   */
  function GeometryClosed(s: State): (r: State)
    ensures r.meshes.Keys == s.meshes.Keys + (if MeshAccepted(s.mesh) then {s.mesh.id} else {})
    ensures forall k :: k in s.meshes ==> r.meshes[k] == s.meshes[k]
    ensures MeshAccepted(s.mesh) && s.mesh.id !in s.meshes ==> r.meshes[s.mesh.id] == MeshOf(s.mesh)
    ensures Fresh(r)
    ensures r.vertexIndex.vCountBuffer == s.vertexIndex.vCountBuffer && r.vertexIndex.pBuffer == s.vertexIndex.pBuffer
  {
    var meshes := if MeshAccepted(s.mesh) then MapInsert(s.meshes, s.mesh.id, MeshOf(s.mesh)) else s.meshes;
    ResetAccumulators(s.(meshes := meshes))
  }

  // Listener 2: <float_array>.

  /** The id attribute becomes the source id; the buffer is left as it is. */
  function FloatArrayOpened(s: State, attrs: AttrArray): State {
    s.(source := s.source.(id := Value(attrs, "id")))
  }

  /** Each chunk of text is written to the end of the buffer. */
  function FloatArrayText(s: State, chunk: string): State {
    s.(source := s.source.(buffer := Append(s.source.buffer, chunk)))
  }

  /**
    The buffered text is read as floats up to the first token that is not
    one; the values are inserted under the source id when the id is
    non-empty and at least one value was read, and never over an existing
    entry. The source accumulator is reset in every case.
   */
  function FloatArrayClosed(s: State): (r: State)
    ensures var values := BufferedFloats(s.source.buffer);
            r.mesh.sources.Keys == s.mesh.sources.Keys + (if |s.source.id| > 0 && |values| > 0 then {s.source.id} else {})
    ensures forall k :: k in s.mesh.sources ==> r.mesh.sources[k] == s.mesh.sources[k]
    ensures s.source.id in r.mesh.sources && s.source.id !in s.mesh.sources ==>
              r.mesh.sources[s.source.id] == BufferedFloats(s.source.buffer)
    ensures r.source == EMPTY_SOURCE
    ensures r == s.(mesh := s.mesh.(sources := r.mesh.sources), source := EMPTY_SOURCE)
  {
    var values := BufferedFloats(s.source.buffer);
    var sources := if |s.source.id| > 0 && |values| > 0 then MapInsert(s.mesh.sources, s.source.id, values) else s.mesh.sources;
    ResetSource(s.(mesh := s.mesh.(sources := sources)))
  }

  // Listeners 3, 4 and 5: <source>, <accessor> and <param>.

  /** The id attribute becomes the accessor's id. */
  function SourceOpened(s: State, attrs: AttrArray): State {
    s.(accessor := s.accessor.(id := Value(attrs, "id")))
  }

  /**
    The accessor is inserted under the source id when the id is non-empty
    and at least one named `<param>` was seen, never over an existing entry;
    the accessor accumulator is reset in every case.
   */
  function SourceClosed(s: State): (r: State)
    ensures r.mesh.accessors.Keys == s.mesh.accessors.Keys +
              (if |s.accessor.id| > 0 && s.accessor.nParamsFound > 0 then {s.accessor.id} else {})
    ensures forall k :: k in s.mesh.accessors ==> r.mesh.accessors[k] == s.mesh.accessors[k]
    ensures s.accessor.id in r.mesh.accessors && s.accessor.id !in s.mesh.accessors ==>
              r.mesh.accessors[s.accessor.id] == s.accessor.data
    ensures r.accessor == EMPTY_ACCESSOR
    ensures r == s.(mesh := s.mesh.(accessors := r.mesh.accessors), accessor := EMPTY_ACCESSOR)
  {
    var accessors := if |s.accessor.id| > 0 && s.accessor.nParamsFound > 0
                     then MapInsert(s.mesh.accessors, s.accessor.id, s.accessor.data)
                     else s.mesh.accessors;
    ResetAccessor(s.(mesh := s.mesh.(accessors := accessors)))
  }

  /**
    The accessor's source is set from its attribute, and count, stride and
    offset are read with `strtoul`; an absent attribute reads as "" and so
    sets "" or 0.
   */
  function AccessorOpened(s: State, attrs: AttrArray): State {
    var data := s.accessor.data.(
      source := Value(attrs, "source"),
      count := StrToUL(Value(attrs, "count")),
      stride := StrToUL(Value(attrs, "stride")),
      offset := StrToUL(Value(attrs, "offset")));
    s.(accessor := s.accessor.(data := data))
  }

  /**
    One `<param>` with the given name. A param counts when its name is
    non-empty (its `type`, read as "" when absent, is never a reason to skip
    it). The first three that count record the running index in slots a, b
    and c; every param advances the running index.
   */
  function ParamStep(a: AccessorAccumulator, name: string): (r: AccessorAccumulator)
    ensures r.currentIndex == a.currentIndex + 1 && r.id == a.id
    ensures r.nParamsFound == a.nParamsFound + (if |name| > 0 then 1 else 0)
    ensures |name| == 0 || a.nParamsFound >= 3 ==> r.data == a.data
    ensures r.data.count == a.data.count && r.data.stride == a.data.stride
            && r.data.offset == a.data.offset && r.data.source == a.data.source
  {
    if |name| > 0 then
      var data :=
        if a.nParamsFound == 0 then a.data.(aIndex := a.currentIndex)
        else if a.nParamsFound == 1 then a.data.(bIndex := a.currentIndex)
        else if a.nParamsFound == 2 then a.data.(cIndex := a.currentIndex)
        else a.data;
      a.(data := data, nParamsFound := a.nParamsFound + 1, currentIndex := a.currentIndex + 1)
    else
      a.(currentIndex := a.currentIndex + 1)
  }

  function ParamOpened(s: State, attrs: AttrArray): State {
    s.(accessor := ParamStep(s.accessor, Value(attrs, "name")))
  }

  // Listeners 6 and 7: <vertices> and its <input>.

  function VerticesOpened(s: State, attrs: AttrArray): State {
    s.(mesh := s.mesh.(vertexLink := s.mesh.vertexLink.(id := Value(attrs, "id"))))
  }

  /** Only the POSITION semantic, compared exactly, binds the vertices to an accessor. */
  function VerticesInputOpened(s: State, attrs: AttrArray): (r: State)
    ensures Value(attrs, "semantic") != "POSITION" ==> r == s
    ensures Value(attrs, "semantic") == "POSITION" ==> r.mesh.vertexLink.accessor == Value(attrs, "source")
    ensures r.mesh.vertexLink.id == s.mesh.vertexLink.id
    ensures r == s.(mesh := s.mesh.(vertexLink := r.mesh.vertexLink))
  {
    if Value(attrs, "semantic") == "POSITION" then
      s.(mesh := s.mesh.(vertexLink := s.mesh.vertexLink.(accessor := Value(attrs, "source"))))
    else s
  }

  // Listeners 8 to 11: <polylist>, its <input>, <vcount> and <p>.

  function PolylistOpened(s: State, attrs: AttrArray): State {
    s.(vertexIndex := s.vertexIndex.(data := s.vertexIndex.data.(material := Value(attrs, "material"))))
  }

  /** The rule for keeping a polylist: triangles only, some indices, and a position accessor. */
  predicate PartAccepted(v: VertexIndexAccumulator) {
    v.trianglesOnly && |v.data.indices| > 0 && |v.data.position.accessor| != 0
  }

  /** An accepted polylist joins the end of the mesh's parts; the polylist accumulator is then reset. */
  function PolylistClosed(s: State): (r: State)
    ensures r.mesh.parts == s.mesh.parts + (if PartAccepted(s.vertexIndex) then [s.vertexIndex.data] else [])
    ensures r.vertexIndex.trianglesOnly && r.vertexIndex.data == DEFAULT_VERTEX_INDEX
    ensures r.vertexIndex.vCountBuffer == s.vertexIndex.vCountBuffer && r.vertexIndex.pBuffer == s.vertexIndex.pBuffer
    ensures r.mesh == s.mesh.(parts := r.mesh.parts)
    ensures r.source == s.source && r.accessor == s.accessor && r.meshes == s.meshes
  {
    var parts := if PartAccepted(s.vertexIndex) then s.mesh.parts + [s.vertexIndex.data] else s.mesh.parts;
    ResetVertexIndex(s.(mesh := s.mesh.(parts := parts)))
  }

  /** `<input>` of a polylist: the semantic selects the slot; its offset is read with `strtoul`. */
  function PolylistInputOpened(s: State, attrs: AttrArray): (r: State)
    ensures var semantic := Value(attrs, "semantic");
            semantic != "VERTEX" && semantic != "NORMAL" && semantic != "TEXCOORD" ==> r == s
    ensures var semantic := Value(attrs, "semantic");
            var input := Input(Value(attrs, "source"), StrToUL(Value(attrs, "offset")));
            var d := s.vertexIndex.data;
            && (semantic == "VERTEX" ==> r.vertexIndex.data == d.(position := input))
            && (semantic == "NORMAL" ==> r.vertexIndex.data == d.(normals := input))
            && (semantic == "TEXCOORD" ==> r.vertexIndex.data == d.(texCoords := input))
    ensures r == s.(vertexIndex := s.vertexIndex.(data := r.vertexIndex.data))
    ensures r.vertexIndex.data.indices == s.vertexIndex.data.indices
    ensures r.vertexIndex.data.material == s.vertexIndex.data.material
  {
    var semantic := Value(attrs, "semantic");
    var input := Input(Value(attrs, "source"), StrToUL(Value(attrs, "offset")));
    var data := s.vertexIndex.data;
    if semantic == "VERTEX" then s.(vertexIndex := s.vertexIndex.(data := data.(position := input)))
    else if semantic == "NORMAL" then s.(vertexIndex := s.vertexIndex.(data := data.(normals := input)))
    else if semantic == "TEXCOORD" then s.(vertexIndex := s.vertexIndex.(data := data.(texCoords := input)))
    else s
  }

  /** A new `<vcount>` starts a new stream. */
  function VCountOpened(s: State): State {
    s.(vertexIndex := s.vertexIndex.(vCountBuffer := EMPTY_BUFFER))
  }

  function VCountText(s: State, chunk: string): State {
    s.(vertexIndex := s.vertexIndex.(vCountBuffer := Append(s.vertexIndex.vCountBuffer, chunk)))
  }

  /** Every polygon counted has three vertices. */
  predicate AllTriangles(counts: seq<nat>) {
    forall i :: 0 <= i < |counts| ==> counts[i] == 3
  }

  /**
    The buffered counts are read as unsigned ints up to the first token that
    is not one; any count other than 3 clears `trianglesOnly`, and nothing
    sets it. The stream is left failed.
   */
  function VCountClosed(s: State): (r: State)
    ensures var counts := BufferedUInts(s.vertexIndex.vCountBuffer);
            (exists i :: 0 <= i < |counts| && counts[i] != 3) ==> !r.vertexIndex.trianglesOnly
    ensures r.vertexIndex.trianglesOnly ==> s.vertexIndex.trianglesOnly
    ensures var counts := BufferedUInts(s.vertexIndex.vCountBuffer);
            s.vertexIndex.trianglesOnly && (forall i :: 0 <= i < |counts| ==> counts[i] == 3) ==> r.vertexIndex.trianglesOnly
    ensures r.vertexIndex.data == s.vertexIndex.data && r.vertexIndex.pBuffer == s.vertexIndex.pBuffer
    ensures r.vertexIndex.vCountBuffer == Failed
    ensures r.mesh == s.mesh && r.source == s.source && r.accessor == s.accessor && r.meshes == s.meshes
  {
    var v := s.vertexIndex;
    var triangles := v.trianglesOnly && AllTriangles(BufferedUInts(v.vCountBuffer));
    s.(vertexIndex := v.(trianglesOnly := triangles, vCountBuffer := Failed))
  }

  /** A new `<p>` starts a new stream. */
  function POpened(s: State): State {
    s.(vertexIndex := s.vertexIndex.(pBuffer := EMPTY_BUFFER))
  }

  function PText(s: State, chunk: string): State {
    s.(vertexIndex := s.vertexIndex.(pBuffer := Append(s.vertexIndex.pBuffer, chunk)))
  }

  /**
    The buffered indices are read up to the first token that is not one and
    appended to the polylist's indices, so several `<p>` elements accumulate.
    The stream is left failed.
   */
  function PClosed(s: State): (r: State)
    ensures var read := BufferedUInts(s.vertexIndex.pBuffer);
            |r.vertexIndex.data.indices| == |s.vertexIndex.data.indices| + |read|
            && r.vertexIndex.data.indices[..|s.vertexIndex.data.indices|] == s.vertexIndex.data.indices
            && r.vertexIndex.data.indices[|s.vertexIndex.data.indices|..] == read
    ensures r.vertexIndex.pBuffer == Failed
    ensures r.vertexIndex.trianglesOnly == s.vertexIndex.trianglesOnly
    ensures r.mesh == s.mesh && r.source == s.source && r.accessor == s.accessor && r.meshes == s.meshes
  {
    var v := s.vertexIndex;
    var indices := v.data.indices + BufferedUInts(v.pBuffer);
    s.(vertexIndex := v.(data := v.data.(indices := indices), pBuffer := Failed))
  }

  // The registrations: which listener each event reaches.

  /** The paths the builder registers listeners at. */
  predicate Registered(path: string) {
    path in {GEOMETRY, FLOAT_ARRAY, SOURCE, ACCESSOR, PARAM, VERTICES, VERTICES_INPUT, POLYLIST, POLYLIST_INPUT, VCOUNT, P}
  }

  /** The three paths whose listeners buffer text. */
  predicate TakesText(path: string) {
    path == FLOAT_ARRAY || path == VCOUNT || path == P
  }

  /** A start tag at `path`; a path nobody listens at changes nothing. */
  function Open(s: State, path: string, attrs: AttrArray): (r: State)
    ensures !Registered(path) ==> r == s
    ensures r.meshes == s.meshes
  {
    if path == GEOMETRY then GeometryOpened(s, attrs)
    else if path == FLOAT_ARRAY then FloatArrayOpened(s, attrs)
    else if path == SOURCE then SourceOpened(s, attrs)
    else if path == ACCESSOR then AccessorOpened(s, attrs)
    else if path == PARAM then ParamOpened(s, attrs)
    else if path == VERTICES then VerticesOpened(s, attrs)
    else if path == VERTICES_INPUT then VerticesInputOpened(s, attrs)
    else if path == POLYLIST then PolylistOpened(s, attrs)
    else if path == POLYLIST_INPUT then PolylistInputOpened(s, attrs)
    else if path == VCOUNT then VCountOpened(s)
    else if path == P then POpened(s)
    else s
  }

  /** Character data inside the element at `path`; only three paths take text. */
  function Text(s: State, path: string, chunk: string): (r: State)
    ensures !TakesText(path) ==> r == s
    ensures r.meshes == s.meshes && r.mesh == s.mesh && r.accessor == s.accessor
  {
    if path == FLOAT_ARRAY then FloatArrayText(s, chunk)
    else if path == VCOUNT then VCountText(s, chunk)
    else if path == P then PText(s, chunk)
    else s
  }

  /** An end tag at `path`. */
  function Close(s: State, path: string): (r: State)
    ensures !Registered(path) ==> r == s
    ensures path != GEOMETRY ==> r.meshes == s.meshes
  {
    if path == GEOMETRY then GeometryClosed(s)
    else if path == FLOAT_ARRAY then FloatArrayClosed(s)
    else if path == SOURCE then SourceClosed(s)
    else if path == POLYLIST then PolylistClosed(s)
    else if path == VCOUNT then VCountClosed(s)
    else if path == P then PClosed(s)
    else s
  }

  /** One parser event, as delivered to the listener registered at its path. */
  datatype Event =
    | StartTag(path: string, attrs: AttrArray)
    | CharData(path: string, chunk: string)
    | EndTag(path: string)

  function Step(s: State, e: Event): (r: State)
    ensures !Registered(e.path) ==> r == s
  {
    match e
    case StartTag(path, attrs) => Open(s, path, attrs)
    case CharData(path, chunk) => Text(s, path, chunk)
    case EndTag(path) => Close(s, path)
  }

  /** The events in order, first one first. */
  function Run(s: State, events: seq<Event>): (r: State)
    ensures (forall i :: 0 <= i < |events| ==> !Registered(events[i].path)) ==> r == s
    decreases |events|
  {
    if events == [] then s else Run(Step(s, events[0]), events[1..])
  }
}
