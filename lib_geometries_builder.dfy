/**
  `LibGeometriesBuilder` (src/james/collada/lib-geometries-builder.cpp and
  .hpp): the builder's fields, updated in place by one method per listener.
  Every method is proved to leave the fields as the function of the same
  name in `LibGeometries` describes. The `ExpatFacade` the constructor
  registers with is not modelled; `Open`, `Text` and `Close` stand for the
  facade delivering an event to the listener registered at its path.
 */
module GeometriesBuilder {
  import opened Wrappers
  import opened Scan
  import opened Dom
  import opened ExpatFacade
  import opened LibGeometries

  class LibGeometriesBuilder {
    var currentMesh: MeshAccumulator
    var currentSource: SourceAccumulator
    var currentAccessor: AccessorAccumulator
    var currentVertexIndex: VertexIndexAccumulator
    var meshes: map<string, Mesh>

    /** The fields as one value. */
    function Model(): State
      reads this
    {
      State(currentMesh, currentSource, currentAccessor, currentVertexIndex, meshes)
    }

    /** `Meshes()`: every mesh committed so far, by id. */
    function Meshes(): (m: map<string, Mesh>)
      reads this
      ensures m == Model().meshes
    {
      meshes
    }

    /**
      The fields start default-constructed (new streams, an empty map) and
      are then reset; `trianglesOnly` has no value until the reset sets it.
     */
    constructor ()
      ensures Model() == INITIAL
    {
      currentMesh := EMPTY_MESH;
      currentSource := EMPTY_SOURCE;
      currentAccessor := EMPTY_ACCESSOR;
      currentVertexIndex := VertexIndexAccumulator(false, DEFAULT_VERTEX_INDEX, EMPTY_BUFFER, EMPTY_BUFFER);
      meshes := map[];
      new;
      ResetAccumulators();
    }

    method ResetAccumulators()
      modifies this
      ensures Model() == LibGeometries.ResetAccumulators(old(Model()))
    {
      ResetMeshAccumulator();
      ResetSourceAccumulator();
      ResetAccessorAccumulator();
      ResetVertexIndexAccumulator();
    }

    method ResetMeshAccumulator()
      modifies this
      ensures Model() == ResetMesh(old(Model()))
    {
      currentMesh := currentMesh.(id := "", sources := map[], accessors := map[], parts := []);
      currentMesh := currentMesh.(vertexLink := DEFAULT_VERTEX_LINK);
    }

    method ResetSourceAccumulator()
      modifies this
      ensures Model() == ResetSource(old(Model()))
    {
      currentSource := currentSource.(id := "");
      currentSource := currentSource.(buffer := EMPTY_BUFFER);
    }

    method ResetAccessorAccumulator()
      modifies this
      ensures Model() == ResetAccessor(old(Model()))
    {
      currentAccessor := currentAccessor.(id := "", nParamsFound := 0, currentIndex := 0);
      currentAccessor := currentAccessor.(data := DEFAULT_ACCESSOR);
    }

    method ResetVertexIndexAccumulator()
      modifies this
      ensures Model() == ResetVertexIndex(old(Model()))
    {
      currentVertexIndex := currentVertexIndex.(data := DEFAULT_VERTEX_INDEX);
      currentVertexIndex := currentVertexIndex.(trianglesOnly := true);
    }

    method GeometryOpened(attrs: AttrArray)
      modifies this
      ensures Model() == LibGeometries.GeometryOpened(old(Model()), attrs)
    {
      var tmpId := Lookup(attrs, "id");
      currentMesh := currentMesh.(id := tmpId);
    }

    method GeometryClosed()
      modifies this
      ensures Model() == LibGeometries.GeometryClosed(old(Model()))
    {
      if |currentMesh.id| > 0 && |currentMesh.parts| > 0 {
        var mesh := Mesh(currentMesh.sources, currentMesh.accessors, currentMesh.vertexLink, currentMesh.parts);
        meshes := MapInsert(meshes, currentMesh.id, mesh);
      }
      ResetAccumulators();
    }

    method FloatArrayOpened(attrs: AttrArray)
      modifies this
      ensures Model() == LibGeometries.FloatArrayOpened(old(Model()), attrs)
    {
      var tmpId := Lookup(attrs, "id");
      currentSource := currentSource.(id := tmpId);
    }

    method FloatArrayText(chunk: string)
      modifies this
      ensures Model() == LibGeometries.FloatArrayText(old(Model()), chunk)
    {
      currentSource := currentSource.(buffer := Append(currentSource.buffer, chunk));
    }

    method FloatArrayClosed()
      modifies this
      ensures Model() == LibGeometries.FloatArrayClosed(old(Model()))
    {
      if |currentSource.id| > 0 {
        var src := ReadFloats();
        if |src| > 0 {
          currentMesh := currentMesh.(sources := MapInsert(currentMesh.sources, currentSource.id, src));
        }
      }
      ResetSourceAccumulator();
    }

    /**
      The loop of `<float_array>`'s close listener, `while (buffer >> f)`:
      every float the buffer holds, in order; the buffer is left failed.
     */
    method ReadFloats() returns (src: FloatSource)
      modifies this
      ensures src == BufferedFloats(old(currentSource.buffer))
      ensures Model() == old(Model()).(source := old(currentSource).(buffer := Failed))
    {
      src := [];
      while true
        invariant src + BufferedFloats(currentSource.buffer) == BufferedFloats(old(currentSource.buffer))
        invariant Model() == old(Model()).(source := old(currentSource).(buffer := currentSource.buffer))
        decreases Remaining(currentSource.buffer)
      {
        ExtractFloatStep(currentSource.buffer);
        var (f, rest) := ExtractFloat(currentSource.buffer);
        currentSource := currentSource.(buffer := rest);
        if f.None? {
          break;
        }
        AppendShift(src, f.value, BufferedFloats(rest));
        src := src + [f.value];
      }
    }

    method SourceOpened(attrs: AttrArray)
      modifies this
      ensures Model() == LibGeometries.SourceOpened(old(Model()), attrs)
    {
      var tmpId := Lookup(attrs, "id");
      currentAccessor := currentAccessor.(id := tmpId);
    }

    method SourceClosed()
      modifies this
      ensures Model() == LibGeometries.SourceClosed(old(Model()))
    {
      if |currentAccessor.id| > 0 && currentAccessor.nParamsFound > 0 {
        currentMesh := currentMesh.(accessors := MapInsert(currentMesh.accessors, currentAccessor.id, currentAccessor.data));
      }
      ResetAccessorAccumulator();
    }

    method AccessorOpened(attrs: AttrArray)
      modifies this
      ensures Model() == LibGeometries.AccessorOpened(old(Model()), attrs)
    {
      var source := Lookup(attrs, "source");
      var count := Lookup(attrs, "count");
      var stride := Lookup(attrs, "stride");
      var offset := Lookup(attrs, "offset");
      currentAccessor := currentAccessor.(data := currentAccessor.data.(source := source));
      currentAccessor := currentAccessor.(data := currentAccessor.data.(count := StrToUL(count)));
      currentAccessor := currentAccessor.(data := currentAccessor.data.(stride := StrToUL(stride)));
      currentAccessor := currentAccessor.(data := currentAccessor.data.(offset := StrToUL(offset)));
    }

    method ParamOpened(attrs: AttrArray)
      modifies this
      ensures Model() == LibGeometries.ParamOpened(old(Model()), attrs)
    {
      var name := Lookup(attrs, "name");
      // The type is looked up as in lib-geometries-builder.cpp:135, but its only
      // use there is a null test, which `operator[]` never fails.
      var tmpType := Lookup(attrs, "type");
      if |name| > 0 {
        var a := currentAccessor;
        if a.nParamsFound == 0 {
          currentAccessor := a.(data := a.data.(aIndex := a.currentIndex));
        } else if a.nParamsFound == 1 {
          currentAccessor := a.(data := a.data.(bIndex := a.currentIndex));
        } else if a.nParamsFound == 2 {
          currentAccessor := a.(data := a.data.(cIndex := a.currentIndex));
        }
        currentAccessor := currentAccessor.(nParamsFound := currentAccessor.nParamsFound + 1);
      }
      currentAccessor := currentAccessor.(currentIndex := currentAccessor.currentIndex + 1);
      assert currentAccessor == ParamStep(old(currentAccessor), name);
    }

    method VerticesOpened(attrs: AttrArray)
      modifies this
      ensures Model() == LibGeometries.VerticesOpened(old(Model()), attrs)
    {
      var id := Lookup(attrs, "id");
      currentMesh := currentMesh.(vertexLink := currentMesh.vertexLink.(id := id));
    }

    method VerticesInputOpened(attrs: AttrArray)
      modifies this
      ensures Model() == LibGeometries.VerticesInputOpened(old(Model()), attrs)
    {
      var semantic := Lookup(attrs, "semantic");
      var source := Lookup(attrs, "source");
      if semantic == "POSITION" {
        currentMesh := currentMesh.(vertexLink := currentMesh.vertexLink.(accessor := source));
      }
    }

    method PolylistOpened(attrs: AttrArray)
      modifies this
      ensures Model() == LibGeometries.PolylistOpened(old(Model()), attrs)
    {
      var material := Lookup(attrs, "material");
      currentVertexIndex := currentVertexIndex.(data := currentVertexIndex.data.(material := material));
    }

    method PolylistClosed()
      modifies this
      ensures Model() == LibGeometries.PolylistClosed(old(Model()))
    {
      var v := currentVertexIndex;
      if v.trianglesOnly && |v.data.indices| > 0 && |v.data.position.accessor| != 0 {
        currentMesh := currentMesh.(parts := currentMesh.parts + [v.data]);
      }
      ResetVertexIndexAccumulator();
    }

    method PolylistInputOpened(attrs: AttrArray)
      modifies this
      ensures Model() == LibGeometries.PolylistInputOpened(old(Model()), attrs)
    {
      var semantic := Lookup(attrs, "semantic");
      var source := Lookup(attrs, "source");
      var offset := Lookup(attrs, "offset");
      var offsetInt := StrToUL(offset);
      var data := currentVertexIndex.data;
      ghost var s := Model();
      ghost var input := Input(source, offsetInt);
      if semantic == "VERTEX" {
        currentVertexIndex := currentVertexIndex.(data := data.(position := Input(source, offsetInt)));
        assert Model() == s.(vertexIndex := s.vertexIndex.(data := data.(position := input)));
      } else if semantic == "NORMAL" {
        currentVertexIndex := currentVertexIndex.(data := data.(normals := Input(source, offsetInt)));
        assert Model() == s.(vertexIndex := s.vertexIndex.(data := data.(normals := input)));
      } else if semantic == "TEXCOORD" {
        currentVertexIndex := currentVertexIndex.(data := data.(texCoords := Input(source, offsetInt)));
        assert Model() == s.(vertexIndex := s.vertexIndex.(data := data.(texCoords := input)));
      }
    }

    method VCountOpened()
      modifies this
      ensures Model() == LibGeometries.VCountOpened(old(Model()))
    {
      currentVertexIndex := currentVertexIndex.(vCountBuffer := EMPTY_BUFFER);
    }

    method VCountText(chunk: string)
      modifies this
      ensures Model() == LibGeometries.VCountText(old(Model()), chunk)
    {
      currentVertexIndex := currentVertexIndex.(vCountBuffer := Append(currentVertexIndex.vCountBuffer, chunk));
    }

    method VCountClosed()
      modifies this
      ensures Model() == LibGeometries.VCountClosed(old(Model()))
    {
      while true
        invariant currentVertexIndex.trianglesOnly && AllTriangles(BufferedUInts(currentVertexIndex.vCountBuffer))
                  <==> old(currentVertexIndex.trianglesOnly) && AllTriangles(BufferedUInts(old(currentVertexIndex.vCountBuffer)))
        invariant Model() == old(Model()).(vertexIndex := old(currentVertexIndex).(
                    trianglesOnly := currentVertexIndex.trianglesOnly,
                    vCountBuffer := currentVertexIndex.vCountBuffer))
        decreases Remaining(currentVertexIndex.vCountBuffer)
      {
        ExtractUIntStep(currentVertexIndex.vCountBuffer);
        var (i, rest) := ExtractUInt(currentVertexIndex.vCountBuffer);
        currentVertexIndex := currentVertexIndex.(vCountBuffer := rest);
        if i.None? {
          break;
        }
        AllTrianglesCons(i.value, BufferedUInts(rest));
        if i.value != 3 {
          currentVertexIndex := currentVertexIndex.(trianglesOnly := false);
        }
      }
    }

    method POpened()
      modifies this
      ensures Model() == LibGeometries.POpened(old(Model()))
    {
      currentVertexIndex := currentVertexIndex.(pBuffer := EMPTY_BUFFER);
    }

    method PText(chunk: string)
      modifies this
      ensures Model() == LibGeometries.PText(old(Model()), chunk)
    {
      currentVertexIndex := currentVertexIndex.(pBuffer := Append(currentVertexIndex.pBuffer, chunk));
    }

    method PClosed()
      modifies this
      ensures Model() == LibGeometries.PClosed(old(Model()))
    {
      while true
        invariant currentVertexIndex.data.indices + BufferedUInts(currentVertexIndex.pBuffer)
                  == old(currentVertexIndex.data.indices) + BufferedUInts(old(currentVertexIndex.pBuffer))
        invariant Model() == old(Model()).(vertexIndex := old(currentVertexIndex).(
                    data := old(currentVertexIndex.data).(indices := currentVertexIndex.data.indices),
                    pBuffer := currentVertexIndex.pBuffer))
        decreases Remaining(currentVertexIndex.pBuffer)
      {
        ExtractUIntStep(currentVertexIndex.pBuffer);
        var (index, rest) := ExtractUInt(currentVertexIndex.pBuffer);
        currentVertexIndex := currentVertexIndex.(pBuffer := rest);
        if index.None? {
          AppendNothing(currentVertexIndex.data.indices);
          break;
        }
        var data := currentVertexIndex.data;
        AppendShift(data.indices, index.value, BufferedUInts(rest));
        currentVertexIndex := currentVertexIndex.(data := data.(indices := data.indices + [index.value]));
      }
    }

    /** A start tag: the open listener registered at `path`, if any, runs. */
    method Open(path: string, attrs: AttrArray)
      modifies this
      ensures Model() == LibGeometries.Open(old(Model()), path, attrs)
    {
      if path == GEOMETRY {
        GeometryOpened(attrs);
      } else if path == FLOAT_ARRAY {
        FloatArrayOpened(attrs);
      } else if path == SOURCE {
        SourceOpened(attrs);
      } else if path == ACCESSOR {
        AccessorOpened(attrs);
      } else if path == PARAM {
        ParamOpened(attrs);
      } else if path == VERTICES {
        VerticesOpened(attrs);
      } else if path == VERTICES_INPUT {
        VerticesInputOpened(attrs);
      } else if path == POLYLIST {
        PolylistOpened(attrs);
      } else if path == POLYLIST_INPUT {
        PolylistInputOpened(attrs);
      } else if path == VCOUNT {
        VCountOpened();
      } else if path == P {
        POpened();
      }
    }

    /** Character data: the text listener registered at `path`, if any, runs. */
    method Text(path: string, chunk: string)
      modifies this
      ensures Model() == LibGeometries.Text(old(Model()), path, chunk)
    {
      if path == FLOAT_ARRAY {
        FloatArrayText(chunk);
      } else if path == VCOUNT {
        VCountText(chunk);
      } else if path == P {
        PText(chunk);
      }
    }

    /** An end tag: the close listener registered at `path`, if any, runs. */
    method Close(path: string)
      modifies this
      ensures Model() == LibGeometries.Close(old(Model()), path)
    {
      if path == GEOMETRY {
        GeometryClosed();
      } else if path == FLOAT_ARRAY {
        FloatArrayClosed();
      } else if path == SOURCE {
        SourceClosed();
      } else if path == POLYLIST {
        PolylistClosed();
      } else if path == VCOUNT {
        VCountClosed();
      } else if path == P {
        PClosed();
      }
    }

    /** A whole stream of events, delivered in order. */
    method Feed(events: seq<Event>)
      modifies this
      ensures Model() == Run(old(Model()), events)
    {
      var k := 0;
      while k < |events|
        invariant 0 <= k <= |events|
        invariant Run(old(Model()), events) == Run(Model(), events[k..])
      {
        ghost var before := Model();
        RunFrom(before, events, k);
        match events[k] {
          case StartTag(path, attrs) => Open(path, attrs);
          case CharData(path, chunk) => Text(path, chunk);
          case EndTag(path) => Close(path);
        }
        assert Model() == Step(before, events[k]);
        k := k + 1;
      }
    }
  }

  /** Running the events from position `k` is one step on `events[k]`, then the rest. */
  lemma RunFrom(s: State, events: seq<Event>, k: nat)
    requires k < |events|
    ensures Run(s, events[k..]) == Run(Step(s, events[k]), events[k + 1..])
  {
    assert events[k..][1..] == events[k + 1..];
  }

  /** A count list is all triangles exactly when its first count is 3 and the rest are all triangles. */
  lemma AllTrianglesCons(v: nat, rest: seq<nat>)
    ensures AllTriangles([v] + rest) <==> v == 3 && AllTriangles(rest)
  {
    if v == 3 && AllTriangles(rest) {
      forall i | 0 <= i < |[v] + rest| ensures ([v] + rest)[i] == 3 {
        if i > 0 {
          assert ([v] + rest)[i] == rest[i - 1];
        }
      }
    }
    if AllTriangles([v] + rest) {
      assert ([v] + rest)[0] == v;
      forall i | 0 <= i < |rest| ensures rest[i] == 3 {
        assert ([v] + rest)[i + 1] == rest[i];
      }
    }
  }

  /** Moving one element across the join of two sequences. */
  lemma AppendShift<T>(a: seq<T>, v: T, b: seq<T>)
    ensures (a + [v]) + b == a + ([v] + b)
  {
  }

  lemma AppendNothing<T>(a: seq<T>)
    ensures a + [] == a
  {
  }
}
