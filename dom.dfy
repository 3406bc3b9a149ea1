/**
  The geometry records the builder produces (src/james/collada/dom.hpp), and
  `std::map::insert`, through which every record reaches its owner.
 */
module Dom {

  /** `Accessor::NOT_PRESENT`, i.e. `(size_t)-1` with a 64-bit `size_t`. */
  const NOT_PRESENT: nat := 0xFFFF_FFFF_FFFF_FFFF

  /** `std::vector<float>`: no invariant beyond being a sequence. */
  type FloatSource = seq<real>

  /** `std::vector<unsigned int>`. */
  type IndexList = seq<nat>

  /**
    Reinterprets a float source as strided tuples; `aIndex`, `bIndex` and
    `cIndex` are the positions of the first three named parameters, or
    `NOT_PRESENT`.
   */
  datatype Accessor = Accessor(
    source: string,
    count: nat,
    stride: nat,
    offset: nat,
    aIndex: nat,
    bIndex: nat,
    cIndex: nat)

  /** `Accessor()`. */
  const DEFAULT_ACCESSOR: Accessor := Accessor("", 0, 0, 0, NOT_PRESENT, NOT_PRESENT, NOT_PRESENT)

  /** The `<vertices>` element: its id and the accessor bound to POSITION. */
  datatype VertexLink = VertexLink(id: string, accessor: string)

  const DEFAULT_VERTEX_LINK: VertexLink := VertexLink("", "")

  /** `VertexIndex::Input`: an accessor reference and the offset of its index in each vertex. */
  datatype Input = Input(accessor: string, offset: nat)

  /** `Input()`. */
  const DEFAULT_INPUT: Input := Input("", 0)

  /** One polylist: its material, the three input bindings and the flat index buffer. */
  datatype VertexIndex = VertexIndex(
    material: string,
    position: Input,
    normals: Input,
    texCoords: Input,
    indices: IndexList)

  /** `VertexIndex()`. */
  const DEFAULT_VERTEX_INDEX: VertexIndex := VertexIndex("", DEFAULT_INPUT, DEFAULT_INPUT, DEFAULT_INPUT, [])

  /**
    A finished mesh. The C++ constructors store their four arguments and the
    getters `Sources()`, `Accessors()`, `Vertices()` and `Parts()` return them
    unchanged; here they are the datatype's constructor and destructors.
   */
  datatype Mesh = Mesh(
    sources: map<string, FloatSource>,
    accessors: map<string, Accessor>,
    vertices: VertexLink,
    parts: seq<VertexIndex>)

  /**
    The defaults of the records: an accessor with no counts and every slot
    `NOT_PRESENT`, which is the largest 64-bit value, and an input bound to
    no accessor at offset 0.
   */
  lemma DefaultRecords()
    ensures NOT_PRESENT + 1 == 0x1_0000_0000_0000_0000
    ensures DEFAULT_ACCESSOR.source == "" && DEFAULT_ACCESSOR.count == 0
            && DEFAULT_ACCESSOR.stride == 0 && DEFAULT_ACCESSOR.offset == 0
    ensures DEFAULT_ACCESSOR.aIndex == NOT_PRESENT && DEFAULT_ACCESSOR.bIndex == NOT_PRESENT
            && DEFAULT_ACCESSOR.cIndex == NOT_PRESENT
    ensures DEFAULT_INPUT.accessor == "" && DEFAULT_INPUT.offset == 0
    ensures DEFAULT_VERTEX_INDEX.indices == [] && DEFAULT_VERTEX_INDEX.position == DEFAULT_INPUT
  {
  }

  /** The getters of a constructed mesh return the four parts it was built from. */
  lemma MeshGetters(sources: map<string, FloatSource>, accessors: map<string, Accessor>, vertices: VertexLink, parts: seq<VertexIndex>)
    ensures var m := Mesh(sources, accessors, vertices, parts);
            m.sources == sources && m.accessors == accessors && m.vertices == vertices && m.parts == parts
  {
  }

  /**
    `m.insert(make_pair(k, v))` on a `std::map`: the pair is added when `k` is
    absent; an existing entry is never overwritten.
   */
  function MapInsert<K, V>(m: map<K, V>, k: K, v: V): (r: map<K, V>)
    ensures r.Keys == m.Keys + {k}
    ensures r[k] == if k in m then m[k] else v
    ensures forall j :: j in m ==> r[j] == m[j]
  {
    if k in m then m else m[k := v]
  }
}
