# load-collada geometry builder, in Dafny

This project models the part of the load-collada loader that turns the
`<library_geometries>` section of a COLLADA document into meshes.

The loader receives XML events through an Expat facade. The facade calls
listeners registered per absolute element path. `LibGeometriesBuilder`
registers eleven listeners. Together they fill four scratch records: the
current mesh, float source, accessor and polylist. At a close event a record
is committed to its owner (`meshes_`, or the current mesh's `sources`,
`accessors` or `parts`) when its acceptance rule holds, and the scratch
record is then reset. The document root is also gated on its `version`
attribute: its major number must be at most 1 and its minor number at most
4, compared separately, so "0.9.0" is refused as well as "1.5.0".

The project has these modules:

- `Wrappers`: `Option`.
- `Scan`: stand-ins for `stream >> unsigned`, `stream >> float`, `strtoul` and `atoi`.
  - `TextBuffer` models a `std::stringstream` used to collect element text.
  - Reading `>> unsigned` is paired with printing (`Decimal`, `Format`), and the round trip is proved.
  - Reading `>> float` is paired with printing decimal literals (`LiteralText`, `JoinLiterals`), and that round trip is proved too.
  - Whole numbers printed without a point (`JoinNumerals`) read back through both `>> float` and `>> unsigned`.
  - `strtoul` and `atoi` have no printer; on plain numerals they are shown to give the numeral's value.
- `Dom`: the records of `dom.hpp` and `std::map::insert`.
- `ExpatFacade`: the value types of `expat-facade.hpp`.
  - Attribute lookup: `operator[]`, `Has` and `Length` as index loops.
  - The attribute iterator.
  - `Tag` with its fluent setters.
  - `Path`, `TagData` and the multimap registry.
- `ColladaBuilder`: `CheckMaxVersion` and the `/COLLADA` open listener. The throw is modelled as a `Fail` outcome.
- `LibGeometries`: the builder's state and one function per (path, event) listener.
  - `Open`, `Text` and `Close` route an event by path.
  - `Run` applies a sequence of events.
- `GeometriesBuilder`: the class `LibGeometriesBuilder`.
  - Its fields are updated in place by one method per listener, including the `while (buffer >> x)` loops.
  - Each method is proved to leave the fields as the `LibGeometries` function of the same name says.
- `GeometriesProofs`: properties of whole event streams.
  - Every committed record has what its rule checks: meshes an id and parts, parts indices and a position accessor, sources an id and values, accessors an id.
  - A stored mesh is never replaced.
  - `<param>` slots are filled in order.
  - Text split into chunks reads as its concatenation.
  - One whole `<geometry>` document, a cube's source, accessor, vertices and one triangle, yields exactly its mesh.

Where the code and its own comments disagree, the model follows the code:

- The comments at `src/james/collada/lib-geometries-builder.cpp:119` and `:127` say a `<param>` needs a `type`.
  - The code tests `type` only for null.
  - `operator[]` returns `""`, never null, for an absent name.
  - So a param with a non-empty `name` always counts (`GeometriesProofs.ParamWithoutType`).
- Likewise, every `if (tmpId)`-style test in the builder is always true.
  - An absent attribute therefore overwrites the field with `""`, or with 0 after `strtoul`.
  - See `GeometriesProofs.AccessorDefaults` and `GeometriesProofs.GeometryWithoutId`.

## Model

| member | source | states |
|---|---|---|
| ExpatFacade.Get | inc/james/expat-facade.hpp:45-52 | first-match lookup over the pairs: a non-empty result is the value of some pair with exactly that name |
| ExpatFacade.Value | inc/james/expat-facade.hpp:45-52 | `attr[name]` over the raw array: a non-empty result sits right after an entry equal to `name` at an even index |
| ExpatFacade.AttributesOf | inc/james/expat-facade.hpp:40-52 | the null-terminated name/value array of a start tag holds exactly the given pairs, in order |
| ExpatFacade.Lookup | inc/james/expat-facade.hpp:45-52 | `attr[name]`: the value of the first pair named exactly `name`, and `""` when no pair has that name |
| ExpatFacade.GetFirstMatch | inc/james/expat-facade.hpp:46-49 | when pair `k` is the first whose name equals `name`, the lookup yields pair `k`'s value (first match, case-sensitive) |
| ExpatFacade.GetAbsent | inc/james/expat-facade.hpp:51 | when no pair is called `name`, the lookup yields the empty string, not "no value" |
| ExpatFacade.Contains | inc/james/expat-facade.hpp:54-61 | `Has(name)` is true exactly when some pair is called `name` |
| ExpatFacade.Length | inc/james/expat-facade.hpp:63-69 | the number of name/value pairs; twice it is the index of the null terminator |
| ExpatFacade.AttrIterator.constructor | inc/james/expat-facade.hpp:29 | the iterator points at the given entry of the given array |
| ExpatFacade.AttrIterator.Equals | inc/james/expat-facade.hpp:31 | `operator==` is reflexive, and equal iterators point at the same entry of the same array |
| ExpatFacade.AttrIterator.Next | inc/james/expat-facade.hpp:34 | `++` moves on by one pair (two entries) and returns the same iterator |
| ExpatFacade.AttrIterator.Previous | inc/james/expat-facade.hpp:35 | `--` moves back by two entries, undoing `++`, and returns the same iterator |
| ExpatFacade.AttrIterator.Current | inc/james/expat-facade.hpp:37 | `*it` is the pair at the iterator's position in the array's pair sequence |
| ExpatFacade.Tag.constructor | inc/james/expat-facade.hpp:80-87 | a new `Tag` has none of its three callbacks bound |
| ExpatFacade.Tag.Opened | inc/james/expat-facade.hpp:89 | binds the open callback, leaves the other two as they were, and returns the same tag |
| ExpatFacade.Tag.Closed | inc/james/expat-facade.hpp:90 | binds the close callback only and returns the same tag |
| ExpatFacade.Tag.Text | inc/james/expat-facade.hpp:91 | binds the text callback only and returns the same tag |
| ExpatFacade.FreshRecords | inc/james/expat-facade.hpp:15 | a default `Path` has depth 0 and instance 0; `TagData(tag)` keeps the tag, has no text and an occurrence count of 0 (line 110) |
| ExpatFacade.MultimapInsert | inc/james/expat-facade.hpp:113 | an insert joins the end of its path's range and leaves every other path's range unchanged |
| ExpatFacade.SharedPath | inc/james/expat-facade.hpp:113 | two tags registered at one path are both kept, in registration order |
| Dom.DefaultRecords | src/james/collada/dom.hpp:17-47 | `NOT_PRESENT` is `(size_t)-1` for a 64-bit `size_t`; `Accessor()` has count, stride and offset 0 and all three slots `NOT_PRESENT`; `Input()` has offset 0 and no accessor |
| Dom.MeshGetters | src/james/collada/dom.hpp:62-72 | the getters of a constructed mesh return exactly the sources, accessors, vertices and parts it was built from |
| Dom.MapInsert | src/james/collada/lib-geometries-builder.cpp:30-33 | `std::map::insert`: the key set gains the key; an existing entry keeps its value, so nothing is overwritten; a new key gets the value |
| Scan.NextUInt | src/james/collada/lib-geometries-builder.cpp:240 | one `>>` into an `unsigned int` yields a value no larger than `UINT_MAX` and leaves strictly less text |
| Scan.NextFloat | src/james/collada/lib-geometries-builder.cpp:64 | one `>>` into a `float` consumes a non-empty prefix of the text and leaves the rest of it, a proper suffix |
| Scan.UInts | src/james/collada/lib-geometries-builder.cpp:256 | every value a `while (buffer >> index)` loop reads fits an `unsigned int` |
| Scan.Floats | src/james/collada/lib-geometries-builder.cpp:64 | a `while (buffer >> f)` loop reads no more values than the text has characters (what it reads is stated by `Scan.FloatsOfLiterals`) |
| Scan.StrToUL | src/james/collada/lib-geometries-builder.cpp:107-109 | `strtoul` never exceeds `SIZE_MAX` (it saturates) |
| Scan.Atoi | src/james/collada/builder.cpp:15-16 | `atoi` of a plain numeral is the numeral's decimal value |
| Scan.ConvertNumeral | src/james/collada/builder.cpp:15-16 | on a plain numeral, `atoi` gives its decimal value, and so does `strtoul` when the value fits |
| Scan.ExtractUIntStep | src/james/collada/lib-geometries-builder.cpp:240 | a successful extraction peels the first value off what the loop reads and shrinks the stream; a failed one leaves it failed with nothing more to read |
| Scan.ExtractFloatStep | src/james/collada/lib-geometries-builder.cpp:64 | the same for `>> float` |
| Scan.AppendChunks | src/james/collada/lib-geometries-builder.cpp:57 | writing two chunks to a stream in turn equals writing their concatenation |
| Scan.NextUIntOfDecimal | src/james/collada/lib-geometries-builder.cpp:256 | reading a printed numeral followed by a non-digit yields the number and exactly the text after it |
| Scan.UIntsSkipsSpace | src/james/collada/lib-geometries-builder.cpp:256 | a leading space does not change the values read |
| Scan.UIntsOfFormat | src/james/collada/lib-geometries-builder.cpp:256 | round trip: a list of indices printed with separating spaces reads back as the same list |
| Scan.NextFloatOfLiteral | src/james/collada/lib-geometries-builder.cpp:64 | reading a printed decimal literal (optional minus, digits, point, fraction digits) followed by a non-digit yields its exact value and exactly the text after it |
| Scan.FloatsOfLiterals | src/james/collada/lib-geometries-builder.cpp:64-66 | round trip: decimal literals joined by spaces read back as their values, in order |
| Scan.ThreeFloats | src/james/collada/lib-geometries-builder.cpp:64-66 | the text "1.0 2.0 3.0" reads as the values 1, 2 and 3 |
| Scan.NextFloatOfDecimal | src/james/collada/lib-geometries-builder.cpp:64 | reading a numeral with no point, followed by neither a digit nor a point, as a `float` yields its whole value and exactly the text after it |
| Scan.FloatsOfNumerals | src/james/collada/lib-geometries-builder.cpp:64-66 | round trip: whole numbers joined by single spaces read back through `>> float` as the same numbers, in order |
| Scan.UIntsOfNumerals | src/james/collada/lib-geometries-builder.cpp:256-258 | round trip: numbers up to `UINT_MAX` joined by single spaces, with no trailing space, read back through `>> unsigned` as the same list |
| Scan.SixFloats | src/james/collada/lib-geometries-builder.cpp:64-66 | the text "0 0 0 1 1 1" reads as six values, three zeros then three ones |
| Scan.TriangleNumerals | src/james/collada/lib-geometries-builder.cpp:238-258 | the vcount text "3" reads as [3], and the p text "0 1 2" as [0, 1, 2] |
| Scan.SmallNumerals | src/james/collada/lib-geometries-builder.cpp:107-109 | `strtoul` reads "0", "2" and "3" as their values, and an absent attribute "" as 0 |
| ColladaBuilder.CheckMaxVersion | src/james/collada/builder.cpp:10-25 | the only outcomes are pass, "Invalid COLLADA version." and "Unsupported COLLADA version."; a version under five characters is invalid; anything not invalid has two dots |
| ColladaBuilder.VersionOutcome | src/james/collada/builder.cpp:10-25 | the whole check: invalid when the version is not well-shaped, else unsupported when major > maxMaj or minor > maxMin, else pass |
| ColladaBuilder.RootOpened | src/james/collada/builder.cpp:34-37 | the `/COLLADA` open listener refuses a version that is not well-shaped as invalid and one with major > 1 or minor > 4 as unsupported, and passes every other |
| ColladaBuilder.FindFrom | src/james/collada/builder.cpp:11-12 | `find_first_of(c, from)`: the first position at or after `from` holding `c`, or none exactly when no such position exists |
| ColladaBuilder.FindsDots | src/james/collada/builder.cpp:11-12 | the two `find_first_of` calls return the first and the second dot |
| ColladaBuilder.InvalidVersion | src/james/collada/builder.cpp:10-25 | "Invalid COLLADA version." is raised exactly when the version is shorter than five characters or has fewer than two dots; the only outcomes are pass, invalid and unsupported |
| ColladaBuilder.VersionParts | src/james/collada/builder.cpp:15-16 | the major number is `atoi` of the text before the first dot and the minor number `atoi` of the text between the dots |
| ColladaBuilder.MinorStopsAtDot | src/james/collada/builder.cpp:16 | the `substr` keeps the second dot, and `atoi` ignores it |
| ColladaBuilder.CheckAt | src/james/collada/builder.cpp:11-19 | with the first two dots at `i` and `j`, the check compares `atoi` of the text around them with the maximum |
| ColladaBuilder.UnsupportedVersion | src/james/collada/builder.cpp:18-19 | for a well-shaped version, "Unsupported COLLADA version." is raised exactly when major > maxMaj or minor > maxMin; the `maj <= maxMaj` conjunct adds nothing |
| ColladaBuilder.RootGateSingleDigits | src/james/collada/builder.cpp:34-37 | the `/COLLADA` listener on "a.b.c" refuses the version as unsupported exactly when a > 1 or b > 4, and otherwise passes it |
| ColladaBuilder.RootGateSupported | src/james/collada/builder.cpp:36 | `version="1.4.1"` passes the root gate |
| ColladaBuilder.RootGateNextMinor | src/james/collada/builder.cpp:36 | `version="1.5.0"` is unsupported |
| ColladaBuilder.RootGateLowerMajorHigherMinor | src/james/collada/builder.cpp:18-19 | `version="0.9.0"` is unsupported although its major number is lower |
| ColladaBuilder.RootGateMalformed | src/james/collada/builder.cpp:36 | a root without `version` (read as `""`) and `version="1.4"` are both invalid |
| LibGeometries.GeometryClosed | src/james/collada/lib-geometries-builder.cpp:25-36 | the mesh is stored under its id exactly when the id is non-empty and it has a part; a stored id keeps its first mesh; every accumulator is reset whatever the outcome |
| LibGeometries.FloatArrayClosed | src/james/collada/lib-geometries-builder.cpp:59-73 | the floats read from the buffer are stored under the source id exactly when the id is non-empty and a value was read, never over an existing id; the source accumulator is reset and nothing else changes |
| LibGeometries.SourceClosed | src/james/collada/lib-geometries-builder.cpp:88-93 | the accessor is stored under the source id exactly when the id is non-empty and a named param was seen, never over an existing id; the accessor accumulator is reset and nothing else changes |
| LibGeometries.ParamStep | src/james/collada/lib-geometries-builder.cpp:132-151 | every param advances the running index; only a named one is counted; an unnamed param, or a named one after three, leaves the slots as they were; the accessor's other fields are kept |
| LibGeometries.VerticesInputOpened | src/james/collada/lib-geometries-builder.cpp:171-179 | on semantic exactly "POSITION" the vertices' accessor becomes the `source` attribute; any other semantic changes nothing; the vertices' id is never touched and nothing outside the vertex link changes |
| LibGeometries.PolylistClosed | src/james/collada/lib-geometries-builder.cpp:194-201 | the polylist joins the end of the parts exactly when it is triangles-only, has indices and has a position accessor; then it is reset with `trianglesOnly` true while the two streams are kept |
| LibGeometries.PolylistInputOpened | src/james/collada/lib-geometries-builder.cpp:204-228 | VERTEX, NORMAL and TEXCOORD bind (source, offset) to the position, normals or texCoords slot respectively; any other semantic changes nothing; only the polylist's data can change |
| LibGeometries.VCountClosed | src/james/collada/lib-geometries-builder.cpp:237-243 | `trianglesOnly` stays true exactly when it was true and every count read is 3; the stream is left failed and nothing else changes |
| LibGeometries.PClosed | src/james/collada/lib-geometries-builder.cpp:253-259 | the indices read are appended after the polylist's existing indices; the stream is left failed and nothing else changes |
| LibGeometries.Open | src/james/collada/lib-geometries-builder.cpp:18-260 | a start tag at a path without a listener changes nothing, and no start tag changes `meshes_` |
| LibGeometries.Text | src/james/collada/lib-geometries-builder.cpp:53-58 | text at a path other than `<float_array>`, `<vcount>` and `<p>` changes nothing (also lines 234-236 and 250-252); text never changes the meshes, the current mesh or the accessor |
| LibGeometries.Close | src/james/collada/lib-geometries-builder.cpp:18-260 | an end tag at a path without a listener changes nothing, and only `</geometry>` can change `meshes_` |
| LibGeometries.Step | src/james/collada/lib-geometries-builder.cpp:18-260 | an event at a path without a listener changes nothing |
| LibGeometries.Run | src/james/collada/lib-geometries-builder.cpp:18-260 | a sequence of events none of which is at a registered path changes nothing |
| GeometriesBuilder.LibGeometriesBuilder.constructor | src/james/collada/lib-geometries-builder.cpp:8-10 | a new builder has no meshes, new streams and every accumulator reset |
| GeometriesBuilder.LibGeometriesBuilder.Meshes | src/james/collada/lib-geometries-builder.hpp:17 | `Meshes()` returns the committed meshes by id |
| GeometriesBuilder.LibGeometriesBuilder.ResetAccumulators | src/james/collada/lib-geometries-builder.cpp:263-268 | the four resets in turn |
| GeometriesBuilder.LibGeometriesBuilder.ResetMeshAccumulator | src/james/collada/lib-geometries-builder.cpp:270-276 | the current mesh becomes empty: no id, sources, accessors or parts, and a default vertex link |
| GeometriesBuilder.LibGeometriesBuilder.ResetSourceAccumulator | src/james/collada/lib-geometries-builder.cpp:278-281 | the source id is cleared and its stream replaced by a new one |
| GeometriesBuilder.LibGeometriesBuilder.ResetAccessorAccumulator | src/james/collada/lib-geometries-builder.cpp:283-288 | id, both counters and the accessor return to their defaults |
| GeometriesBuilder.LibGeometriesBuilder.ResetVertexIndexAccumulator | src/james/collada/lib-geometries-builder.cpp:290-293 | the polylist returns to its default and `trianglesOnly` to true; the `<vcount>` and `<p>` streams are kept |
| GeometriesBuilder.LibGeometriesBuilder.GeometryOpened | src/james/collada/lib-geometries-builder.cpp:19-24 | the mesh id becomes the `id` attribute, `""` when absent |
| GeometriesBuilder.LibGeometriesBuilder.GeometryClosed | src/james/collada/lib-geometries-builder.cpp:25-36 | the fields become `LibGeometries.GeometryClosed` of the old ones |
| GeometriesBuilder.LibGeometriesBuilder.FloatArrayOpened | src/james/collada/lib-geometries-builder.cpp:47-52 | the source id becomes the `id` attribute |
| GeometriesBuilder.LibGeometriesBuilder.FloatArrayText | src/james/collada/lib-geometries-builder.cpp:53-58 | the chunk is written to the end of the source's stream |
| GeometriesBuilder.LibGeometriesBuilder.ReadFloats | src/james/collada/lib-geometries-builder.cpp:61-66 | the loop collects exactly the floats the stream holds, in order, and leaves the stream failed and every other field unchanged |
| GeometriesBuilder.LibGeometriesBuilder.FloatArrayClosed | src/james/collada/lib-geometries-builder.cpp:59-73 | the fields become `LibGeometries.FloatArrayClosed` of the old ones |
| GeometriesBuilder.LibGeometriesBuilder.SourceOpened | src/james/collada/lib-geometries-builder.cpp:82-87 | the accessor's id becomes the `<source>`'s `id` attribute |
| GeometriesBuilder.LibGeometriesBuilder.SourceClosed | src/james/collada/lib-geometries-builder.cpp:88-93 | the fields become `LibGeometries.SourceClosed` of the old ones |
| GeometriesBuilder.LibGeometriesBuilder.AccessorOpened | src/james/collada/lib-geometries-builder.cpp:97-110 | source, count, stride and offset are set from their attributes, the numbers through `strtoul` |
| GeometriesBuilder.LibGeometriesBuilder.ParamOpened | src/james/collada/lib-geometries-builder.cpp:114-152 | a named param records the running index in the next free slot of a, b and c and is counted; every param advances the running index |
| GeometriesBuilder.LibGeometriesBuilder.VerticesOpened | src/james/collada/lib-geometries-builder.cpp:163-168 | the vertex link's id becomes the `id` attribute |
| GeometriesBuilder.LibGeometriesBuilder.VerticesInputOpened | src/james/collada/lib-geometries-builder.cpp:172-178 | the fields become `LibGeometries.VerticesInputOpened` of the old ones |
| GeometriesBuilder.LibGeometriesBuilder.PolylistOpened | src/james/collada/lib-geometries-builder.cpp:188-193 | the polylist's material becomes the `material` attribute |
| GeometriesBuilder.LibGeometriesBuilder.PolylistClosed | src/james/collada/lib-geometries-builder.cpp:194-201 | the fields become `LibGeometries.PolylistClosed` of the old ones |
| GeometriesBuilder.LibGeometriesBuilder.PolylistInputOpened | src/james/collada/lib-geometries-builder.cpp:205-227 | the fields become `LibGeometries.PolylistInputOpened` of the old ones |
| GeometriesBuilder.LibGeometriesBuilder.VCountOpened | src/james/collada/lib-geometries-builder.cpp:231-233 | the `<vcount>` stream is replaced by a new one |
| GeometriesBuilder.LibGeometriesBuilder.VCountText | src/james/collada/lib-geometries-builder.cpp:234-236 | the chunk is written to the end of the `<vcount>` stream |
| GeometriesBuilder.LibGeometriesBuilder.VCountClosed | src/james/collada/lib-geometries-builder.cpp:237-243 | the loop leaves the fields as `LibGeometries.VCountClosed` says: `trianglesOnly` survives only if every count read is 3 |
| GeometriesBuilder.LibGeometriesBuilder.POpened | src/james/collada/lib-geometries-builder.cpp:247-249 | the `<p>` stream is replaced by a new one |
| GeometriesBuilder.LibGeometriesBuilder.PText | src/james/collada/lib-geometries-builder.cpp:250-252 | the chunk is written to the end of the `<p>` stream |
| GeometriesBuilder.LibGeometriesBuilder.PClosed | src/james/collada/lib-geometries-builder.cpp:253-259 | the loop pushes every index read onto the polylist's indices, as `LibGeometries.PClosed` says |
| GeometriesBuilder.LibGeometriesBuilder.Open | src/james/collada/lib-geometries-builder.cpp:18-260 | a start tag runs the open listener registered at its path, and changes nothing at any other path |
| GeometriesBuilder.LibGeometriesBuilder.Text | src/james/collada/lib-geometries-builder.cpp:53-58 | character data reaches the text listeners of `<float_array>`, `<vcount>` and `<p>` only (also lines 234-236 and 250-252) |
| GeometriesBuilder.LibGeometriesBuilder.Close | src/james/collada/lib-geometries-builder.cpp:18-260 | an end tag runs the close listener registered at its path |
| GeometriesBuilder.LibGeometriesBuilder.Feed | src/james/collada/lib-geometries-builder.cpp:18-260 | delivering a sequence of events one by one leaves the fields as `LibGeometries.Run` says |
| GeometriesProofs.InitialInv | src/james/collada/lib-geometries-builder.cpp:8-10 | a new builder meets the invariant: nothing committed breaks an acceptance rule |
| GeometriesProofs.GeometryClosedInv | src/james/collada/lib-geometries-builder.cpp:29-35 | closing a geometry keeps every stored mesh with a non-empty id, at least one part, parts with indices and a position accessor, and sources and accessors with ids |
| GeometriesProofs.FloatArrayClosedInv | src/james/collada/lib-geometries-builder.cpp:60-70 | every stored float source has an id and at least one value |
| GeometriesProofs.SourceClosedInv | src/james/collada/lib-geometries-builder.cpp:89-91 | every stored accessor has an id |
| GeometriesProofs.PolylistClosedInv | src/james/collada/lib-geometries-builder.cpp:195-199 | every kept part has indices and a position accessor |
| GeometriesProofs.OpenKeepsMeshes | src/james/collada/lib-geometries-builder.cpp:18-260 | no start tag changes `meshes_` |
| GeometriesProofs.OpenKeepsParts | src/james/collada/lib-geometries-builder.cpp:18-260 | no start tag changes the current mesh's parts |
| GeometriesProofs.OpenKeepsRecords | src/james/collada/lib-geometries-builder.cpp:18-260 | no start tag changes the current mesh's sources or accessors |
| GeometriesProofs.TextKeepsCommitted | src/james/collada/lib-geometries-builder.cpp:53-58 | character data changes neither `meshes_` nor the current mesh |
| GeometriesProofs.OpenInv | src/james/collada/lib-geometries-builder.cpp:18-260 | start tags preserve the invariant |
| GeometriesProofs.TextInv | src/james/collada/lib-geometries-builder.cpp:53-58 | character data preserves the invariant |
| GeometriesProofs.CloseInv | src/james/collada/lib-geometries-builder.cpp:18-260 | end tags preserve the invariant |
| GeometriesProofs.StepInv | src/james/collada/lib-geometries-builder.cpp:18-260 | no event breaks the invariant |
| GeometriesProofs.RunInv | src/james/collada/lib-geometries-builder.cpp:18-260 | whatever events arrive, every stored mesh has an id and a part, each of its parts has indices and a position accessor, each source has an id and a value, and each accessor an id |
| GeometriesProofs.CloseExtends | src/james/collada/lib-geometries-builder.cpp:30-33 | only the close of `<geometry>` changes `meshes_`, and it never removes or replaces an entry |
| GeometriesProofs.StepExtends | src/james/collada/lib-geometries-builder.cpp:30-33 | every event keeps each stored mesh; only the end of `<geometry>` can change `meshes_` |
| GeometriesProofs.RunExtends | src/james/collada/lib-geometries-builder.cpp:30-33 | a later `<geometry>` with an id already stored, or any other event, never replaces a stored mesh |
| GeometriesProofs.RunAppend | src/james/collada/lib-geometries-builder.cpp:18-260 | delivering two event sequences in turn equals delivering their concatenation |
| GeometriesProofs.Named | src/james/collada/lib-geometries-builder.cpp:135 | the positions of the params that count (non-empty name), strictly increasing and complete |
| GeometriesProofs.ParamStepFills | src/james/collada/lib-geometries-builder.cpp:135-151 | one more param: a named one takes the next free slot at the running index |
| GeometriesProofs.ParamsFill | src/james/collada/lib-geometries-builder.cpp:132-151 | from a reset accessor: the running index is the number of params, the named count is the number of non-empty names, slots a, b and c hold the positions of the first three named params or `NOT_PRESENT`, and nothing else changes |
| GeometriesProofs.RunParams | src/james/collada/lib-geometries-builder.cpp:113-153 | a run of `<param>` start tags changes only the accessor, as the slot filling says |
| GeometriesProofs.ParamWithoutType | src/james/collada/lib-geometries-builder.cpp:132-135 | a param with a name and no `type` still counts |
| GeometriesProofs.FloatArrayOneTwoThree | src/james/collada/lib-geometries-builder.cpp:46-73 | `<float_array id="...">1.0 2.0 3.0</float_array>` in a fresh source stores the values 1, 2 and 3 under its id |
| GeometriesProofs.TextTwice | src/james/collada/lib-geometries-builder.cpp:57 | two chunks of text for `<float_array>`, `<vcount>` or `<p>` buffer what their concatenation does |
| GeometriesProofs.TextChunks | src/james/collada/lib-geometries-builder.cpp:53-58 | however an element's text is split into chunks, the buffer receives their concatenation |
| GeometriesProofs.FloatArraySplitInvariant | src/james/collada/lib-geometries-builder.cpp:53-73 | what `<float_array>` stores depends only on the concatenation of its chunks |
| GeometriesProofs.StepKeepsDropped | src/james/collada/lib-geometries-builder.cpp:194-201 | once `trianglesOnly` is false, any event other than `</polylist>` or `</geometry>` keeps it false and keeps the parts |
| GeometriesProofs.RunKeepsDropped | src/james/collada/lib-geometries-builder.cpp:194-201 | the same over any sequence of such events |
| GeometriesProofs.NonTriangleDropped | src/james/collada/lib-geometries-builder.cpp:237-243 | a `<vcount>` listing any count other than 3 makes the polylist be dropped at its close, whatever events (such as a well-formed `<p>`) arrive before `</polylist>` |
| GeometriesProofs.OnePElement | src/james/collada/lib-geometries-builder.cpp:246-260 | one `<p>` element appends the indices its text holds |
| GeometriesProofs.TwoPElements | src/james/collada/lib-geometries-builder.cpp:253-259 | indices of two `<p>` elements in one polylist accumulate, first then second |
| GeometriesProofs.AccessorDefaults | src/james/collada/lib-geometries-builder.cpp:98-109 | an accessor without `count`, `stride` or `offset` gets 0 for each, since `strtoul("")` is 0 |
| GeometriesProofs.OpenKeepsId | src/james/collada/lib-geometries-builder.cpp:18-24 | only the start of `<geometry>` sets the mesh id |
| GeometriesProofs.CloseWithoutId | src/james/collada/lib-geometries-builder.cpp:29-35 | a mesh with the empty id is not stored at `</geometry>`, and every end tag leaves the empty id empty |
| GeometriesProofs.StepWithoutId | src/james/collada/lib-geometries-builder.cpp:18-36 | while the mesh id is empty, any event but a new `<geometry>` keeps it empty and keeps `meshes_` |
| GeometriesProofs.RunWithoutId | src/james/collada/lib-geometries-builder.cpp:18-36 | the same over any sequence of such events |
| GeometriesProofs.GeometryWithoutId | src/james/collada/lib-geometries-builder.cpp:20-35 | a `<geometry>` without an id gets the empty id, so its mesh is never stored: `meshes_` is unchanged by every event up to the next `<geometry>`, its own end tag included |
| GeometriesProofs.UnregisteredIgnored | src/james/collada/lib-geometries-builder.cpp:18-260 | events at paths without a listener change nothing |
| GeometriesProofs.CubeOpened | src/james/collada/lib-geometries-builder.cpp:19-23 | from the constructed builder, `<geometry id="cube">` names the current mesh "cube" and changes nothing else |
| GeometriesProofs.FloatsClosed | src/james/collada/lib-geometries-builder.cpp:59-73 | `</float_array>` on a buffer holding `text`, under a new non-empty id, adds exactly what `text` reads as and resets the source accumulator |
| GeometriesProofs.PosFloatsRead | src/james/collada/lib-geometries-builder.cpp:46-90 | `<source id="pos">` then `<float_array id="pos-array">0 0 0 1 1 1</float_array>` store six values under "pos-array" and give the accessor the id "pos"; nothing else changes |
| GeometriesProofs.PosAccessorOpened | src/james/collada/lib-geometries-builder.cpp:96-111 | `<accessor source="#pos-array" count="2" stride="3">` sets source "#pos-array", count 2, stride 3 and offset 0 |
| GeometriesProofs.XYZ | src/james/collada/lib-geometries-builder.cpp:132-154 | three named params fill slots a, b and c with 0, 1 and 2 and count three params |
| GeometriesProofs.PosAccessorRead | src/james/collada/lib-geometries-builder.cpp:96-160 | the accessor start tag and params X, Y and Z leave the accessor with id "pos", three params seen and data `CUBE_ACCESSOR` |
| GeometriesProofs.PosClosed | src/james/collada/lib-geometries-builder.cpp:88-93 | `</source>` commits that accessor under "pos" and resets the accessor accumulator |
| GeometriesProofs.VertsRead | src/james/collada/lib-geometries-builder.cpp:162-185 | `<vertices id="verts">` and its POSITION `<input source="#pos">` bind the vertices, and nothing else changes |
| GeometriesProofs.TriangleHeadRead | src/james/collada/lib-geometries-builder.cpp:187-228 | `<polylist>` without a material and its VERTEX `<input>` at offset "0" bind the position input to "#verts" at offset 0 |
| GeometriesProofs.TriangleVCountRead | src/james/collada/lib-geometries-builder.cpp:230-244 | `<vcount>3</vcount>` keeps the polylist triangles-only and leaves only its stream failed |
| GeometriesProofs.TrianglePRead | src/james/collada/lib-geometries-builder.cpp:246-260 | `<p>0 1 2</p>` appends the indices 0, 1 and 2 and leaves only its stream failed |
| GeometriesProofs.CubeClosed | src/james/collada/lib-geometries-builder.cpp:25-35 | with a triangle-only polylist that has indices and a position accessor, `</polylist>` then `</geometry>` store exactly one mesh, with that part appended |
| GeometriesProofs.CubeSourceRead | src/james/collada/lib-geometries-builder.cpp:18-160 | from the constructed builder, the geometry's start tag and the whole `<source>` element commit the float array and the accessor to the current mesh |
| GeometriesProofs.CubeTriangleRead | src/james/collada/lib-geometries-builder.cpp:162-260 | then the vertices and the polylist's input, vcount and p leave the vertices bound and the triangle read |
| GeometriesProofs.CubeStored | src/james/collada/lib-geometries-builder.cpp:25-35 | and `</polylist>` with `</geometry>` store `CUBE_MESH` under "cube" as the only mesh |
| GeometriesProofs.Cube | src/james/collada/lib-geometries-builder.cpp:18-260 | end to end: the cube document yields exactly one mesh, "cube", with six values under "pos-array", one accessor with slots 0, 1 and 2, and one part of three indices |

## Left out

- The routing inside `ExpatFacade` (`StartElement`, `EndElement`, `CharacterData`, `ListenFor`) is not part of this model.
  - Its bodies are not available, so its path stack, occurrence counting and text dispatch are not modelled.
  - The builder is driven by explicit (path, event) calls instead: `Open`, `Text`, `Close`, `Feed`.
- The Expat library, stream I/O and `LoadCollada`/`Model3d` are not modelled. They are foreign calls and I/O, and the loader discards the builder's output.
- Scan.NextFloat: `>> float` is read as an exact decimal (sign, digits, optional fraction), with no exponent, `inf`/`nan`, hexadecimal form or rounding to binary32. Floating point is out of scope.
- Scan.StrToUL: reads decimal only. It does not model the hexadecimal and octal prefixes that base 0 accepts, or the wraparound of a leading `-`.
- Scan.NextUInt: a `-` sign makes the extraction fail, where the library would wrap a negative value around. A value above `UINT_MAX` fails, as it does in the library.
- Scan.Atoi: overflow of `int` is not modelled; the value is the mathematical one.
- LibGeometries.ParamStep: `nParamsFound` and `currentIndex` are unbounded naturals. The wraparound of a 64-bit `size_t` after 2^64 params is not modelled.
- ExpatFacade.AttrIterator: the `const char**` cursor is an integer position into the array. Comparing iterators over different arrays is not modelled.
- ExpatFacade.MultimapInsert: the multimap is a map from path to the sequence of its entries. Iterator stability and the pair returned by `equal_range` are not modelled.
- ExpatFacade.Tag: callbacks are opaque values of type parameters. Invoking them is the routing's job, which is left out above.
- ColladaBuilder.CheckMaxVersion: `version.size()` counts the UTF-8 bytes of the attribute, but the model counts characters. A version with non-ASCII characters can therefore be invalid in the model and well-shaped in the source: "1.é." has five bytes and four characters.
- ColladaBuilder.CheckMaxVersion: `std::string::npos` arithmetic is replaced by `Option`. The `find_first_of(c, npos)` call is only reached when the first dot is missing, and that case is already invalid.
- GeometriesBuilder.LibGeometriesBuilder: the constructor does not register listeners with a facade. `Open`, `Text` and `Close` stand in for the registered lambdas.
