# Quad-edge topology in Dafny

This project models the core of the TypeScript quad-edge library: the Guibas–Stolfi
quad-edge structure for planar subdivisions, in its two engines, together with the exact
geometric predicates, point location and polynomial arithmetic that sit beside it.

- **Record store** (src/edge-record.ts): a dictionary from id to a record holding its
  rotation, its origin-next edge and optional data. `create`, `update` and `delete` are
  functions on the map (module `EdgeRecords`) and methods of the class `EdgeRecordStore`,
  which also keeps the insertion order that `Object.values` lists.
- **Edge views** (src/edge.ts): every navigator is a function over the link map (module
  `Edges`): `rot` and `onext` read a record, and the other nine are compositions of
  them. The four orbits are walks that stop at the first edge that comes round again.
  `OrbitOf` is the queue-and-seen-set loop of `makeOrbitIterable`. The `odata` setter
  writes the data into every record of the origin orbit.
- **Edge bag** (src/quad-edge-2.ts): `makeEdgeBag`'s closures become the class
  `EdgeBags.EdgeBag`. Its fields are the record store and the id counter. Every
  operation is a method proved to leave the state that a function of module
  `QuadEdgeBag` computes: `createEdge`, `splice`, `deleteEdge`, `concat`, `addEdge`,
  `connect`, `addPolygon`, `swap` and the `edges` listing. `toAlpha` is module
  `AlphaIds`, with its inverse.
- **Link theory**: module `QuadLinks` has what each operation does to the links alone.
  Module `QuadTables` has the link tables of lone edges. Module `QuadEdgePolygons` has
  paths and rings and their orbits. The test scenarios are modules `QuadEdgeScenarios`,
  `SwapScenario`, `QuadEdgePolygonBag` and `QuadEdgeDeletion`.
- **Object engine** (src/quad-edge.ts): edge objects with a mutable `onext` pointer and
  a data slot. Their rotation is fixed by their index in the quad array. Module
  `QuadEdgeHeap` and module `QuadEdgeHeapPolygon` hold the operations as functions on
  a value `Heap`. The class `QuadEdgeObjects.EdgeObjects` performs them in place, each
  method proved equal to its function.
- **Geometry** (src/two-d.ts, src/math.ts, src/quad-edge-2d.ts): points over exact
  reals, the determinant, `ccw` and `inCircle` as sign tests, and `rightOf`, `leftOf`
  and the bounded `locate` walk.
- **Polynomials** (src/polynomial.ts): `makePoly` with its encoding of the
  infinities, `add`, `sub`, `mult` (nested loops) and `comp` (a descending scan).

Ids are strings. The bag's ids come from its counter through `toAlpha`. The object
engine's ids are given by the caller: they stand for what `generateId` returns.

## Model

| member | source | states |
|---|---|---|
| EdgeRecords.Created | src/edge-record.ts:18-26 | the record under id carries the given id, rotation and origin-next edge and no data; every other key keeps its record |
| EdgeRecords.Updated | src/edge-record.ts:36-47 | a given onextId replaces the record's origin-next edge and given data replaces its data; an absent field keeps the stored one; id and rotation never change; every other record is unchanged; with neither field given the map is unchanged |
| EdgeRecords.UpdatedKeepsData | src/edge-record.ts:44-46 | data once set stays set: no update clears it |
| EdgeRecords.Deleted | src/edge-record.ts:55-56 | exactly the one key is gone and every other record is as it was |
| EdgeRecords.EdgeRecordStore.constructor | src/quad-edge-2.ts:128 | the dictionary starts empty, with an empty insertion order |
| EdgeRecords.EdgeRecordStore.Create | src/edge-record.ts:18-26 | the records become `Created` of the old ones; a new key goes to the end of the insertion order and a replaced key keeps its place |
| EdgeRecords.EdgeRecordStore.Update | src/edge-record.ts:36-47 | the records become `Updated` of the old ones; the order is unchanged |
| EdgeRecords.EdgeRecordStore.Delete | src/edge-record.ts:55-56 | the records become `Deleted` of the old ones and the id leaves the order, the other ids keeping theirs; deleting an absent key changes nothing |
| Edges.Rot | src/edge.ts:67-69 | the record's rotation, a live id |
| Edges.Onext | src/edge.ts:76-78 | the record's origin-next edge, a live id |
| Edges.Sym | src/edge.ts:70-72 | `rot.rot`, a live id |
| Edges.InvRot | src/edge.ts:73-75 | `rot.rot.rot`, a live id |
| Edges.Oprev | src/edge.ts:79-81 | `rot.onext.rot`, a live id |
| Edges.Dnext | src/edge.ts:85-87 | `sym.onext.sym`, a live id |
| Edges.Dprev | src/edge.ts:88-90 | `invrot.onext.invrot`, a live id |
| Edges.Lnext | src/edge.ts:94-96 | `invrot.onext.rot`, a live id |
| Edges.Lprev | src/edge.ts:97-99 | `onext.sym`, a live id |
| Edges.Rnext | src/edge.ts:103-105 | `rot.onext.invrot`, a live id |
| Edges.Rprev | src/edge.ts:106-108 | `sym.onext`, a live id |
| Edges.Next | src/edge.ts:82-111 | the step of each orbit kind: onext, dnext, lnext or rnext |
| Edges.OrbitFrom | src/edge.ts:28-47 | the walk from an edge, stopping before the first edge already met; no repeats, and none of the edges met before |
| Edges.Orbit | src/edge.ts:28-47 | the orbit starts with e, has no repeats, each edge is the step of the one before, and the step of the last edge is an edge already listed |
| Edges.WalkIsOrbit | src/edge.ts:28-47 | any sequence that starts with e, has no repeats, follows the step and ends where the step returns to it is `Orbit`: the orbit is unique |
| Edges.OrbitOf | src/edge.ts:28-47 | the queue-and-seen-set loop, drained, yields exactly `Orbit` |
| Edges.StampData | src/edge.ts:59 | one `update` of the data after another: the listed live ids carry the data when it is defined, other records keep theirs, and links never change |
| Edges.WithOriginData | src/edge.ts:58-60 | a defined value is written on every member of the origin orbit and nowhere else; undefined changes nothing; links never change |
| Edges.StampAll | src/edge.ts:59 | the loop of `update` calls leaves `StampData` of the listed ids |
| Edges.SetOdata | src/edge.ts:58-60 | the store's records become `WithOriginData` of the old ones; the store stays well formed and keeps its order |
| Edges.SetDdata | src/edge.ts:64-66 | writes through `sym.odata`: the records become `WithOriginData` of e.sym |
| Edges.IsolatedNavigation | tst/quad-edge-test-verifies.ts:3-42 | on a lone edge, onext, oprev, dnext and dprev return e, lnext, lprev, rnext and rprev return e.sym; the origin and destination orbits are [e] and the face orbits [e, e.sym] |
| Edges.Odata | src/edge.ts:55-57 | the `odata` getter reads the data of e's own record; `OdataAfterSet` relates it to the setter |
| Edges.Ddata | src/edge.ts:61-63 | the `ddata` getter is `sym.odata`: the data of e.sym's record; `DdataAfterSet` relates it to the setter |
| Edges.OdataAfterSet | src/edge.ts:55-60 | after `e.odata = v`, the getter answers v on every member of e's origin orbit and the old data everywhere else |
| Edges.DdataAfterSet | src/edge.ts:61-66 | after `e.ddata = v`, `e.ddata` answers v |
| AlphaIds.ToAlpha | src/quad-edge-2.ts:123-124 | a non-empty string of lower-case letters |
| AlphaIds.FromAlpha | src/quad-edge-2.ts:123-124 | reading a lower-case string as a bijective base-26 numeral gives a positive number for a non-empty string |
| AlphaIds.FromToAlpha | src/quad-edge-2.ts:123-124 | every positive counter value is read back from its rendering |
| AlphaIds.ToFromAlpha | src/quad-edge-2.ts:123-124 | every non-empty lower-case string is the rendering of the number it reads as |
| AlphaIds.ToAlphaInjective | src/quad-edge-2.ts:123-134 | distinct positive counter values give distinct ids, so no id is handed out twice |
| AlphaIds.ToAlphaZero | src/quad-edge-2.ts:123-127 | the value 0, which the counter starting at 1 never reaches, would collide with 26 |
| AlphaIds.ToAlphaExamples | src/quad-edge-2.ts:123-124 | 1 is "a", 26 is "z", 27 is "aa", 28 is "ab", 702 is "zz", 703 is "aaa" |
| QuadLinks.WithOnext | src/edge-record.ts:41-43 | one relink: k takes the new origin-next edge and keeps its rotation, every other entry is kept |
| QuadLinks.NewQuadLinks | src/quad-edge-2.ts:43-46 | the four new entries are added and every other entry is kept |
| QuadLinks.NewQuadIsolated | src/quad-edge-2.ts:43-47 | the first id of a new quad is a lone edge whose rot, sym and invrot are e1, e2 and e3 |
| QuadLinks.Alpha | src/quad-edge-2.ts:52-53 | `a.onext.rot`, a live id |
| QuadLinks.SpliceLinks | src/quad-edge-2.ts:51-61 | the four reads and four relinks of `splice` keep every key and every link live |
| QuadLinks.SpliceKeepsRot | src/quad-edge-2.ts:58-61 | every rotation stays |
| QuadLinks.SpliceFrame | src/quad-edge-2.ts:58-61 | only a, b, alpha and beta are written |
| QuadLinks.SpliceExchange | src/quad-edge-2.ts:54-61 | with four distinct edges, a's and b's origin-next edges are exchanged, and alpha's and beta's |
| QuadLinks.SpliceSelf | src/quad-edge-2.ts:51-61 | `splice(a, a)` changes nothing |
| QuadLinks.SpliceSwapsAlphas | src/quad-edge-2.ts:52-53 | after the splice, the alpha of b is the old alpha of a and conversely |
| QuadLinks.SpliceInvolution | src/quad-edge-2.ts:51-61 | splicing a and b twice restores every link |
| QuadLinks.SpliceAt | src/quad-edge-2.ts:58-61 | each entry keeps its rotation and takes the last value written to it, in the source's write order |
| QuadLinks.SpliceSymmetric | src/quad-edge-2.ts:51-61 | `splice(a, b)` and `splice(b, a)` leave the same links |
| QuadLinks.QuadOf | src/quad-edge-2.ts:74-80 | the set of e, e.rot, e.sym and e.invrot |
| QuadLinks.ConcatLinks | src/quad-edge-2.ts:84-86 | `splice(a.sym, b)`; keys and liveness kept |
| QuadLinks.AddEdgeLinks | src/quad-edge-2.ts:88-92 | a new quad, then `splice(a.sym, e0)`; the keys grow by the quad |
| QuadLinks.ConnectSplicesLinks | src/quad-edge-2.ts:97-98 | `splice(a.lnext, c)`, then `splice(b, c.sym)`, each navigator read when its splice is called |
| QuadLinks.ConnectLinks | src/quad-edge-2.ts:95-100 | a new quad and the two splices; the keys grow by the quad |
| QuadLinks.AddEdgesLinks | src/quad-edge-2.ts:109 | the fold of `addEdge`, the i-th with the ids of qs[i], returns the last edge added, which is live |
| QuadLinks.PolygonLinks | src/quad-edge-2.ts:108-111 | first edge, n - 2 added edges and the closing `connect`; the first edge is returned |
| QuadLinks.SwapOpenedLinks | src/quad-edge-2.ts:117-118 | `splice(e, a)`, then `splice(e.sym, b)` |
| QuadLinks.SwapClosedLinks | src/quad-edge-2.ts:119-120 | `splice(e, a.lnext)`, then `splice(e.sym, b.lnext)`, each navigator read just before its splice |
| QuadLinks.SwapLinks | src/quad-edge-2.ts:114-121 | a and b read first, then the two halves; keys and liveness kept |
| QuadLinks.IsolatedLinks | src/quad-edge-2.ts:71-72 | the two splices of the guard, e.sym and its oprev read after the first |
| QuadLinks.GuardAsWritten | src/quad-edge-2.ts:69 | the source's guard: true when e.rot.onext is not e.invrot or e.onext is not e; it never reads e.sym's or e.invrot's links (`QuadEdgeDeletion.ConcatThenDeleteAsWritten` shows the consequence) |
| QuadLinks.GuardedLinks | src/quad-edge-2.ts:69-73 | the guard's splices when the chosen guard fires, no change otherwise |
| QuadLinks.DeletedLinks | src/quad-edge-2.ts:66-82 | the guard, then the quad as it stands after it is dropped; the other keys stay |
| QuadLinks.DroppedLinked | src/quad-edge-2.ts:77-80 | dropping records is safe for navigation exactly when nothing outside them links into them |
| QuadEdgeBag.EmptyBagGood | src/quad-edge-2.ts:127-128 | the new bag, with no records, an empty order and the counter at 1, is good |
| QuadEdgeBag.Stored | src/edge-record.ts:18-26 | the record is stored and a new key goes to the end of the order |
| QuadEdgeBag.QuadStored | src/quad-edge-2.ts:43-46 | the four `createEdgeRecord` calls, in order |
| QuadEdgeBag.QuadStoredLinks | src/quad-edge-2.ts:43-46 | the links after the four stores are `NewQuadLinks` |
| QuadEdgeBag.QuadStoredRecords | src/quad-edge-2.ts:43-46 | the stored records carry their own ids and no data; every other record is kept |
| QuadEdgeBag.QuadStoredOrder | src/quad-edge-2.ts:43-46 | the four ids go to the end of the insertion order |
| QuadEdgeBag.EdgeCreated | src/quad-edge-2.ts:38-48 | four ids from the counter, the four records, e0 returned; the counter moves on by four |
| QuadEdgeBag.EdgeCreatedGood | src/quad-edge-2.ts:38-48 | `createEdge` keeps the bag good; the four ids are new and distinct and go to the end of the order; the returned edge is lone with rotations e1, e2, e3 |
| QuadEdgeBag.QuadStoredIsolated | tst/quad-edge-2.test.ts:15-22 | the stored quad is a lone edge whose rotations are e1, e2 and e3 |
| QuadEdgeBag.QuadIdsFresh | src/quad-edge-2.ts:123-134 | the next four ids of a good bag are distinct, unused and never produced again |
| QuadEdgeBag.QuadIdsNotReused | src/quad-edge-2.ts:134 | no later counter value renders to one of the four ids |
| QuadEdgeBag.Relink | src/edge-record.ts:41-43 | only the record's origin-next edge changes |
| QuadEdgeBag.Relinked | src/quad-edge-2.ts:58-61 | the four relinks in source order; no data written |
| QuadEdgeBag.RelinkedLinks | src/quad-edge-2.ts:58-61 | the links of the relinked records are `SpliceLinks` |
| QuadEdgeBag.OriginWrites | src/quad-edge-2.ts:62-63 | `b.odata = d`, then `beta.odata = x.odata` with x's data read after the first write |
| QuadEdgeBag.OriginWritesOrbits | src/quad-edge-2.ts:62-63 | the first orbit carries d where the second does not reach, the second carries x's data as it stands after the first write |
| QuadEdgeBag.OriginWritesElsewhere | src/quad-edge-2.ts:62-63 | outside the two orbits nothing changes |
| QuadEdgeBag.OriginWritesKeepData | src/quad-edge-2.ts:62-63 | the writes never clear data |
| QuadEdgeBag.Spliced | src/quad-edge-2.ts:51-64 | the four relinks, then the two origin-data writes over the orbits of the relinked records |
| QuadEdgeBag.SplicedLinks | src/quad-edge-2.ts:51-64 | the data writes leave the links of `SpliceLinks` |
| QuadEdgeBag.SplicedData | tst/quad-edge-2.test.ts:197-233 | after `splice(a, b)`, b's orbit carries a's origin data where it is defined, and beta's orbit alpha's data after that first write |
| QuadEdgeBag.SplicedDataElsewhere | src/quad-edge-2.ts:62-63 | records outside the two orbits keep their data, and no data is cleared |
| QuadEdgeBag.SplicedBag | src/quad-edge-2.ts:51-64 | only the records change, the bag stays good, and the links are `SpliceLinks` |
| QuadEdgeBag.Isolated | src/quad-edge-2.ts:71-72 | the guard's two splices on the bag |
| QuadEdgeBag.Guarded | src/quad-edge-2.ts:69-73 | the state after the chosen guard |
| QuadEdgeBag.QuadRemoved | src/quad-edge-2.ts:74-80 | the four `deleteEdgeRecord` calls for ids read before the first of them |
| QuadEdgeBag.EdgeDeleted | src/quad-edge-2.ts:66-82 | the guard, then the removal of the quad as it stands after it; e returned |
| QuadEdgeBag.EdgeDeletedLinks | src/quad-edge-2.ts:66-82 | the links left are `DeletedLinks` |
| QuadEdgeBag.EdgeDeletedSound | src/quad-edge-2.ts:66-82 | the bag stays sound, and exactly the four records of e's quad after the guard go |
| QuadEdgeBag.EdgeDeletedGood | src/quad-edge-2.ts:66-82 | the bag stays good exactly when, after the guard, nothing outside e's quad links into it |
| QuadEdgeBag.EdgeCreatedLinks | src/quad-edge-2.ts:38-48 | every record is kept and the quad of `NewQuadLinks` is added |
| QuadEdgeBag.Concatenated | src/quad-edge-2.ts:84-86 | `splice(a.sym, b)` on the bag; the bag stays good |
| QuadEdgeBag.EdgeAdded | src/quad-edge-2.ts:88-92 | `createEdge`, then `splice(a.sym, b)`; b returned |
| QuadEdgeBag.EdgeAddedIds | src/quad-edge-2.ts:88-92 | the returned edge is the first id drawn, and the four new ids end the order |
| QuadEdgeBag.EdgeAddedLinks | src/quad-edge-2.ts:88-92 | the links are `AddEdgeLinks` with the counter's next four ids |
| QuadEdgeBag.ConnectSplices | src/quad-edge-2.ts:97-98 | the two splices on the bag; the bag stays good |
| QuadEdgeBag.Connected | src/quad-edge-2.ts:95-100 | `createEdge` and the two splices; c returned |
| QuadEdgeBag.ConnectedIds | src/quad-edge-2.ts:95-100 | the returned edge is the first id drawn, and the four new ids end the order |
| QuadEdgeBag.ConnectedLinks | src/quad-edge-2.ts:95-100 | the links are `ConnectLinks` with the counter's next four ids |
| QuadEdgeBag.EdgesAdded | src/quad-edge-2.ts:109 | k `addEdge` calls each on the edge the previous one returned; the bag stays good |
| QuadEdgeBag.PolygonClosed | src/quad-edge-2.ts:109-110 | the fold, then `connect(penultimate, first)` |
| QuadEdgeBag.PolygonAdded | src/quad-edge-2.ts:102-112 | nothing for n below 2; otherwise first edge, fold and closing `connect`, and the first edge returned |
| QuadEdgeBag.InnerEdges | src/quad-edge-2.ts:109 | n - 2 for n of at least 2 |
| QuadEdgeBag.PolygonAddedFails | src/quad-edge-2.ts:105-107 | `addPolygon(n)` fails exactly when n is below 2 |
| QuadEdgeBag.SwapOpened | src/quad-edge-2.ts:117-118 | the first half of `swap` on the bag; the bag stays good |
| QuadEdgeBag.SwapClosed | src/quad-edge-2.ts:119-120 | the second half of `swap` on the bag; the bag stays good |
| QuadEdgeBag.Swapped | src/quad-edge-2.ts:114-121 | a and b read first, then the two halves; keys and order kept, links those of `SwapLinks` |
| EdgeBags.EdgeBag.constructor | src/quad-edge-2.ts:126-128 | the state is `EmptyBag`, which is good |
| EdgeBags.EdgeBag.Edges | src/quad-edge-2.ts:143-145 | every live record once, in insertion order, each under its own id |
| EdgeBags.EdgeBag.NextId | src/quad-edge-2.ts:134 | returns `toAlpha` of the counter and moves the counter on by one |
| EdgeBags.EdgeBag.CreateEdge | src/quad-edge-2.ts:38-48 | the state becomes `EdgeCreated` of the old one, which is good, and the returned edge is lone |
| EdgeBags.EdgeBag.Splice | src/quad-edge-2.ts:51-64 | the state becomes `Spliced` of the old one, which is good |
| EdgeBags.EdgeBag.Isolate | src/quad-edge-2.ts:69-73 | the state becomes `Guarded` of the old one with the chosen guard |
| EdgeBags.EdgeBag.DeleteEdge | src/quad-edge-2.ts:66-82 | with the source's guard: the state becomes `EdgeDeleted` of the old one, e is returned, and the bag stays good exactly when nothing outside e's quad links into it after the guard |
| EdgeBags.EdgeBag.DeleteEdgeCorrected | src/quad-edge-2.ts:69-73 | the same with the guard that also looks at e.sym and e.invrot |
| EdgeBags.EdgeBag.Concat | src/quad-edge-2.ts:84-86 | the state becomes `Concatenated` of the old one |
| EdgeBags.EdgeBag.AddEdge | src/quad-edge-2.ts:88-92 | the state and the result are `EdgeAdded` of the old state |
| EdgeBags.EdgeBag.Connect | src/quad-edge-2.ts:95-100 | the state and the result are `Connected` of the old state |
| EdgeBags.EdgeBag.AddEdges | src/quad-edge-2.ts:109 | the state and the result are `EdgesAdded` of the old state |
| EdgeBags.EdgeBag.AddPolygon | src/quad-edge-2.ts:102-112 | None and no change when n is below 2; otherwise the state and the result are `PolygonAdded` of the old state |
| EdgeBags.EdgeBag.Swap | src/quad-edge-2.ts:114-121 | the state becomes `Swapped` of the old one, which is good |
| EdgeBags.EdgeBag.SwapOpen | src/quad-edge-2.ts:117-118 | the state becomes `SwapOpened` of the old one |
| EdgeBags.EdgeBag.SwapClose | src/quad-edge-2.ts:119-120 | the state becomes `SwapClosed` of the old one |
| QuadTables.LoneIsolated | src/quad-edge-2.ts:43-46 | a quad with four distinct ids in the links of a lone edge is `IsolatedQuad`, with rot, sym and invrot e1, e2 and e3 |
| QuadTables.SpliceEntries | src/quad-edge-2.ts:51-61 | entry by entry: rotations stay, the four origin-next links are exchanged, every other entry is kept |
| QuadTables.NewQuadLone | src/quad-edge-2.ts:43-46 | a new quad is lone and quads sharing no id with it keep their links |
| QuadTables.SpliceElsewhere | src/quad-edge-2.ts:58-61 | a quad none of whose ids a splice writes keeps its links |
| QuadEdgeDeletion.EdgeDeletedOrder | src/quad-edge-2.ts:74-80 | `deleteEdge` takes the four ids out of the order and keeps the others in place |
| QuadEdgeDeletion.IsolatedQuiet | src/quad-edge-2.ts:69 | neither guard fires on a lone edge |
| QuadEdgeDeletion.QuietIffLone | src/quad-edge-2.ts:69 | a quad is lone exactly when the corrected guard stays quiet on it |
| QuadEdgeDeletion.LoneDetached | src/quad-edge-2.ts:77-80 | where no two records share a link, nothing outside a lone edge links into it |
| QuadEdgeDeletion.DeleteLone | src/quad-edge-2.ts:66-82 | deleting a lone edge removes exactly its quad, and the links left are live when nothing else links into it |
| QuadEdgeDeletion.EdgeCreatedDeleted | src/quad-edge-2.ts:38-82 | `createEdge` then `deleteEdge` gives back the records and the order |
| QuadEdgeDeletion.DeletesAnEdge | tst/quad-edge-2.test.ts:59-66 | an edge created in a new bag and deleted leaves no records and an empty listing |
| QuadEdgeDeletion.LoopFirstSplice | src/quad-edge-2.ts:71 | on a loop p, q, the first guard splice takes q out of p.sym's origin ring |
| QuadEdgeDeletion.LoopSecondSplice | src/quad-edge-2.ts:72 | the second guard splice takes q.sym out of p's origin ring, leaving both lone |
| QuadEdgeDeletion.LoopIsolated | src/quad-edge-2.ts:69-72 | on a ring of two edges both guards fire on q and leave p and q lone |
| QuadEdgeDeletion.BothFire | src/quad-edge-2.ts:69 | where the source's guard fires, the corrected one does too |
| QuadEdgeDeletion.LoopGuarded | src/quad-edge-2.ts:69-73 | either guard fires on q and leaves p and q lone |
| QuadEdgeDeletion.LoopDeletedLinks | src/quad-edge-2.ts:74-80 | after the guard, q's quad is its own four ids |
| QuadEdgeDeletion.LoopRemoved | src/quad-edge-2.ts:66-82 | p stays lone after q's quad goes, when nothing outside q linked into it |
| QuadEdgeDeletion.LoopDeleted | src/quad-edge-2.ts:66-82 | on the bag: q's four records go, the order of the rest is kept, and p is lone when the bag stays good |
| QuadEdgeDeletion.DeleteSplicedPartner | tst/quad-edge-2.test.ts:68-77 | after `splice(a, b)` of two lone edges, `deleteEdge(b)` undoes the splice and removes b's quad |
| QuadEdgeDeletion.SplicedPartnerIsolated | src/quad-edge-2.ts:71-72 | the guard's first splice undoes `splice(a, b)` and its second splices b.sym with itself |
| QuadEdgeDeletion.LoneKept | src/quad-edge-2.ts:77-80 | a lone edge nothing else links into survives the removal of another quad |
| QuadEdgeDeletion.SplicedPartnerDeleted | tst/quad-edge-2.test.ts:68-77 | on the bag: good, a lone again, the listing loses b's ids and keeps order |
| QuadEdgeDeletion.FirstCreated | tst/quad-edge-2.test.ts:87-92 | an edge created in an empty bag is lone and its ids are all the bag lists |
| QuadEdgeDeletion.TwoCreated | src/quad-edge-2.ts:38-48 | two edges created in an empty bag are lone, own their ids, share none, and are all the bag holds |
| QuadEdgeDeletion.SplicedPairDeleted | tst/quad-edge-2.test.ts:102-111 | create a and b, splice, delete b: the bag is good, a lone, and `edges` lists a's four ids |
| QuadEdgeDeletion.ConcatThenDeleteAsWritten | src/quad-edge-2.ts:69 | after `concat(a, b)`, the source's guard stays quiet on a, and b's origin-next link is left on a dropped id |
| QuadEdgeDeletion.ConcatPartnerDeletedAsWritten | src/quad-edge-2.ts:69 | on the bag: the bag is no longer good, because b links to a.sym, whose record is gone |
| QuadEdgeDeletion.ConcatPairDeletedAsWritten | src/quad-edge-2.ts:69 | from an empty bag: create a and b, concat, delete a, and the bag is not good |
| QuadEdgeDeletion.ConcatIsolated | src/quad-edge-2.ts:71-72 | the corrected guard's splices on a after the concat give back the links before it |
| QuadEdgeDeletion.ConcatThenDeleteCorrected | src/quad-edge-2.ts:69-80 | with the corrected guard, the concat is undone and exactly a's quad removed |
| QuadEdgeDeletion.ConcatPartnerDeleted | src/quad-edge-2.ts:69-80 | with the corrected guard the bag stays good, b is lone and the listing loses a's ids |
| QuadEdgeDeletion.ConcatPairDeleted | src/quad-edge-2.ts:69-80 | from an empty bag with the corrected guard, `edges` lists b's four ids |
| QuadEdgePolygons.ExtendPath | src/quad-edge-2.ts:88-91 | a new quad next to a path, spliced at last.sym, extends the path |
| QuadEdgePolygons.AddEdgePath | src/quad-edge-2.ts:88-92 | `addEdge(last)` extends a path by the new quad |
| QuadEdgePolygons.AddEdgesPath | src/quad-edge-2.ts:109 | the fold extends a path by one edge per quad and returns the last |
| QuadEdgePolygons.JoinEnds | src/quad-edge-2.ts:90 | `splice(a.sym, b)` joins b's origin ring to a's destination ring |
| QuadEdgePolygons.JoinStartToEnd | src/quad-edge-2.ts:98 | `splice(a, b.sym)` joins a's origin ring and b's destination ring |
| QuadEdgePolygons.ClosePath | src/quad-edge-2.ts:95-100 | `connect(last, first)` extends a path by the new quad and closes it into a ring |
| QuadEdgePolygons.CloseRing | src/quad-edge-2.ts:98 | the closing splice turns a path of at least two edges into a ring |
| QuadEdgePolygons.PolygonPath | src/quad-edge-2.ts:108-109 | the first edge and the fold form a path of all quads but the last |
| QuadEdgePolygons.PolygonRing | src/quad-edge-2.ts:102-112 | `addPolygon(n)` builds the ring of its n quads |
| QuadEdgePolygons.RingNavigation | src/edge.ts:79-108 | every navigator of a ring edge, in terms of the previous and next edge |
| QuadEdgePolygons.RingOriginOrbit | src/edge.ts:82-84 | the origin orbit of a ring edge is it and the previous edge's sym |
| QuadEdgePolygons.RingDestinationOrbit | src/edge.ts:91-93 | the destination orbit is it and the next edge's sym |
| QuadEdgePolygons.RingLeftOrbit | src/edge.ts:100-102 | the left orbit of the first edge is every ring edge, in order |
| QuadEdgePolygons.RingRightOrbit | src/edge.ts:109-111 | the right orbit of the first edge is every ring edge, in reverse |
| QuadEdgePolygons.RingRotated | src/quad-edge-2.ts:102-112 | a ring started at any edge is a ring |
| QuadEdgePolygons.RingLeftOrbitAt | src/edge.ts:100-102 | every ring edge's left orbit is the whole ring from it |
| QuadEdgePolygons.RingRightOrbitAt | src/edge.ts:109-111 | every ring edge's right orbit is the whole ring backwards from it |
| QuadEdgePolygonSteps.EdgesAddedQuads | src/quad-edge-2.ts:109 | the k `addEdge` calls draw k separate new quads, and the links are the fold over them |
| QuadEdgePolygonSteps.PolygonClosedQuads | src/quad-edge-2.ts:109-110 | the fold and the closing `connect` draw separate new quads, with the links of the fold and `ConnectLinks` |
| QuadEdgePolygonSteps.PolygonAddedUnfold | src/quad-edge-2.ts:108-111 | the result of `addPolygon(n)` is the first edge, the bag after the fold and the connect |
| QuadEdgePolygonBag.PolygonAddedQuads | src/quad-edge-2.ts:102-112 | there are n separate new quads, the first carrying the edge returned, and the links are `PolygonLinks` over them |
| QuadEdgePolygonBag.PolygonAddedRing | src/quad-edge-2.ts:102-112 | the result is a ring of n new edges whose left orbit is exactly their first edges, in order |
| QuadEdgePolygonBag.PolygonAddedLoop | tst/quad-edge-2.test.ts:149-154 | `addPolygon(2)` satisfies verifyLoop |
| QuadEdgePolygonBag.PolygonAddedTriangle | tst/quad-edge-2.test.ts:156-161 | `addPolygon(3)` satisfies verifyTriangle |
| QuadEdgePolygonBag.PolygonAddedSquare | tst/quad-edge-2.test.ts:163-169 | `addPolygon(4)` satisfies verifySquare |
| QuadEdgeScenarios.SpliceLoneEdges | tst/quad-edge-2.test.ts:25-33 | splicing two lone edges puts them in one origin ring and leaves their destinations alone |
| QuadEdgeScenarios.SpliceLoneEdgesTwice | tst/quad-edge-2.test.ts:35-44 | splicing them twice leaves both lone |
| QuadEdgeScenarios.SplicePyramidTop | tst/quad-edge-2.test.ts:46-56 | `splice(a, b)` then `splice(b, c)` puts three lone edges in one origin ring a, b, c |
| QuadEdgeScenarios.PyramidTopTable | tst/quad-edge-test-verifies.ts:78-118 | that table satisfies verifyPyramidTop |
| QuadEdgeScenarios.ConcatLoneEdges | tst/quad-edge-2.test.ts:115-123 | `concat(a, b)` makes the line a, b |
| QuadEdgeScenarios.AddEdgeToLoneEdge | tst/quad-edge-2.test.ts:126-134 | `addEdge(a)` makes the line a, b |
| QuadEdgeScenarios.RingCorner | tst/quad-edge-test-verifies.ts:154-214 | every edge of a ring is a corner of its polygon |
| QuadEdgeScenarios.RingLoop | tst/quad-edge-test-verifies.ts:216-264 | a ring of two edges satisfies verifyLoop |
| QuadEdgeScenarios.RingTriangle | tst/quad-edge-test-verifies.ts:154-214 | a ring of three edges satisfies verifyTriangle |
| QuadEdgeScenarios.RingSquare | tst/quad-edge-test-verifies.ts:266-339 | a ring of four edges satisfies verifySquare |
| QuadEdgeScenarios.PolygonLoop | tst/quad-edge-2.test.ts:149-154 | `addPolygon(2)` makes a loop e, e.lnext |
| QuadEdgeScenarios.PolygonTriangle | tst/quad-edge-2.test.ts:156-161 | `addPolygon(3)` makes a triangle |
| QuadEdgeScenarios.PolygonSquare | tst/quad-edge-2.test.ts:163-169 | `addPolygon(4)` makes a square |
| QuadEdgeScenarios.ConnectTriangle | tst/quad-edge-2.test.ts:137-146 | `addEdge(a)` then `connect(b, a)` makes the triangle a, b, c |
| SwapScenario.SquareConnected | tst/quad-edge-2.test.ts:172-178 | `connect(a, d)` on the square adds the diagonal e |
| SwapScenario.SwapFirstSplice | src/quad-edge-2.ts:117 | `splice(e, e.oprev)` with e.oprev = b |
| SwapScenario.SwapSecondSplice | src/quad-edge-2.ts:118 | `splice(e.sym, d)` leaves e lone and the square as before `connect` |
| SwapScenario.SwapThirdSplice | src/quad-edge-2.ts:119 | `splice(e, b.lnext)` with b.lnext = c |
| SwapScenario.SwapFourthSplice | src/quad-edge-2.ts:120 | `splice(e.sym, d.lnext)` with d.lnext = a |
| SwapScenario.DiagonalOpened | src/quad-edge-2.ts:117-118 | the first half takes the diagonal out of the square |
| SwapScenario.OtherDiagonalClosed | src/quad-edge-2.ts:119-120 | the second half puts e back as the other diagonal |
| SwapScenario.DiagonalSwapped | src/quad-edge-2.ts:114-121 | `swap(e)` turns the diagonal from b-d to c-a |
| SwapScenario.PolygonDiagonal | tst/quad-edge-2.test.ts:172-178 | `addPolygon(4)` then `connect(a, d)` is the square with diagonal e |
| SwapScenario.DiagonalBeforeSwap | tst/quad-edge-2.test.ts:180-184 | before the swap e has the orbits [e, a.sym, b], [e, c, d.sym], [e, d, a], [e, b.sym, c.sym] |
| SwapScenario.DiagonalAfterSwap | tst/quad-edge-2.test.ts:186-192 | after the swap e has the orbits [e, b.sym, c], [e, d, a.sym], [e, a, b], [e, c.sym, d.sym] |
| QuadEdgeHeap.Slots | src/quad-edge.ts:164-168 | the quad array in index order |
| QuadEdgeHeap.Org | src/quad-edge.ts:67-69 | the `org` getter reads e's data slot; `EdgeMadeLone` states what `makeEdge` leaves there |
| QuadEdgeHeap.Dest | src/quad-edge.ts:77-79 | the `dest` getter is `sym.org`: the data slot of e.sym |
| QuadEdgeHeap.IndexRule | src/quad-edge.ts:83-91 | rot, sym and invrot of quad[i] are quad[(i + 1) % 4], quad[(i + 2) % 4] and quad[(i + 3) % 4] |
| QuadEdgeHeap.EdgeMade | src/quad-edge.ts:163-176 | the objects stay sound and grow by the quad |
| QuadEdgeHeap.EdgeMadeLone | src/quad-edge.ts:163-176 | a new edge is lone, from org to dest, e1 and e3 unset, and every older object keeps its pointer and data |
| QuadEdgeHeap.Spliced | src/quad-edge.ts:186-198 | only links change; the objects stay sound |
| QuadEdgeHeap.SplicedTwice | src/quad-edge.ts:186-198 | splicing twice undoes a splice of four distinct edges, and the argument order does not matter |
| QuadEdgeHeap.Deleted | src/quad-edge.ts:200-203 | the two splices; the objects stay sound and none is freed |
| QuadEdgeHeap.EdgeAdded | src/quad-edge.ts:215-219 | a new edge from e0's destination to t, spliced at e0.sym |
| QuadEdgeHeap.Connected | src/quad-edge.ts:240-245 | a new edge from a's destination to b's origin, spliced at a.lnext and b |
| QuadEdgeHeap.EdgeAddedIsAddEdge | src/quad-edge.ts:215-219 | the links are those of the bag's `addEdge` |
| QuadEdgeHeap.EdgeAddedData | src/quad-edge.ts:215-219 | the new edge runs from e0's destination to t and no other data slot changes |
| QuadEdgeHeap.EdgeAddedLinks | tst/quad-edge.test.ts:349-354 | with fresh objects, the links of the bag's `addEdge` and the new edge from e0's destination to t |
| QuadEdgeHeap.ConnectedLinks | src/quad-edge.ts:240-245 | the links of the bag's `connect`, and the new edge from a's destination to b's origin |
| QuadEdgeHeap.Subdivided | src/quad-edge.ts:205-213 | three new edges and three splices; the objects grow by the three quads |
| QuadEdgeHeap.EdgeMadeKeeps | src/quad-edge.ts:163-176 | a new quad leaves a lone edge it shares no id with lone, with its data |
| QuadEdgeHeap.SubdivisionRing | src/quad-edge.ts:209-211 | the three splices join three lone edges into a ring |
| QuadEdgeHeap.SubdivisionTriangle | src/quad-edge.ts:205-213 | `subdivision(a, b, c)` makes the triangle e_a, e_b, e_c from a to b, b to c and c to a |
| QuadEdgeHeap.SubdividedRing | src/quad-edge.ts:205-213 | the links are that ring and the data those the three `makeEdge` calls wrote |
| QuadEdgeHeap.DeleteUndoesSplice | src/quad-edge.ts:200-203 | `deleteEdge(b)` after `splice(a, b)` of lone edges gives both back lone, data unchanged |
| QuadEdgeHeap.DeletedLoop | tst/quad-edge.test.ts:393-400 | `deleteEdge(q)` on a ring of two edges leaves both lone, data unchanged |
| QuadEdgeHeap.DeleteUndoesAddEdge | src/quad-edge.ts:200-219 | `deleteEdge` of the edge `addEdge` made gives back the chain and a lone new edge |
| QuadEdgeHeap.ConnectCloses | tst/quad-edge.test.ts:357-364 | `addEdge(a, t)` then `connect(b, a)` closes the triangle a, b, c, with c from t to a's origin |
| QuadEdgeHeap.AddedThenConnected | src/quad-edge.ts:215-245 | the links are those of the bag's `addEdge` then `connect` |
| QuadEdgeHeapPolygon.AddedAll | src/quad-edge.ts:226 | the `reduce(addEdge, cur)` fold; the last edge added is returned and live |
| QuadEdgeHeapPolygon.AddedAllLinks | src/quad-edge.ts:226 | the links are those of the bag's fold of `addEdge` |
| QuadEdgeHeapPolygon.AddedAllData | src/quad-edge.ts:226 | the fold's data as `FoldData` says, and a quad it does not draw left alone |
| QuadEdgeHeapPolygon.PolygonAsWritten | src/quad-edge.ts:221-229 | None exactly for fewer than two values; otherwise the first edge is returned and live |
| QuadEdgeHeapPolygon.PolygonAsWrittenRing | src/quad-edge.ts:225-227 | `polygon(ts)` as written draws the ring of its quads |
| QuadEdgeHeapPolygon.PolygonAsWrittenEdges | src/quad-edge.ts:225-227 | its edges run ts[0] to ts[1], ts[1] to ts[1], then ts[j - 1] to ts[j] |
| QuadEdgeHeapPolygon.ClosedEdges | src/quad-edge.ts:227 | the closing splice changes no data |
| QuadEdgeHeapPolygon.PolygonAsWrittenBreaks | src/quad-edge.ts:226-227 | its second edge is a loop at ts[1], and with ts[0] and ts[n - 1] apart the face does not close at a vertex |
| QuadEdgeHeapPolygon.PolygonMade | src/quad-edge.ts:221-229 | the corrected `polygon`: None exactly for fewer than two values; otherwise the first edge is returned |
| QuadEdgeHeapPolygon.PolygonMadeLinks | src/quad-edge.ts:221-229 | the corrected `polygon` draws the ring of `addPolygon` |
| QuadEdgeHeapPolygon.PolygonMadeEdges | src/quad-edge.ts:221-229 | edge j of the corrected `polygon` runs from ts[j] to ts[j + 1], the last back to ts[0] |
| QuadEdgeHeapPolygon.PolygonMadeFace | src/quad-edge.ts:221-229 | the corrected `polygon` draws the polygon through ts and its left face is the whole ring |
| QuadEdgeHeapPolygon.ConnectedData | src/quad-edge.ts:240-245 | the new edge of `connect` runs from a's destination to b's origin |
| QuadEdgeHeapPolygon.PolygonLoopDeleted | tst/quad-edge.test.ts:393-400 | `polygon([t0, t1])` then `deleteEdge` of its second edge leaves both edges lone |
| QuadEdgeObjects.EdgeObjects.constructor | src/quad-edge.ts:163-176 | no object made yet |
| QuadEdgeObjects.EdgeObjects.MakeEdge | src/quad-edge.ts:163-176 | the state becomes `EdgeMade` of the old one and quad[0] is returned |
| QuadEdgeObjects.EdgeObjects.Splice | src/quad-edge.ts:186-198 | the four reads then four writes leave `Spliced` of the old state |
| QuadEdgeObjects.EdgeObjects.DeleteEdge | src/quad-edge.ts:200-203 | the state becomes `Deleted` of the old one |
| QuadEdgeObjects.EdgeObjects.Subdivision | src/quad-edge.ts:205-213 | the state becomes `Subdivided` of the old one and e_a is returned |
| QuadEdgeObjects.EdgeObjects.AddEdge | src/quad-edge.ts:215-219 | the state becomes `EdgeAdded` of the old one and the new edge is returned |
| QuadEdgeObjects.EdgeObjects.Polygon | src/quad-edge.ts:221-229 | no change and None for fewer than two values; otherwise the state and result of `PolygonAsWritten` |
| QuadEdgeObjects.EdgeObjects.PolygonCorrected | src/quad-edge.ts:221-229 | the same for `PolygonMade` |
| QuadEdgeObjects.EdgeObjects.Connect | src/quad-edge.ts:240-245 | the state becomes `Connected` of the old one and the new edge is returned |
| TwoD.Equals | src/two-d.ts:23 | true exactly when both coordinates agree, which is value equality |
| TwoD.Minus | src/two-d.ts:24 | the componentwise difference; the origin exactly when the points are equal |
| TwoD.EqualsIsEquivalence | src/two-d.ts:23 | `equals` is reflexive, symmetric and transitive |
| TwoD.MinusIdentities | src/two-d.ts:24 | p - p is the origin, p - origin is p, and subtraction is undone by subtracting the negation |
| GeoMath.Determinant3x3 | src/math.ts:5-6 | the Sarrus expansion equals the cofactor expansion along the first row |
| GeoMath.DeterminantRowSwap | src/math.ts:5-6 | exchanging two rows negates the determinant |
| GeoMath.Ccw | src/math.ts:11-16 | true exactly when the homogeneous determinant, equivalently the cross product, is at most zero |
| GeoMath.InCircle | src/math.ts:21-35 | true exactly when the lifted determinant of a - d, b - d and c - d is at most zero, so it depends on those differences alone |
| GeoMath.CcwSwap | src/math.ts:11-16 | both orders of b and c are `ccw` exactly for collinear points; otherwise exactly one is |
| GeoMath.CcwRotation | src/math.ts:11-16 | `ccw` is invariant under cyclic rotation |
| GeoMath.CcwTranslation | src/math.ts:11-16 | `ccw` is invariant under a common translation |
| GeoMath.CcwExamples | tst/math.test.ts:8-14 | (0,0), (0,1), (1,0) is `ccw` and (0,0), (1,0), (0,1) is not |
| GeoMath.InCircleDetIsLifted | src/math.ts:22-34 | the determinant depends on the three differences alone |
| GeoMath.InCircleTranslation | src/math.ts:22-34 | a common translation of all four points leaves `inCircle` unchanged |
| GeoMath.InCircleRotation | src/math.ts:28-34 | a cyclic rotation of a, b, c leaves it unchanged; exchanging two corners negates the determinant |
| GeoMath.InCircleAtCorner | src/math.ts:22-34 | a corner of the triangle counts as inside |
| GeoMath.UnitTriangleDet | src/math.ts:22-34 | the lifted determinant of the unit triangle (0,0), (1,0), (0,1) and its centre (0.5, 0.5) is 0.5 |
| GeoMath.UnitTriangleDetSwapped | src/math.ts:22-34 | with two corners listed the other way round, (0,0), (0,1), (1,0), the determinant is -0.5 |
| GeoMath.InCircleUnitTriangle | src/math.ts:34 | listed (0,0), (1,0), (0,1) the centre tests outside; listed in `ccw` order it tests inside |
| QuadEdge2D.RightOf | src/quad-edge-2d.ts:5 | false without both endpoints; otherwise `ccw(x, dest, org)` |
| QuadEdge2D.LeftOf | src/quad-edge-2d.ts:7 | false without both endpoints; otherwise `ccw(x, org, dest)` |
| QuadEdge2D.RightOrLeft | src/quad-edge-2d.ts:5-7 | with both endpoints, x is on at least one side, on both exactly when collinear |
| QuadEdge2D.NoSideWithoutEnds | src/quad-edge-2d.ts:5-7 | without both endpoints, x is on neither side |
| QuadEdge2D.LeftOfIsRightOfSym | src/quad-edge-2d.ts:5-7 | left of e is right of e.sym when e.sym.sym is e |
| QuadEdge2D.LocateStep | src/quad-edge-2d.ts:21-37 | the branches of one pass in source order, including the move to the start edge's sym |
| QuadEdge2D.Walk | src/quad-edge-2d.ts:12-40 | the answer after the given passes, undefined once they run out |
| QuadEdge2D.Locate | src/quad-edge-2d.ts:9-40 | at most eleven passes; undefined when an endpoint of e has no point; e when x is one of its endpoints; any answer is an edge it may stop at |
| QuadEdge2D.StuckOnSym | src/quad-edge-2d.ts:26-28 | on e.sym with x right of it, every pass returns there until the passes run out |
| QuadEdge2D.CollinearNotLocated | src/quad-edge-2d.ts:26-28 | a point on e's line, at neither endpoint, is never located from e |
| QuadEdge2D.TextbookStep | src/quad-edge-2d.ts:21-37 | the step that moves to cur.sym; otherwise the source's branches |
| QuadEdge2D.TextbookWalk | src/quad-edge-2d.ts:12-40 | the walk with the textbook step under the same bound |
| QuadEdge2D.TextbookPingPong | src/quad-edge-2d.ts:26-28 | a point right of both e and e.sym sends the textbook walk back and forth until the passes run out |
| QuadEdge2D.WalkIsTextbookFrom | src/quad-edge-2d.ts:26-28 | from any edge the walk can stand on, the source's walk and the textbook walk agree |
| QuadEdge2D.LocateIsTextbook | src/quad-edge-2d.ts:9-40 | `locate` answers what the textbook walk answers, for every point and start edge |
| Polynomials.Replicate | src/polynomial.ts:17-18 | n copies of v, none when n is not positive |
| Polynomials.ZipWith | src/polynomial.ts:19 | position by position, up to the shorter sequence |
| Polynomials.Add | src/polynomial.ts:16-20 | length the longer input, coefficient k the sum of the zero-padded coefficients |
| Polynomials.Sub | src/polynomial.ts:22-26 | length the longer input, coefficient k the difference of the zero-padded coefficients |
| Polynomials.AddCommutative | src/polynomial.ts:16-20 | `add(a, b) == add(b, a)` |
| Polynomials.SubThenAdd | src/polynomial.ts:16-26 | `add(sub(a, b), b)` is a padded to the longer length |
| Polynomials.SubSelf | src/polynomial.ts:22-26 | `sub(a, a)` has only zero coefficients |
| Polynomials.AddSubExamples | tst/polynomial.test.ts:4-33 | the expected sums and differences of the tests |
| Polynomials.ConvByConstant | src/polynomial.ts:28-36 | multiplying by [c] scales every coefficient |
| Polynomials.Mult | src/polynomial.ts:28-36 | its length is the sum of the input lengths less one (0 when both are empty), and coefficient k is the sum of a[i] * b[j] over i + j == k, by the nested loops |
| Polynomials.MultExample | tst/polynomial.test.ts:36-40 | [1, 2, 4] times [5, 0, 10, 6] is [5, 10, 30, 26, 52, 24] |
| Polynomials.HighestNonzero | src/polynomial.ts:40-46 | the highest index of a nonzero coefficient, or -1 |
| Polynomials.HighestNonzeroUnique | src/polynomial.ts:40-46 | any index with those properties is `HighestNonzero` |
| Polynomials.Comp | src/polynomial.ts:38-48 | the descending scan answers the sign of the highest nonzero coefficient of `sub(a, b)`, or 0 |
| Polynomials.CompSelf | src/polynomial.ts:38-48 | `comp(a, a) == 0` |
| Polynomials.CompAntisymmetric | src/polynomial.ts:38-48 | `comp(a, b) == -comp(b, a)` |
| Polynomials.MakePoly | src/polynomial.ts:5-14 | a finite x is the constant polynomial [x]; an infinity is a polynomial of length 2 with no constant part whose leading sign is the sign of the infinity |
| Polynomials.CompMakePoly | src/polynomial.ts:5-48 | `makePoly` encodes -infinity as [0, -1], +infinity as [0, 1] and a finite x as [x], and on those encodings `comp` answers the order of the extended reals |

## Left out

- EdgeRecords.Updated, EdgeRecords.EdgeRecordStore.Update: require the id to be present. The source assigns a field of `edges[id]` and throws a TypeError when the id is missing and a field is given (src/edge-record.ts:42,45). That error path is not modelled.
- EdgeRecords.Created: the `canonicalId` field (src/edge-record.ts:3,11,20,24) is dropped. `createEdge` never passes one (src/quad-edge-2.ts:43-46), so it is always undefined.
- Edges.Rot, Edges.Onext, Edges.Sym, Edges.InvRot, Edges.Oprev, Edges.Dnext, Edges.Dprev, Edges.Lnext, Edges.Lprev, Edges.Rnext, Edges.Rprev: require `Linked`, which says every link of every record is live. The source fails only when the one record it reads is gone (src/edge.ts:68,77). A navigation that never reaches a dead link elsewhere in the map is outside their domain.
- EdgeBags.EdgeBag: every method requires the bag invariant `Valid()`. The as-written `DeleteEdge` states when it keeps it. A bag it leaves with a dangling link is outside the domain of further calls, where the source fails only when navigation reaches the dead link.
- Edges: `olorbit` and `drorbit` (src/edge.ts:112-117) are not modelled. They walk two navigators at once through the same queue.
- Edges: `toJSON` and `toString` (src/edge.ts:118-138) and the old engine's `toJSON` are display helpers and are not modelled.
- QuadEdgeBag.PolygonAdded, EdgeBags.EdgeBag.AddPolygon: return None and leave the bag unchanged where the source throws an `Error` for n below 2 (src/quad-edge-2.ts:105-107).
- QuadEdgeHeapPolygon.PolygonAsWritten, QuadEdgeHeapPolygon.PolygonMade, QuadEdgeObjects.EdgeObjects.Polygon: return None where the source throws for fewer than two values (src/quad-edge.ts:222-224).
- QuadEdgeHeap, QuadEdgeObjects.EdgeObjects: the ids of new objects are parameters (a `Quad` per `makeEdge`). They stand for `generateId` of ts-core, which is not part of this model. `MakeEdge` does not require them to be new; with a reused id it overwrites that object, which `generateId` never makes happen.
- QuadEdgeObjects.EdgeObjects: objects are named by their ids, so two objects are the same exactly when their ids are. Object identity beyond that is not modelled, and neither is the `quad` array each object closes over. Its index rule is `IndexRule`.
- QuadEdgeHeap: the old engine's `org`/`dest` setters (src/quad-edge.ts:70-82) and its orbit getters (src/quad-edge.ts:123-158) are not modelled as separate members. The setters write one slot, as `makeEdge` does. The getters walk the same links as `Edges.Orbit`, and their listing order comes from `Object.values` over ids that `generateId` chooses.
- QuadEdgeHeap: the test "makes an isolated edge and line from a triangle" (tst/quad-edge.test.ts:402-411) is not proved. The test "makes two isolated edges from a loop" is proved as `DeletedLoop` and `PolygonLoopDeleted`.
- TwoD, GeoMath, QuadEdge2D, Polynomials: JavaScript numbers are exact reals here. Rounding, NaN and the infinities of the geometry layer are not modelled. `makePoly`'s infinities are a datatype case of its argument.
- TwoD: `norm` and `makeLine` (src/two-d.ts:20-22,34-46) use square roots and division, and are not modelled.
- GeoMath: `getCircle` and `onEdge` (src/math.ts:37-78) use square roots, division and an epsilon, and are not modelled.
- QuadEdge2D.Locate: the `console.log` calls (src/quad-edge-2d.ts:14-36) are output only and are not modelled. A result of `undefined` from `rightOf` reads as false, as it does in the `!` and `if` tests.
- EdgeRecords.EdgeRecordStore: the insertion order stands for `Object.values` order. That is exact for `toAlpha` ids, which are never integer-like keys.

## Findings

| source | as written | input that shows it | evidently intended | confidence | as-written member | corrected member |
|---|---|---|---|---|---|---|
| src/quad-edge-2.ts:69 | the `deleteEdge` guard looks only at `e.onext` and `e.rot.onext`, so an edge joined to others only at its destination is not isolated before its quad is deleted | `a = createEdge()`, `b = createEdge()`, `concat(a, b)`, `deleteEdge(a)`: b's origin-next link is left pointing at a.sym, whose record is deleted | also check e.sym and e.invrot (`NeedsIsolating`), so that `deleteEdge` isolates the edge and the bag keeps every link live | not executed | QuadEdgeDeletion.ConcatPartnerDeletedAsWritten | QuadEdgeDeletion.ConcatPartnerDeleted |
| src/quad-edge.ts:226-227 | `polygon` folds `addEdge` over `ts.slice(1)` starting from the edge ts[0] to ts[1], so its second edge runs from ts[1] to ts[1], and it closes with `splice(last.sym, first)` | `polygon([p, q, r])` with p ≠ r: the second edge is a loop at q, and the last edge ends at r while the first starts at p | fold over `ts.slice(2)` and close with `connect(last, first)`, as `addPolygon` does, so edge i runs from ts[i] to ts[i + 1] | not executed | QuadEdgeHeapPolygon.PolygonAsWrittenBreaks | QuadEdgeHeapPolygon.PolygonMadeFace |
