# Coroutine bytecode passes and build-variant predicates

This project models two bytecode passes of the Kotlin compiler's coroutine code
generator and the build-variant predicates of the compiler's build scripts, and
proves properties of the model in Dafny.

- **Redundant unboxing elimination**
  (`RedundantUnboxingEliminationMethodTransformer`). A method's code may unbox a
  primitive only to box it again. The pass first moves every movable primitive
  boxing right behind the instructions that produce its value: a clone of the boxing
  goes behind each source, and the original is unlinked. It then unlinks every
  CHECKCAST; unbox; box triple found on the resulting list.
- **Return moving** (`ReturnMovingMethodTransformer`). Some ARETURNs are reached by
  more than one value. Behind each instruction that produces such a value, the pass
  inserts an ARETURN of its own, unless that instruction lies inside a suspension
  point. The private `SuspensionPoint.contains` walk decides what lies inside one.
- **Bunches** (`Bunch.kt`). These are the IDE platforms and product bunches a build
  targets, with the version and kind derived from each enum constant's name. On top
  of them sits the `BunchPredicate` algebra: `not`, `or`, `orHigher`, `orLower` and
  the kind predicates. `BunchConfigurator` holds the current bunch that a
  predicate's `invoke` consults.

The modules are:

| Module | What it holds |
|---|---|
| `Wrappers` | `Option` and `Result` |
| `Insns` | The instruction list, shown below, and its lemmas |
| `RedundantUnboxing` | The unboxing pass |
| `ReturnMoving` | The return-moving pass |
| `Bunches` | The bunch model |

**The instruction list.** A method's instruction list is modelled as a sequence of
node identities. A map gives each node's kind:

- Box and Unbox are primitive boxing and unboxing calls.
- CHECKCAST and ARETURN are themselves.
- Every other node is Other.

`Insns.InsnList` is a class whose methods update these fields in place, as ASM's
`InsnList` does.

**The final list.** The sets the passes loop over have no order the model relies on.
So a pass's final list is described whatever the order:

- `Expand(t, after)` is the list `t` with the block `after[x]` inserted right behind
  each node `x`.
- The ghost results of a pass name the blocks it inserted.

**Idempotence.** The unboxing pass is sometimes described as idempotent, so that a
second run would change nothing. As written, it is not. Take the list CHECKCAST,
CHECKCAST, unbox, box, unbox, box, where each unboxing feeds the boxing right behind
it. Phase one moves nothing there, because each boxing already sits right behind
its source. Phase two then removes only the inner round trip, which leaves an outer
round trip behind. `RedundantUnboxing.PassNotIdempotent` runs the whole pass twice
on this list, each time with what the analysis reports for it. The first run leaves
CHECKCAST, unbox, box, and the second run empties the list. The model follows the code.

**Boxings with no sources.** Kotlin's `all` holds on an empty collection. So a
candidate whose reported source set is empty counts as movable: phase one unlinks it
and puts no clone of it anywhere (`RedundantUnboxing.UnsourcedBoxingDropped`). The
model follows the code here too.

## Model

Paths are relative to the repository root.

| member | source | states |
|---|---|---|
| Insns.Previous | compiler/backend/src/org/jetbrains/kotlin/codegen/coroutines/RedundantUnboxingEliminationMethodTransformer.kt:26 | `boxing.previous` is absent exactly for the first node; otherwise it is the node directly before it in the list |
| Insns.InsnList.Allocate | compiler/backend/src/org/jetbrains/kotlin/codegen/coroutines/RedundantUnboxingEliminationMethodTransformer.kt:30 | `clone()` / `InsnNode(op)` yield a node never seen before, of the requested kind, not yet linked; the list is unchanged |
| Insns.InsnList.Insert | compiler/backend/src/org/jetbrains/kotlin/codegen/coroutines/RedundantUnboxingEliminationMethodTransformer.kt:30 | `insert(anchor, n)` links `n` directly behind `anchor`; the list stays duplicate-free and every kind is kept |
| Insns.RemoveInserted | compiler/backend/src/org/jetbrains/kotlin/codegen/coroutines/RedundantUnboxingEliminationMethodTransformer.kt:30 | Unlinking a node just linked in behind an anchor gives back the list as it was before the insert |
| Insns.InsnList.Remove | compiler/backend/src/org/jetbrains/kotlin/codegen/coroutines/RedundantUnboxingEliminationMethodTransformer.kt:32 | `remove(x)` unlinks exactly `x`, and the other nodes keep their order |
| Insns.InsnList.RemoveAll | compiler/backend/src/org/jetbrains/kotlin/codegen/coroutines/RedundantUnboxingEliminationMethodTransformer.kt:40 | `removeAll(xs)` unlinks exactly the nodes of `xs`, whatever order it takes them in, and the rest keep their order |
| RedundantUnboxing.HasUnboxing | compiler/backend/src/org/jetbrains/kotlin/codegen/coroutines/RedundantUnboxingEliminationMethodTransformer.kt:19-20 | The pass stops at once iff no node of the list is a primitive unboxing |
| RedundantUnboxing.BoxingCandidates | compiler/backend/src/org/jetbrains/kotlin/codegen/coroutines/RedundantUnboxingEliminationMethodTransformer.kt:19-23 | A node is a candidate iff it is a successor of an unboxing of the list all of whose successors are boxings; every candidate is a boxing |
| RedundantUnboxing.MovableBoxings | compiler/backend/src/org/jetbrains/kotlin/codegen/coroutines/RedundantUnboxingEliminationMethodTransformer.kt:26 | A candidate moves iff its sources are known and none of them is the node directly before it |
| RedundantUnboxing.CloneAfter | compiler/backend/src/org/jetbrains/kotlin/codegen/coroutines/RedundantUnboxingEliminationMethodTransformer.kt:30 | A fresh clone of the boxing, of the boxing's kind, becomes the first node of the block behind the source |
| RedundantUnboxing.CloneBehindSources | compiler/backend/src/org/jetbrains/kotlin/codegen/coroutines/RedundantUnboxingEliminationMethodTransformer.kt:28-31 | Behind every source of the boxing, and nowhere else, exactly one fresh clone of it is added at the front of that source's block |
| RedundantUnboxing.GrowStep | compiler/backend/src/org/jetbrains/kotlin/codegen/coroutines/RedundantUnboxingEliminationMethodTransformer.kt:29-30 | One more clone behind a new source keeps the inner loop's invariant: one fresh clone per handled source, nothing else touched |
| RedundantUnboxing.MoveStep | compiler/backend/src/org/jetbrains/kotlin/codegen/coroutines/RedundantUnboxingEliminationMethodTransformer.kt:27-33 | Moving one more boxing keeps the outer loop's invariant: each moved boxing has one fresh clone behind each of its sources, clones in a block are of different boxings, nothing else is inserted |
| RedundantUnboxing.CloneRoundFresh | compiler/backend/src/org/jetbrains/kotlin/codegen/coroutines/RedundantUnboxingEliminationMethodTransformer.kt:29-30 | After a boxing's round every inserted node is a fresh boxing cloned from a moved boxing and sits behind one of that boxing's sources |
| RedundantUnboxing.CloneRoundComplete | compiler/backend/src/org/jetbrains/kotlin/codegen/coroutines/RedundantUnboxingEliminationMethodTransformer.kt:29-30 | After a boxing's round every source of every moved boxing has a clone of it in its block |
| RedundantUnboxing.CloneRoundDistinct | compiler/backend/src/org/jetbrains/kotlin/codegen/coroutines/RedundantUnboxingEliminationMethodTransformer.kt:29-30 | No block ever holds two clones of the same boxing |
| RedundantUnboxing.UnlinkStep | compiler/backend/src/org/jetbrains/kotlin/codegen/coroutines/RedundantUnboxingEliminationMethodTransformer.kt:32 | Unlinking the moved boxing from the expanded list is the same as leaving it out of the kept nodes: no clone block is lost |
| RedundantUnboxing.MovedGone | compiler/backend/src/org/jetbrains/kotlin/codegen/coroutines/RedundantUnboxingEliminationMethodTransformer.kt:27-33 | After phase one no moved boxing is linked any more, not even through a clone block |
| RedundantUnboxing.SourcesKept | compiler/backend/src/org/jetbrains/kotlin/codegen/coroutines/RedundantUnboxingEliminationMethodTransformer.kt:28-30 | The sources of a boxing about to move are still linked, since only boxings have been unlinked, so `insert` behind them is defined |
| RedundantUnboxing.MoveRound | compiler/backend/src/org/jetbrains/kotlin/codegen/coroutines/RedundantUnboxingEliminationMethodTransformer.kt:28-32 | One outer iteration: the list becomes the kept nodes minus this boxing, expanded by the grown clone blocks, with the placement invariant kept |
| RedundantUnboxing.MoveBoxings | compiler/backend/src/org/jetbrains/kotlin/codegen/coroutines/RedundantUnboxingEliminationMethodTransformer.kt:27-33 | Phase one: the list is the original minus the moved boxings, with one fresh clone of each moved boxing behind each of its sources and nothing else inserted; old kinds are kept |
| RedundantUnboxing.RoundTrips | compiler/backend/src/org/jetbrains/kotlin/codegen/coroutines/RedundantUnboxingEliminationMethodTransformer.kt:36-38 | The removal set holds all three nodes of every CHECKCAST; unbox; box triple and nothing else |
| RedundantUnboxing.Transform | compiler/backend/src/org/jetbrains/kotlin/codegen/coroutines/RedundantUnboxingEliminationMethodTransformer.kt:17-41 | With no unboxing nothing changes. Otherwise the movable boxings are moved with their clones placed as in MoveBoxings, on a list without repeated nodes, so each clone sits in exactly one block. Then exactly the round-trip nodes of that list are unlinked |
| RedundantUnboxing.KeptInOrder | compiler/backend/src/org/jetbrains/kotlin/codegen/coroutines/RedundantUnboxingEliminationMethodTransformer.kt:27-40 | Setting the clones aside, the pass leaves the original nodes minus the moved boxings and the removed triples, in their original order |
| RedundantUnboxing.InnerTripFound | compiler/backend/src/org/jetbrains/kotlin/codegen/coroutines/RedundantUnboxingEliminationMethodTransformer.kt:36-38 | On CHECKCAST, CHECKCAST, unbox, box, unbox, box the triple search finds only the inner triple |
| RedundantUnboxing.OuterTripFound | compiler/backend/src/org/jetbrains/kotlin/codegen/coroutines/RedundantUnboxingEliminationMethodTransformer.kt:36-38 | Once the inner triple is gone, the search finds the outer one |
| RedundantUnboxing.RoundTripRemovalNotIdempotent | compiler/backend/src/org/jetbrains/kotlin/codegen/coroutines/RedundantUnboxingEliminationMethodTransformer.kt:36-40 | Phase two run once leaves a round trip that a second run removes, so it is not idempotent |
| RedundantUnboxing.NestedNothingMoves | compiler/backend/src/org/jetbrains/kotlin/codegen/coroutines/RedundantUnboxingEliminationMethodTransformer.kt:21-26 | On the nested list the candidates are both boxings, and neither is movable, since each sits right behind its source |
| RedundantUnboxing.OuterNothingMoves | compiler/backend/src/org/jetbrains/kotlin/codegen/coroutines/RedundantUnboxingEliminationMethodTransformer.kt:21-26 | On CHECKCAST, unbox, box the one candidate sits right behind its source and is not movable |
| RedundantUnboxing.NoMovesNoBlocks | compiler/backend/src/org/jetbrains/kotlin/codegen/coroutines/RedundantUnboxingEliminationMethodTransformer.kt:27-33 | When no boxing is movable, phase one inserts nothing and leaves the list as it was |
| RedundantUnboxing.RoundTripsAgree | compiler/backend/src/org/jetbrains/kotlin/codegen/coroutines/RedundantUnboxingEliminationMethodTransformer.kt:36-38 | The round-trip search reads only the kinds of the listed nodes |
| RedundantUnboxing.PassNotIdempotent | compiler/backend/src/org/jetbrains/kotlin/codegen/coroutines/RedundantUnboxingEliminationMethodTransformer.kt:17-41 | Run on the nested list, the pass leaves CHECKCAST, unbox, box; a second run, on what the analysis then reports, leaves nothing |
| RedundantUnboxing.UnsourcedBoxingDropped | compiler/backend/src/org/jetbrains/kotlin/codegen/coroutines/RedundantUnboxingEliminationMethodTransformer.kt:26-32 | A candidate with an empty reported source set is movable; after phase one it is no longer linked and no clone of it is inserted anywhere |
| ReturnMoving.Contains | compiler/backend/src/org/jetbrains/kotlin/codegen/coroutines/ReturnMovingMethodTransformer.kt:26-35 | The walk from the call's begin node to its end node returns true iff the node lies between them, begin included and end excluded; it reads the list only |
| ReturnMoving.ZoneEnds | compiler/backend/src/org/jetbrains/kotlin/codegen/coroutines/ReturnMovingMethodTransformer.kt:26-35 | The end node is never inside its suspension point; the begin node is inside iff it differs from the end node |
| ReturnMoving.InSomeSuspensionPoint | compiler/backend/src/org/jetbrains/kotlin/codegen/coroutines/ReturnMovingMethodTransformer.kt:19 | `suspensionPoints.none { insn in it }` is false iff the node lies inside some suspension point |
| ReturnMoving.FilterOutside | compiler/backend/src/org/jetbrains/kotlin/codegen/coroutines/ReturnMovingMethodTransformer.kt:19 | The filter keeps exactly the candidates that lie inside no suspension point |
| ReturnMoving.ReturnSources | compiler/backend/src/org/jetbrains/kotlin/codegen/coroutines/ReturnMovingMethodTransformer.kt:17-19 | The sources of every ARETURN of the list that has more than one source, before the suspension-point filter; its meaning is stated by `SelectedSources` |
| ReturnMoving.Selected | compiler/backend/src/org/jetbrains/kotlin/codegen/coroutines/ReturnMovingMethodTransformer.kt:17-19 | Those sources that lie inside no suspension point; its meaning is stated by `SelectedSources` |
| ReturnMoving.SelectedSources | compiler/backend/src/org/jetbrains/kotlin/codegen/coroutines/ReturnMovingMethodTransformer.kt:17-19 | A node gets an ARETURN iff it feeds some ARETURN of the list that has more than one source, and lies inside no suspension point |
| ReturnMoving.InsertReturn | compiler/backend/src/org/jetbrains/kotlin/codegen/coroutines/ReturnMovingMethodTransformer.kt:21 | A fresh ARETURN becomes the one-node block behind the source |
| ReturnMoving.InsertReturns | compiler/backend/src/org/jetbrains/kotlin/codegen/coroutines/ReturnMovingMethodTransformer.kt:20-22 | Behind each selected source, and nowhere else, exactly one fresh ARETURN is inserted; old kinds are kept |
| ReturnMoving.ReturnsCounted | compiler/backend/src/org/jetbrains/kotlin/codegen/coroutines/ReturnMovingMethodTransformer.kt:20-22 | The list grows by exactly the number of selected sources |
| ReturnMoving.ReturnsUnlinked | compiler/backend/src/org/jetbrains/kotlin/codegen/coroutines/ReturnMovingMethodTransformer.kt:20-22 | Unlinking the new ARETURNs gives back the original list, so nothing is removed or reordered |
| ReturnMoving.ZonePreserved | compiler/backend/src/org/jetbrains/kotlin/codegen/coroutines/ReturnMovingMethodTransformer.kt:19-22 | Inserting only behind nodes outside a suspension point leaves it delimiting exactly the same nodes |
| ReturnMoving.ZonesPreserved | compiler/backend/src/org/jetbrains/kotlin/codegen/coroutines/ReturnMovingMethodTransformer.kt:19-22 | The same holds for every suspension point at once |
| ReturnMoving.ReturnBehindSource | compiler/backend/src/org/jetbrains/kotlin/codegen/coroutines/ReturnMovingMethodTransformer.kt:21 | In the new list, the node directly after each selected source is the ARETURN inserted for it |
| ReturnMoving.Transform | compiler/backend/src/org/jetbrains/kotlin/codegen/coroutines/ReturnMovingMethodTransformer.kt:16-23 | Exactly the selected sources get one fresh ARETURN each behind them. The list grows by their number, loses nothing, and every suspension point keeps its nodes |
| Bunches.ToInt | buildSrc/src/main/kotlin/Bunch.kt:32 | `toInt` succeeds only with a value in the 32-bit `Int` range |
| Bunches.ToIntRoundTrip | buildSrc/src/main/kotlin/Bunch.kt:55 | `toInt` reads back every `Int` from its decimal text, negative ones included |
| Bunches.DropNonDigitsStops | buildSrc/src/main/kotlin/Bunch.kt:55 | `dropWhile { !it.isDigit() }` removes a prefix of non-digits and stops at a digit or at the end |
| Bunches.FirstWhereFinds | buildSrc/src/main/kotlin/Bunch.kt:38 | `firstOrNull` finds nothing iff no element qualifies, and otherwise the earliest qualifying element |
| Bunches.VersionAfterFirst | buildSrc/src/main/kotlin/Bunch.kt:32 | `name.drop(1).toInt()`; any value it gives is an `Int` |
| Bunches.PlatformVersionFromName | buildSrc/src/main/kotlin/Bunch.kt:32 | `name.drop(1).toInt()` succeeds on every platform name and gives its version, for example 182 for `P182` |
| Bunches.PlatformGet | buildSrc/src/main/kotlin/Bunch.kt:37-40 | `Platform[v]` returns only a platform whose version is `v`, and otherwise fails with "Can't find platform v" |
| Bunches.PlatformGetFinds | buildSrc/src/main/kotlin/Bunch.kt:37-40 | `Platform[v]` returns `p` iff `p` has version `v`, and fails iff no platform has version `v` |
| Bunches.NameParts | buildSrc/src/main/kotlin/Bunch.kt:44-52 | Every bunch name is its kind's short name followed by the decimal digits of its version |
| Bunches.KindNamed | buildSrc/src/main/kotlin/Bunch.kt:54 | The kind found has the first two characters of the name as its short name |
| Bunches.VersionNamed | buildSrc/src/main/kotlin/Bunch.kt:55 | `name.dropWhile { !it.isDigit() }.toInt()`; any value it gives is an `Int` |
| Bunches.BunchFromName | buildSrc/src/main/kotlin/Bunch.kt:54-55 | The kind and version initialisers succeed on every bunch name, giving for example Android Studio and 32 for `AS32` |
| Bunches.IntelliJBunchOnItsPlatform | buildSrc/src/main/kotlin/Bunch.kt:44-48 | An IntelliJ bunch's version is its platform's version |
| Bunches.BunchIdentity | buildSrc/src/main/kotlin/Bunch.kt:44-55 | Two bunches with the same kind and version are the same bunch |
| Bunches.BunchNamed | buildSrc/src/main/kotlin/Bunch.kt:91 | `Bunch.valueOf(name)` returns only a bunch with that name |
| Bunches.BunchNamedFinds | buildSrc/src/main/kotlin/Bunch.kt:91 | `Bunch.valueOf(name)` finds `b` iff `name` is `b`'s name |
| Bunches.DeriveBunchName | buildSrc/src/main/kotlin/Bunch.kt:90 | The derived bunch name always starts with "AS" or "IJ" |
| Bunches.EveryBunchSelectable | buildSrc/src/main/kotlin/Bunch.kt:88-91 | Every bunch is reached by some `versions.platform` value: an Android Studio bunch by its own name, an IntelliJ bunch by its bare version |
| Bunches.DerivedKind | buildSrc/src/main/kotlin/Bunch.kt:90-91 | The bunch so configured is Android Studio iff the value starts with "AS", and IntelliJ otherwise |
| Bunches.Matches | buildSrc/src/main/kotlin/Bunch.kt:21-97 | Every `matches` override: a bunch, a platform, a kind, `not`, `or` and the four ranges; its meaning is stated by the lemmas below |
| Bunches.NotComplements | buildSrc/src/main/kotlin/Bunch.kt:21-23 | `not` selects exactly the bunches the predicate does not select, and `not` twice selects what the predicate does |
| Bunches.OrUnites | buildSrc/src/main/kotlin/Bunch.kt:25-27 | `or` selects exactly the union of what both sides select |
| Bunches.BothViaNotOr | buildSrc/src/main/kotlin/Bunch.kt:21-27 | De Morgan: `p.not.or(q.not).not` selects exactly the intersection |
| Bunches.KindsPartition | buildSrc/src/main/kotlin/Bunch.kt:64-65 | Every bunch matches exactly one of `Bunch.IJ` and `Bunch.AS` |
| Bunches.SinglePredicates | buildSrc/src/main/kotlin/Bunch.kt:34 | A bunch as a predicate selects only itself, and a platform selects the bunches declared on it |
| Bunches.PlatformRangesMeet | buildSrc/src/main/kotlin/Bunch.kt:69-75 | `p.orHigher` and `p.orLower` together match every bunch, and both match exactly the bunches on `p` |
| Bunches.PlatformRangesMonotone | buildSrc/src/main/kotlin/Bunch.kt:69-75 | A later platform's `orHigher` selects a subset, and its `orLower` a superset |
| Bunches.BunchRangesMeet | buildSrc/src/main/kotlin/Bunch.kt:77-83 | `b.orHigher` or `b.orLower` match exactly the bunches of `b`'s kind, and both match only `b` |
| Bunches.BunchRangesMonotone | buildSrc/src/main/kotlin/Bunch.kt:77-83 | Within a kind, a later bunch's `orHigher` selects a subset, and its `orLower` a superset |
| Bunches.IntelliJOrHigher | buildSrc/src/main/kotlin/Bunch.kt:69-79 | For an IntelliJ bunch, `orHigher` matches the IntelliJ bunches matched by its platform's `orHigher` |
| Bunches.BunchConfigurator.constructor | buildSrc/src/main/kotlin/Bunch.kt:85-86 | The `lateinit` current bunch starts unset |
| Bunches.BunchConfigurator.SetCurrentBunch | buildSrc/src/main/kotlin/Bunch.kt:88-92 | The bunch named by the derived name becomes current; an unknown name fails with that name and leaves the configuration unchanged |
| Bunches.BunchConfigurator.Invoke | buildSrc/src/main/kotlin/Bunch.kt:11-18 | With the current bunch set, the block runs and `Success(emptyList())` comes back iff the predicate matches it, and `Success(null)` comes back otherwise. Reading an unset bunch fails with `Uninitialized` and runs nothing |
| Bunches.ExactlyOneBranchRuns | buildSrc/src/main/kotlin/Bunch.kt:11-23 | With the current bunch set, invoking `p { … }` and then `p.not { … }` runs exactly one of the two blocks |

## Left out

**The analyses and ASM.**

- The data-flow analyses `findSuccessors` and `findSourceInstructions` are not part of this model. Their results are inputs: `succs` and `srcs` map each node to the set of nodes the analysis reports.
- The analyses must report nodes of the method, and a boxing's source must not be a boxing. These requirements stand for the JVM typing the analyses rely on.
- `isPrimitiveBoxing` and `isPrimitiveUnboxing` become the node kinds Box and Unbox. The method descriptors they inspect are not modelled.
- ASM's `MethodNode`, the `MethodTransformer` base class and the `internalClassName` argument are not modelled.

**Iteration order.**

- Kotlin iterates its hash and linked sets in an order the model does not fix. The loops pick an arbitrary next element.
- Every contract holds for any order. This is why the final lists are stated with `Expand` rather than position by position.

**Pass details.**

- RedundantUnboxing.Transform: Kotlin's `it.previous.opcode` and `it.next` are not null-checked and would throw on a first or last node. The model treats a missing neighbour as no match. An unboxing cannot be the first or last node of a JVM method, so this does not arise there.
- RedundantUnboxing.MoveBoxings: the `?: continue` on a missing source set is never taken. Only boxings with known sources are movable, so the model has no branch for it.
- ReturnMoving.Contains: when the end node does not follow the begin node, Kotlin's walk runs off the list and throws. The model requires the begin node to come at or before the end node instead of modelling the exception.
- ReturnMoving.Transform: the model requires every suspension point to be well formed. Kotlin's `none` stops at the first hit and only needs the points it actually walks.

**Bunches.**

- Bunches.ToInt: only ASCII digits are accepted. The JVM's `toInt` and Kotlin's `isDigit` also accept other Unicode decimal digits, which no name here contains.
- `Bunch.kind`, `Bunch.version` and `Platform.version` are given as one value per enum constant. `BunchFromName` and `PlatformVersionFromName` prove those are exactly the values the initialisers compute from the names.
- Reading `versions.platform` from the Gradle root project is an input to `SetCurrentBunch`.
- Bunches.BunchConfigurator.Invoke: the block is the caller's code. The model reports whether it ran, and its effects are not modelled.
- The exceptions of `Bunch.valueOf` and of an unset `lateinit` field become `ConfigError` values.
