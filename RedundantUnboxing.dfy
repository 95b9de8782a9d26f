/**
 * The coroutine pass that moves primitive boxings right behind the instructions that
 * produce their values, then drops every CHECKCAST; unbox; box round trip
 * (`RedundantUnboxingEliminationMethodTransformer`).
 *
 * The data-flow analysis is not part of this model: `succs` stands for what
 * `findSuccessors` reports for the unboxings and `srcs` for what
 * `findSourceInstructions` reports for the boxings.
 */
module RedundantUnboxing {
  import opened Wrappers
  import opened Insns

  /** Every node of the list has a known kind. */
  predicate Typed(insns: seq<Id>, opcode: map<Id, Opcode>)
  {
    forall x :: x in insns ==> x in opcode
  }

  predicate HasUnboxing(insns: seq<Id>, opcode: map<Id, Opcode>)
    requires Typed(insns, opcode)
  {
    exists x :: x in insns && opcode[x] == Unbox
  }

  /** Every node of `xs` is a primitive boxing. */
  predicate AllBoxings(xs: set<Id>, opcode: map<Id, Opcode>)
  {
    forall x :: x in xs ==> x in opcode && opcode[x] == Box
  }

  /**
   * What the pass takes from the data-flow analysis: the reported successors and
   * sources are instructions of the method, and a boxing, which consumes a
   * primitive, never has a boxing, which yields a reference, as its source.
   */
  predicate AnalysisFits(insns: seq<Id>, opcode: map<Id, Opcode>, succs: map<Id, set<Id>>, srcs: map<Id, set<Id>>)
  {
    && Typed(insns, opcode)
    && (forall u, x :: u in succs && x in succs[u] ==> x in insns)
    && (forall b, s :: b in srcs && s in srcs[b] ==> s in insns)
    && (forall b, s :: b in srcs && s in srcs[b] && b in opcode && s in opcode && opcode[b] == Box ==> opcode[s] != Box)
  }

  /**
   * The boxing candidates: the successors of those unboxings of the list all of
   * whose successors are boxings.
   */
  function BoxingCandidates(insns: seq<Id>, opcode: map<Id, Opcode>, succs: map<Id, set<Id>>): (r: set<Id>)
    requires Typed(insns, opcode)
    ensures AllBoxings(r, opcode)
    ensures forall u, b :: u in insns && opcode[u] == Unbox && u in succs && AllBoxings(succs[u], opcode) && b in succs[u] ==> b in r
    ensures forall b :: b in r ==> exists u :: u in insns && opcode[u] == Unbox && u in succs && AllBoxings(succs[u], opcode) && b in succs[u]
  {
    set u, b | u in insns && opcode[u] == Unbox && u in succs && AllBoxings(succs[u], opcode) && b in succs[u] :: b
  }

  /**
   * The candidates the pass moves, decided once on the list as it is before
   * anything moves: a candidate moves when its sources are known and none of them
   * sits directly before it.
   */
  function MovableBoxings(insns: seq<Id>, boxings: set<Id>, srcs: map<Id, set<Id>>): (r: set<Id>)
    requires Distinct(insns)
    requires forall b :: b in boxings ==> b in insns
    ensures r <= boxings
    ensures forall b :: b in r ==> b in srcs
    ensures forall b :: b in boxings ==>
      (b in r <==> b in srcs && !exists i :: 1 <= i < |insns| && insns[i] == b && insns[i - 1] in srcs[b])
  {
    assert forall b, i :: b in boxings && 0 <= i < |insns| && insns[i] == b ==> IndexOf(insns, b) == i by {
      forall b, i | b in boxings && 0 <= i < |insns| && insns[i] == b ensures IndexOf(insns, b) == i {
        IndexOfAt(insns, i);
      }
    }
    set b | b in boxings && b in srcs && forall s :: s in srcs[b] ==> Previous(insns, b) != Some(s)
  }

  /**
   * Every inserted node `c` is a fresh boxing cloned from `origin[c]`, one of the
   * boxings in `owners`, and sits in the block behind one of that boxing's sources.
   */
  ghost predicate ClonesFresh(after: map<Id, seq<Id>>, origin: map<Id, Id>, owners: set<Id>, srcs: map<Id, set<Id>>,
                              opcode0: map<Id, Opcode>, opcode: map<Id, Opcode>)
  {
    forall s, c :: s in after && c in after[s] ==>
      && c !in opcode0 && c in origin && origin[c] in owners && origin[c] in srcs && s in srcs[origin[c]]
      && c in opcode && opcode[c] == Box
  }

  /** The block behind `s` holds a clone of boxing `b`. */
  ghost predicate HasClone(after: map<Id, seq<Id>>, origin: map<Id, Id>, s: Id, b: Id)
  {
    exists c: Id :: c in Block(after, s) && c in origin && origin[c] == b
  }

  /** Every source of every boxing of `owners` has a clone of that boxing in its block. */
  ghost predicate ClonesComplete(after: map<Id, seq<Id>>, origin: map<Id, Id>, owners: set<Id>, srcs: map<Id, set<Id>>)
  {
    forall b: Id, s: Id :: b in owners && b in srcs && s in srcs[b] ==> HasClone(after, origin, s, b)
  }

  /** No two nodes of one block are clones of the same boxing. */
  ghost predicate ClonesDistinct(after: map<Id, seq<Id>>, origin: map<Id, Id>)
  {
    forall s, c1, c2 :: s in after && c1 in after[s] && c2 in after[s] && c1 != c2 && c1 in origin && c2 in origin ==>
      origin[c1] != origin[c2]
  }

  /**
   * How phase one placed its clones: behind each source of each moved boxing sits
   * exactly one fresh clone of it, and nothing else was inserted.
   */
  ghost predicate ClonesPlaced(after: map<Id, seq<Id>>, origin: map<Id, Id>, movable: set<Id>, srcs: map<Id, set<Id>>,
                               opcode0: map<Id, Opcode>, opcode: map<Id, Opcode>)
  {
    && ClonesFresh(after, origin, movable, srcs, opcode0, opcode)
    && ClonesComplete(after, origin, movable, srcs)
    && ClonesDistinct(after, origin)
  }

  /**
   * The inner loop of phase one has put a fresh clone of `boxing`, named by
   * `clones`, at the front of the block behind each source in `clones`' domain,
   * and has changed nothing else.
   */
  ghost predicate Grown(after0: map<Id, seq<Id>>, origin0: map<Id, Id>, opcode0: map<Id, Opcode>, boxing: Id,
                        after: map<Id, seq<Id>>, origin: map<Id, Id>, clones: map<Id, Id>, opcode: map<Id, Opcode>)
    requires boxing in opcode0
  {
    && (forall c :: c in origin0 ==> c in opcode0)
    && (forall x :: x in opcode0 ==> x in opcode && opcode[x] == opcode0[x])
    && after.Keys == after0.Keys + clones.Keys
    && (forall s :: s in after0 && s !in clones ==> after[s] == after0[s])
    && (forall s :: s in clones ==> after[s] == [clones[s]] + Block(after0, s))
    && (forall s :: s in clones ==>
          && clones[s] !in opcode0 && clones[s] in opcode && opcode[clones[s]] == opcode0[boxing]
          && clones[s] in origin && origin[clones[s]] == boxing)
    && (forall c :: c in origin0 ==> c in origin && origin[c] == origin0[c])
    && (forall c :: c in origin && c !in origin0 ==> c in opcode && c !in opcode0 && origin[c] == boxing)
  }

  /** One step of the inner loop of phase one keeps `Grown`. */
  lemma GrowStep(after0: map<Id, seq<Id>>, origin0: map<Id, Id>, opcode0: map<Id, Opcode>, boxing: Id,
                 after: map<Id, seq<Id>>, origin: map<Id, Id>, clones: map<Id, Id>, opcode: map<Id, Opcode>,
                 source: Id, clone: Id, opcode': map<Id, Opcode>)
    requires boxing in opcode0
    requires Grown(after0, origin0, opcode0, boxing, after, origin, clones, opcode)
    requires source !in clones && clone !in opcode && opcode' == opcode[clone := opcode0[boxing]]
    ensures Block(after, source) == Block(after0, source)
    ensures Grown(after0, origin0, opcode0, boxing, after[source := [clone] + Block(after, source)],
                  origin[clone := boxing], clones[source := clone], opcode')
  {
  }

  /** A fresh clone of `boxing` goes right behind `source`, at the front of its block. */
  method CloneAfter(list: InsnList, boxing: Id, source: Id, ghost kept: seq<Id>, ghost after: map<Id, seq<Id>>)
    returns (clone: Id)
    requires list.Valid() && Distinct(kept) && list.insns == Expand(kept, after)
    requires boxing in list.opcode && source in kept
    modifies list
    ensures list.Valid() && list.insns == Expand(kept, after[source := [clone] + Block(after, source)])
    ensures clone !in old(list.opcode) && list.opcode == old(list.opcode)[clone := old(list.opcode)[boxing]]
  {
    clone := list.Allocate(list.opcode[boxing]);
    ExpandInsert(kept, after, source, clone);
    list.Insert(source, clone);
  }

  /**
   * The inner loop of phase one: a fresh clone of `boxing` goes right behind each
   * node of `sources`, so each of their blocks gains one node at its front.
   */
  method CloneBehindSources(list: InsnList, boxing: Id, sources: set<Id>, ghost kept: seq<Id>,
                            ghost after0: map<Id, seq<Id>>, ghost origin0: map<Id, Id>)
    returns (ghost after: map<Id, seq<Id>>, ghost origin: map<Id, Id>, ghost clones: map<Id, Id>)
    requires list.Valid() && Distinct(kept) && list.insns == Expand(kept, after0)
    requires boxing in list.opcode
    requires forall s :: s in sources ==> s in kept
    requires forall c :: c in origin0 ==> c in list.opcode
    modifies list
    ensures list.Valid() && list.insns == Expand(kept, after)
    ensures clones.Keys == sources
    ensures Grown(after0, origin0, old(list.opcode), boxing, after, origin, clones, list.opcode)
  {
    ghost var opcode0 := list.opcode;
    after, origin, clones := after0, origin0, map[];
    var rest := sources;
    while rest != {}
      invariant list.Valid() && list.insns == Expand(kept, after)
      invariant rest !! clones.Keys && rest + clones.Keys == sources
      invariant Grown(after0, origin0, opcode0, boxing, after, origin, clones, list.opcode)
      decreases rest
    {
      var source :| source in rest;
      ghost var opcode := list.opcode;
      var clone := CloneAfter(list, boxing, source, kept, after);
      GrowStep(after0, origin0, opcode0, boxing, after, origin, clones, opcode, source, clone, list.opcode);
      after := after[source := [clone] + Block(after, source)];
      origin := origin[clone := boxing];
      clones := clones[source := clone];
      rest := rest - {source};
    }
  }

  /**
   * The bookkeeping phase one keeps between rounds: the boxings of `done` are
   * unlinked, the clone blocks `after` hang behind original nodes that are not
   * boxings, and the clones are placed as `ClonesPlaced` says.
   */
  ghost predicate Placement(orig: seq<Id>, opcode0: map<Id, Opcode>, srcs: map<Id, set<Id>>, done: set<Id>,
                            after: map<Id, seq<Id>>, origin: map<Id, Id>, opcode: map<Id, Opcode>)
  {
    && (forall b :: b in done ==> b in opcode0 && opcode0[b] == Box)
    && (forall x :: x in opcode0 ==> x in opcode && opcode[x] == opcode0[x])
    && (forall s :: s in after ==> s in orig && s in opcode0 && opcode0[s] != Box)
    && (forall c :: c in origin ==> c in opcode && c !in opcode0 && origin[c] in done)
    && ClonesPlaced(after, origin, done, srcs, opcode0, opcode)
  }

  /** One round of phase one, cloning `boxing` behind its sources, keeps `Placement`. */
  lemma MoveStep(orig: seq<Id>, opcode0: map<Id, Opcode>, srcs: map<Id, set<Id>>, done: set<Id>,
                 after0: map<Id, seq<Id>>, origin0: map<Id, Id>, opcode1: map<Id, Opcode>,
                 boxing: Id, after: map<Id, seq<Id>>, origin: map<Id, Id>, clones: map<Id, Id>, opcode: map<Id, Opcode>)
    requires Placement(orig, opcode0, srcs, done, after0, origin0, opcode1)
    requires boxing in srcs && boxing !in done && boxing in opcode0 && opcode0[boxing] == Box
    requires forall s :: s in srcs[boxing] ==> s in orig && s in opcode0 && opcode0[s] != Box
    requires clones.Keys == srcs[boxing]
    requires Grown(after0, origin0, opcode1, boxing, after, origin, clones, opcode)
    ensures Placement(orig, opcode0, srcs, done + {boxing}, after, origin, opcode)
  {
    assert Round(after0, origin0, after, origin, clones, done, boxing, srcs, opcode0, opcode1, opcode);
    CloneRoundFresh(after0, origin0, after, origin, clones, done, boxing, srcs, opcode0, opcode1, opcode);
    CloneRoundComplete(after0, origin0, after, origin, clones, done, boxing, srcs, opcode0, opcode1, opcode);
    RoundDistinct(after0, origin0, after, origin, clones, done, boxing, srcs, opcode0, opcode1, opcode);
  }

  /** Unlinking a boxing that has been moved removes it from the kept nodes and leaves the blocks alone. */
  lemma UnlinkStep(orig: seq<Id>, opcode0: map<Id, Opcode>, srcs: map<Id, set<Id>>, done: set<Id>,
                   after: map<Id, seq<Id>>, origin: map<Id, Id>, opcode: map<Id, Opcode>, boxing: Id)
    requires Placement(orig, opcode0, srcs, done + {boxing}, after, origin, opcode)
    ensures Without(Expand(Without(orig, done), after), {boxing}) == Expand(Without(orig, done + {boxing}), after)
  {
    assert Block(after, boxing) == [];
    ExpandRemove(Without(orig, done), after, {boxing});
    WithoutWithout(orig, done, {boxing});
  }

  /** Once every movable boxing has had its round, none of them is linked any more. */
  lemma MovedGone(orig: seq<Id>, opcode0: map<Id, Opcode>, srcs: map<Id, set<Id>>, movable: set<Id>,
                  after: map<Id, seq<Id>>, origin: map<Id, Id>, opcode: map<Id, Opcode>)
    requires Placement(orig, opcode0, srcs, movable, after, origin, opcode)
    ensures forall b :: b in movable ==> b !in Expand(Without(orig, movable), after)
  {
    WithoutMembers(orig, movable);
    forall b | b in movable
      ensures b !in Expand(Without(orig, movable), after)
    {
      assert b in opcode0;
    }
  }

  /**
   * The boxings of `movable` are original boxings with known sources, and their
   * sources are original nodes that are not boxings.
   */
  ghost predicate SourcesFit(orig: seq<Id>, opcode0: map<Id, Opcode>, srcs: map<Id, set<Id>>, movable: set<Id>)
  {
    && (forall b :: b in movable ==> b in srcs && b in orig && b in opcode0 && opcode0[b] == Box)
    && (forall b, s :: b in movable && b in srcs && s in srcs[b] ==> s in orig && s in opcode0 && opcode0[s] != Box)
  }

  /** The sources of a boxing still to move are still linked when its round starts. */
  lemma SourcesKept(orig: seq<Id>, opcode0: map<Id, Opcode>, srcs: map<Id, set<Id>>, movable: set<Id>, done: set<Id>, boxing: Id)
    requires SourcesFit(orig, opcode0, srcs, movable)
    requires forall b :: b in done ==> b in opcode0 && opcode0[b] == Box
    requires boxing in movable
    ensures boxing in srcs && boxing in orig && boxing in opcode0 && opcode0[boxing] == Box
    ensures forall s :: s in srcs[boxing] ==> s in orig && s in opcode0 && opcode0[s] != Box
    ensures forall s :: s in srcs[boxing] ==> s in Without(orig, done)
    ensures boxing !in done ==> boxing in Without(orig, done)
  {
    WithoutMembers(orig, done);
  }

  /** Before its first round phase one's state holds trivially. */
  lemma Phase1Start(orig: seq<Id>, opcode0: map<Id, Opcode>, srcs: map<Id, set<Id>>)
    ensures Placement(orig, opcode0, srcs, {}, map[], map[], opcode0)
    ensures orig == Expand(Without(orig, {}), map[])
  {
    ExpandUntouched(Without(orig, {}), map[]);
    WithoutNothing(orig, {});
  }

  /** One round of phase one: clones `boxing` behind each of its sources, then unlinks it. */
  method MoveRound(list: InsnList, boxing: Id, srcs: map<Id, set<Id>>, ghost orig: seq<Id>, ghost opcode0: map<Id, Opcode>,
                   ghost movable: set<Id>, ghost done: set<Id>, ghost after0: map<Id, seq<Id>>, ghost origin0: map<Id, Id>)
    returns (ghost after: map<Id, seq<Id>>, ghost origin: map<Id, Id>)
    requires list.Valid() && Distinct(orig)
    requires SourcesFit(orig, opcode0, srcs, movable) && boxing in movable && boxing !in done
    requires list.insns == Expand(Without(orig, done), after0)
    requires Placement(orig, opcode0, srcs, done, after0, origin0, list.opcode)
    modifies list
    ensures list.Valid()
    ensures list.insns == Expand(Without(orig, done + {boxing}), after)
    ensures Placement(orig, opcode0, srcs, done + {boxing}, after, origin, list.opcode)
  {
    ghost var opcode1 := list.opcode;
    ghost var clones;
    SourcesKept(orig, opcode0, srcs, movable, done, boxing);
    WithoutDistinct(orig, done);
    after, origin, clones := CloneBehindSources(list, boxing, srcs[boxing], Without(orig, done), after0, origin0);
    MoveStep(orig, opcode0, srcs, done, after0, origin0, opcode1, boxing, after, origin, clones, list.opcode);
    UnlinkStep(orig, opcode0, srcs, done, after, origin, list.opcode, boxing);
    list.Remove(boxing);
  }

  /**
   * Phase one applied: for each movable boxing, in whatever order the set is
   * walked, a clone goes right behind each of its sources and the boxing itself is
   * unlinked.
   */
  method MoveBoxings(list: InsnList, movable: set<Id>, srcs: map<Id, set<Id>>)
    returns (ghost after: map<Id, seq<Id>>, ghost origin: map<Id, Id>)
    requires list.Valid()
    requires forall b :: b in movable ==> b in list.insns && list.opcode[b] == Box && b in srcs
    requires forall b, s :: b in movable && s in srcs[b] ==> s in list.insns && list.opcode[s] != Box
    modifies list
    ensures list.Valid()
    ensures list.insns == Expand(Without(old(list.insns), movable), after)
    ensures forall b :: b in movable ==> b !in list.insns
    ensures forall x :: x in old(list.opcode) ==> x in list.opcode && list.opcode[x] == old(list.opcode)[x]
    ensures ClonesPlaced(after, origin, movable, srcs, old(list.opcode), list.opcode)
  {
    ghost var orig := list.insns;
    ghost var opcode0 := list.opcode;
    after, origin := map[], map[];
    ghost var done: set<Id> := {};
    var pending := movable;
    Phase1Start(orig, opcode0, srcs);
    assert SourcesFit(orig, opcode0, srcs, movable);
    while pending != {}
      invariant list.Valid()
      invariant pending !! done && pending + done == movable
      invariant list.insns == Expand(Without(orig, done), after)
      invariant Placement(orig, opcode0, srcs, done, after, origin, list.opcode)
      decreases pending
    {
      var boxing :| boxing in pending;
      after, origin := MoveRound(list, boxing, srcs, orig, opcode0, movable, done, after, origin);
      pending := pending - {boxing};
      done := done + {boxing};
    }
    MovedGone(orig, opcode0, srcs, movable, after, origin, list.opcode);
  }

  /** What one round of phase one's outer loop starts from and what its inner loop did. */
  ghost predicate Round(after0: map<Id, seq<Id>>, origin0: map<Id, Id>, after: map<Id, seq<Id>>, origin: map<Id, Id>,
                        clones: map<Id, Id>, done: set<Id>, boxing: Id, srcs: map<Id, set<Id>>,
                        opcode0: map<Id, Opcode>, opcode1: map<Id, Opcode>, opcode: map<Id, Opcode>)
  {
    && boxing in srcs && boxing !in done && boxing in opcode0 && opcode0[boxing] == Box
    && (forall x :: x in opcode0 ==> x in opcode1 && opcode1[x] == opcode0[x])
    && (forall c :: c in origin0 ==> c in opcode1 && c !in opcode0 && origin0[c] in done)
    && ClonesFresh(after0, origin0, done, srcs, opcode0, opcode1)
    && clones.Keys == srcs[boxing]
    && Grown(after0, origin0, opcode1, boxing, after, origin, clones, opcode)
  }

  /** After one round every clone is fresh and placed behind a source of its boxing. */
  lemma CloneRoundFresh(after0: map<Id, seq<Id>>, origin0: map<Id, Id>, after: map<Id, seq<Id>>, origin: map<Id, Id>,
                        clones: map<Id, Id>, done: set<Id>, boxing: Id, srcs: map<Id, set<Id>>,
                        opcode0: map<Id, Opcode>, opcode1: map<Id, Opcode>, opcode: map<Id, Opcode>)
    requires Round(after0, origin0, after, origin, clones, done, boxing, srcs, opcode0, opcode1, opcode)
    ensures forall c :: c in origin ==> c in opcode && c !in opcode0 && origin[c] in done + {boxing}
    ensures ClonesFresh(after, origin, done + {boxing}, srcs, opcode0, opcode)
  {
    forall s, c | s in after && c in after[s]
      ensures c !in opcode0 && c in origin && origin[c] in done + {boxing} && origin[c] in srcs && s in srcs[origin[c]]
      ensures c in opcode && opcode[c] == Box
    {
      if s in clones && c == clones[s] {
      } else {
        assert c in Block(after0, s);
      }
    }
  }

  /** After one round the moved boxing, too, has a clone behind each of its sources. */
  lemma CloneRoundComplete(after0: map<Id, seq<Id>>, origin0: map<Id, Id>, after: map<Id, seq<Id>>, origin: map<Id, Id>,
                           clones: map<Id, Id>, done: set<Id>, boxing: Id, srcs: map<Id, set<Id>>,
                           opcode0: map<Id, Opcode>, opcode1: map<Id, Opcode>, opcode: map<Id, Opcode>)
    requires Round(after0, origin0, after, origin, clones, done, boxing, srcs, opcode0, opcode1, opcode)
    requires ClonesComplete(after0, origin0, done, srcs)
    ensures ClonesComplete(after, origin, done + {boxing}, srcs)
  {
    forall b: Id, s: Id | b in done + {boxing} && b in srcs && s in srcs[b]
      ensures HasClone(after, origin, s, b)
    {
      if b == boxing {
        assert clones[s] in Block(after, s);
      } else {
        var c :| c in Block(after0, s) && c in origin0 && origin0[c] == b;
        if s in clones {
          assert after[s] == [clones[s]] + Block(after0, s);
        } else {
          assert after[s] == after0[s];
        }
        assert c in Block(after, s);
      }
    }
  }

  /** What one round guarantees about the blocks and the clones' origins. */
  lemma RoundOrigins(after0: map<Id, seq<Id>>, origin0: map<Id, Id>, after: map<Id, seq<Id>>, origin: map<Id, Id>,
                     clones: map<Id, Id>, done: set<Id>, boxing: Id, srcs: map<Id, set<Id>>,
                     opcode0: map<Id, Opcode>, opcode1: map<Id, Opcode>, opcode: map<Id, Opcode>)
    requires Round(after0, origin0, after, origin, clones, done, boxing, srcs, opcode0, opcode1, opcode)
    ensures boxing !in done
    ensures after.Keys == after0.Keys + clones.Keys
    ensures forall s :: s in after0 && s !in clones ==> after[s] == after0[s]
    ensures forall s :: s in clones ==> after[s] == [clones[s]] + Block(after0, s)
    ensures forall s :: s in clones ==> clones[s] in origin && origin[clones[s]] == boxing
    ensures forall s, c :: s in after0 && c in after0[s] ==> c in origin0 && origin0[c] in done
    ensures forall c :: c in origin0 ==> c in origin && origin[c] == origin0[c]
  {
  }

  /** One round keeps every block free of two clones of one boxing. */
  lemma RoundDistinct(after0: map<Id, seq<Id>>, origin0: map<Id, Id>, after: map<Id, seq<Id>>, origin: map<Id, Id>,
                      clones: map<Id, Id>, done: set<Id>, boxing: Id, srcs: map<Id, set<Id>>,
                      opcode0: map<Id, Opcode>, opcode1: map<Id, Opcode>, opcode: map<Id, Opcode>)
    requires Round(after0, origin0, after, origin, clones, done, boxing, srcs, opcode0, opcode1, opcode)
    requires ClonesDistinct(after0, origin0)
    ensures ClonesDistinct(after, origin)
  {
    RoundOrigins(after0, origin0, after, origin, clones, done, boxing, srcs, opcode0, opcode1, opcode);
    CloneRoundDistinct(after0, origin0, after, origin, clones, done, boxing);
  }

  /** After one round no block holds two clones of one boxing. */
  lemma CloneRoundDistinct(after0: map<Id, seq<Id>>, origin0: map<Id, Id>, after: map<Id, seq<Id>>, origin: map<Id, Id>,
                           clones: map<Id, Id>, done: set<Id>, boxing: Id)
    requires boxing !in done
    requires after.Keys == after0.Keys + clones.Keys
    requires forall s :: s in after0 && s !in clones ==> after[s] == after0[s]
    requires forall s :: s in clones ==> after[s] == [clones[s]] + Block(after0, s)
    requires forall s :: s in clones ==> clones[s] in origin && origin[clones[s]] == boxing
    requires forall s, c :: s in after0 && c in after0[s] ==> c in origin0 && origin0[c] in done
    requires forall c :: c in origin0 ==> c in origin && origin[c] == origin0[c]
    requires ClonesDistinct(after0, origin0)
    ensures ClonesDistinct(after, origin)
  {
    forall s, c1, c2 | s in after && c1 in after[s] && c2 in after[s] && c1 != c2 && c1 in origin && c2 in origin
      ensures origin[c1] != origin[c2]
    {
      if s in clones {
        assert after[s] == [clones[s]] + Block(after0, s);
        if c1 == clones[s] {
          assert c2 in Block(after0, s);
        } else if c2 == clones[s] {
          assert c1 in Block(after0, s);
        } else {
          assert c1 in after0[s] && c2 in after0[s];
        }
      } else {
        assert after[s] == after0[s];
      }
    }
  }

  /** `insns[i]` is an unboxing with a CHECKCAST right before it and a boxing right after it. */
  predicate RoundTripAt(insns: seq<Id>, opcode: map<Id, Opcode>, i: int)
    requires Typed(insns, opcode)
  {
    && 0 < i < |insns| - 1
    && opcode[insns[i - 1]] == Checkcast && opcode[insns[i]] == Unbox && opcode[insns[i + 1]] == Box
  }

  /** Position `k` holds the CHECKCAST, the unboxing or the boxing of a round trip. */
  predicate InRoundTrip(insns: seq<Id>, opcode: map<Id, Opcode>, k: int)
    requires Typed(insns, opcode)
  {
    RoundTripAt(insns, opcode, k + 1) || RoundTripAt(insns, opcode, k) || RoundTripAt(insns, opcode, k - 1)
  }

  /**
   * Phase two's removal set: the three nodes of every CHECKCAST; unbox; box round
   * trip, found on the list as phase one left it.
   */
  function RoundTrips(insns: seq<Id>, opcode: map<Id, Opcode>): (r: set<Id>)
    requires Typed(insns, opcode)
    ensures forall i :: RoundTripAt(insns, opcode, i) ==> insns[i - 1] in r && insns[i] in r && insns[i + 1] in r
    ensures forall x :: x in r ==> exists i :: RoundTripAt(insns, opcode, i) && (x == insns[i - 1] || x == insns[i] || x == insns[i + 1])
    ensures forall x :: x in r ==> x in insns && opcode[x] in {Checkcast, Unbox, Box}
  {
    set k | 0 <= k < |insns| && InRoundTrip(insns, opcode, k) :: insns[k]
  }

  /**
   * The pass: when the method has an unboxing, phase one moves every movable
   * boxing behind its sources, then phase two unlinks every CHECKCAST; unbox; box
   * round trip found on the resulting list.  The ghost results name the moved
   * boxings, the clone blocks phase one inserted, each clone's original boxing and
   * the nodes phase two removed.
   */
  method Transform(list: InsnList, succs: map<Id, set<Id>>, srcs: map<Id, set<Id>>)
    returns (ghost movable: set<Id>, ghost after: map<Id, seq<Id>>, ghost origin: map<Id, Id>, ghost removed: set<Id>)
    requires list.Valid() && AnalysisFits(list.insns, list.opcode, succs, srcs)
    modifies list
    ensures list.Valid()
    ensures !HasUnboxing(old(list.insns), old(list.opcode)) ==> list.insns == old(list.insns) && list.opcode == old(list.opcode)
    ensures HasUnboxing(old(list.insns), old(list.opcode)) ==>
      && movable == MovableBoxings(old(list.insns), BoxingCandidates(old(list.insns), old(list.opcode), succs), srcs)
      && ClonesPlaced(after, origin, movable, srcs, old(list.opcode), list.opcode)
      && Distinct(Expand(Without(old(list.insns), movable), after))
      && Typed(Expand(Without(old(list.insns), movable), after), list.opcode)
      && removed == RoundTrips(Expand(Without(old(list.insns), movable), after), list.opcode)
      && list.insns == Without(Expand(Without(old(list.insns), movable), after), removed)
    ensures forall x :: x in old(list.opcode) ==> x in list.opcode && list.opcode[x] == old(list.opcode)[x]
  {
    movable, after, origin, removed := {}, map[], map[], {};
    var hasUnboxing := exists x :: x in list.insns && list.opcode[x] == Unbox;
    if !hasUnboxing {
      return;
    }
    var boxings := BoxingCandidates(list.insns, list.opcode, succs);
    var toMove := MovableBoxings(list.insns, boxings, srcs);
    movable := toMove;
    after, origin := MoveBoxings(list, toMove, srcs);
    var toRemove := RoundTrips(list.insns, list.opcode);
    removed := toRemove;
    list.RemoveAll(toRemove);
  }

  /**
   * Once the clones are set aside, the nodes the pass leaves are the original
   * nodes other than the moved boxings and the removed round trips, in their
   * original order.
   */
  lemma KeptInOrder(orig: seq<Id>, movable: set<Id>, after: map<Id, seq<Id>>, removed: set<Id>)
    requires forall x :: x in orig ==> x !in Inserted(after)
    ensures Without(Without(Expand(Without(orig, movable), after), removed), Inserted(after))
         == Without(orig, movable + removed)
  {
    var kept := Without(orig, movable);
    var expanded := Expand(kept, after);
    var ins := Inserted(after);
    WithoutMembers(orig, movable);
    WithoutWithout(expanded, removed, ins);
    WithoutWithout(expanded, ins, removed);
    assert removed + ins == ins + removed;
    ExpandDropInserted(kept, after);
    WithoutWithout(orig, movable, removed);
  }

  /** CHECKCAST, CHECKCAST, unbox, box, unbox, box: a round trip nested in another. */
  const NestedTrips: seq<Id> := [0, 1, 2, 3, 4, 5]
  const NestedOpcodes: map<Id, Opcode> := map[0 := Checkcast, 1 := Checkcast, 2 := Unbox, 3 := Box, 4 := Unbox, 5 := Box]

  /** On the nested round trips phase two finds only the inner one. */
  lemma InnerTripFound()
    ensures Typed(NestedTrips, NestedOpcodes)
    ensures RoundTrips(NestedTrips, NestedOpcodes) == {1, 2, 3}
  {
    forall i | RoundTripAt(NestedTrips, NestedOpcodes, i)
      ensures i == 2
    {
      assert NestedOpcodes[NestedTrips[i]] == Unbox;
    }
    assert RoundTripAt(NestedTrips, NestedOpcodes, 2);
  }

  /** What the inner round trip leaves behind is the outer one. */
  lemma OuterTripFound()
    ensures Typed([0, 4, 5], NestedOpcodes)
    ensures RoundTrips([0, 4, 5], NestedOpcodes) == {0, 4, 5}
  {
    assert RoundTripAt([0, 4, 5], NestedOpcodes, 1);
  }

  /** Unlinking the inner round trip leaves the outer one. */
  lemma InnerTripDropped()
    ensures Without(NestedTrips, {1, 2, 3}) == [0, 4, 5]
  {
    KeepFirstAndLastTwo(0, 1, 2, 3, 4, 5, {1, 2, 3});
  }

  /** Unlinking the second to fourth of six nodes keeps the first and the last two. */
  lemma KeepFirstAndLastTwo(a: Id, b: Id, c: Id, d: Id, e: Id, f: Id, xs: set<Id>)
    requires a !in xs && b in xs && c in xs && d in xs && e !in xs && f !in xs
    ensures Without([a, b, c, d, e, f], xs) == [a, e, f]
  {
    var t5: seq<Id> := [f];
    var t4 := [e] + t5;
    var t3 := [d] + t4;
    var t2 := [c] + t3;
    var t1 := [b] + t2;
    var t0 := [a] + t1;
    assert t0 == [a, b, c, d, e, f];
    assert t5 == [f] + [];
    WithoutCons(f, [], xs);
    WithoutCons(e, t5, xs);
    WithoutCons(d, t4, xs);
    WithoutCons(c, t3, xs);
    WithoutCons(b, t2, xs);
    WithoutCons(a, t1, xs);
  }

  /**
   * Phase two is not idempotent: on CHECKCAST, CHECKCAST, unbox, box, unbox, box
   * it removes the inner round trip, which leaves an outer round trip behind that
   * only a second run removes.
   */
  lemma RoundTripRemovalNotIdempotent()
    ensures Typed(NestedTrips, NestedOpcodes)
    ensures var once := Without(NestedTrips, RoundTrips(NestedTrips, NestedOpcodes));
            && once == [0, 4, 5]
            && Typed(once, NestedOpcodes)
            && Without(once, RoundTrips(once, NestedOpcodes)) == []
  {
    InnerTripFound();
    InnerTripDropped();
    OuterTripFound();
    WithoutAll([0, 4, 5], {0, 4, 5});
  }

  /** What the analysis reports on `NestedTrips`: each unboxing feeds the boxing right behind it. */
  const NestedSuccs: map<Id, set<Id>> := map[2 := {3}, 4 := {5}]
  const NestedSources: map<Id, set<Id>> := map[3 := {2}, 5 := {4}]

  /** What the analysis reports on `[0, 4, 5]`, the list the first run leaves. */
  const OuterSuccs: map<Id, set<Id>> := map[4 := {5}]
  const OuterSources: map<Id, set<Id>> := map[5 := {4}]

  /** `NestedTrips` is a well-formed list with an unboxing, and the analysis results fit it. */
  lemma NestedShape()
    ensures Typed(NestedTrips, NestedOpcodes) && Distinct(NestedTrips) && HasUnboxing(NestedTrips, NestedOpcodes)
    ensures AnalysisFits(NestedTrips, NestedOpcodes, NestedSuccs, NestedSources)
  {
    assert 2 in NestedTrips && NestedOpcodes[2] == Unbox;
  }

  /** The candidates on `NestedTrips` are its two boxings. */
  lemma NestedCandidates()
    ensures Typed(NestedTrips, NestedOpcodes)
    ensures BoxingCandidates(NestedTrips, NestedOpcodes, NestedSuccs) == {3, 5}
  {
    NestedShape();
    assert AllBoxings(NestedSuccs[2], NestedOpcodes) && AllBoxings(NestedSuccs[4], NestedOpcodes);
    assert 2 in NestedTrips && 4 in NestedTrips;
  }

  /** A candidate right behind one of its sources does not move. */
  lemma BehindItsSource(insns: seq<Id>, boxings: set<Id>, srcs: map<Id, set<Id>>, b: Id, i: nat)
    requires Distinct(insns) && forall x :: x in boxings ==> x in insns
    requires b in boxings && 1 <= i < |insns| && insns[i] == b && b in srcs && insns[i - 1] in srcs[b]
    ensures b !in MovableBoxings(insns, boxings, srcs)
  {
  }

  /** Two candidates that each sit right behind one of their sources: neither moves. */
  lemma BothBehindSources(insns: seq<Id>, srcs: map<Id, set<Id>>, b1: Id, i1: nat, b2: Id, i2: nat)
    requires Distinct(insns)
    requires 1 <= i1 < |insns| && insns[i1] == b1 && b1 in srcs && insns[i1 - 1] in srcs[b1]
    requires 1 <= i2 < |insns| && insns[i2] == b2 && b2 in srcs && insns[i2 - 1] in srcs[b2]
    ensures MovableBoxings(insns, {b1, b2}, srcs) == {}
  {
    BehindItsSource(insns, {b1, b2}, srcs, b1, i1);
    BehindItsSource(insns, {b1, b2}, srcs, b2, i2);
  }

  /** On `NestedTrips` both boxings sit right behind their source, so phase one moves nothing. */
  lemma NestedNothingMoves()
    ensures Typed(NestedTrips, NestedOpcodes) && Distinct(NestedTrips)
    ensures BoxingCandidates(NestedTrips, NestedOpcodes, NestedSuccs) == {3, 5}
    ensures MovableBoxings(NestedTrips, BoxingCandidates(NestedTrips, NestedOpcodes, NestedSuccs), NestedSources) == {}
  {
    NestedShape();
    NestedCandidates();
    BothBehindSources(NestedTrips, NestedSources, 3, 3, 5, 5);
  }

  /** On `[0, 4, 5]` the boxing sits right behind its source, so phase one moves nothing. */
  lemma OuterNothingMoves(opcode: map<Id, Opcode>)
    requires forall x :: x in NestedOpcodes ==> x in opcode && opcode[x] == NestedOpcodes[x]
    ensures Typed([0, 4, 5], opcode) && Distinct([0, 4, 5]) && HasUnboxing([0, 4, 5], opcode)
    ensures AnalysisFits([0, 4, 5], opcode, OuterSuccs, OuterSources)
    ensures BoxingCandidates([0, 4, 5], opcode, OuterSuccs) == {5}
    ensures MovableBoxings([0, 4, 5], BoxingCandidates([0, 4, 5], opcode, OuterSuccs), OuterSources) == {}
  {
    assert opcode[4] == Unbox && opcode[5] == Box;
    assert AllBoxings(OuterSuccs[4], opcode);
    var t: seq<Id> := [0, 4, 5];
    assert t[1] == 4 && t[2] == 5;
  }

  /** When phase one moves nothing, it inserts nothing either. */
  lemma NoMovesNoBlocks(t: seq<Id>, after: map<Id, seq<Id>>, origin: map<Id, Id>, srcs: map<Id, set<Id>>,
                        opcode0: map<Id, Opcode>, opcode: map<Id, Opcode>)
    requires ClonesPlaced(after, origin, {}, srcs, opcode0, opcode)
    ensures Expand(Without(t, {}), after) == t
  {
    forall x | x in after
      ensures after[x] == []
    {
      if after[x] != [] {
        CloneOwned(after, origin, {}, srcs, opcode0, opcode, x, after[x][0]);
        assert false;
      }
    }
    WithoutNothing(t, {});
    ExpandUntouched(t, after);
  }

  /** A node inserted behind `s` is a clone of one of `owners`. */
  lemma CloneOwned(after: map<Id, seq<Id>>, origin: map<Id, Id>, owners: set<Id>, srcs: map<Id, set<Id>>,
                   opcode0: map<Id, Opcode>, opcode: map<Id, Opcode>, s: Id, c: Id)
    requires ClonesFresh(after, origin, owners, srcs, opcode0, opcode)
    requires s in after && c in after[s]
    ensures c in origin && origin[c] in owners
  {
  }

  /** Phase two reads the kinds of the listed nodes only. */
  lemma RoundTripsAgree(insns: seq<Id>, opcode1: map<Id, Opcode>, opcode2: map<Id, Opcode>)
    requires Typed(insns, opcode1) && Typed(insns, opcode2)
    requires forall x :: x in insns ==> opcode1[x] == opcode2[x]
    ensures RoundTrips(insns, opcode1) == RoundTrips(insns, opcode2)
  {
    forall i ensures RoundTripAt(insns, opcode1, i) == RoundTripAt(insns, opcode2, i) {
      if 0 < i < |insns| - 1 {
        assert insns[i - 1] in insns && insns[i] in insns && insns[i + 1] in insns;
      }
    }
  }

  /**
   * The whole pass is not idempotent: run on `NestedTrips`, it leaves the outer
   * round trip `[0, 4, 5]`, and a second run, on what the analysis then reports,
   * removes that too.
   */
  method PassNotIdempotent(list: InsnList) returns (once: seq<Id>)
    requires list.Valid() && list.insns == NestedTrips && list.opcode == NestedOpcodes
    modifies list
    ensures once == [0, 4, 5] && list.insns == []
  {
    NestedShape();
    NestedNothingMoves();
    RoundTripRemovalNotIdempotent();
    ghost var movable, after, origin, removed := Transform(list, NestedSuccs, NestedSources);
    NoMovesNoBlocks(NestedTrips, after, origin, NestedSources, NestedOpcodes, list.opcode);
    RoundTripsAgree(NestedTrips, NestedOpcodes, list.opcode);
    once := list.insns;
    ghost var opcode1 := list.opcode;
    OuterNothingMoves(opcode1);
    movable, after, origin, removed := Transform(list, OuterSuccs, OuterSources);
    NoMovesNoBlocks([0, 4, 5], after, origin, OuterSources, opcode1, list.opcode);
    RoundTripsAgree([0, 4, 5], NestedOpcodes, list.opcode);
  }

  /**
   * A candidate whose reported source set is empty passes the `all` test, so it
   * counts as movable: phase one unlinks it and places no clone of it anywhere.
   */
  lemma UnsourcedBoxingDropped(orig: seq<Id>, opcode0: map<Id, Opcode>, boxings: set<Id>, srcs: map<Id, set<Id>>,
                               after: map<Id, seq<Id>>, origin: map<Id, Id>, opcode: map<Id, Opcode>, b: Id)
    requires Distinct(orig) && forall x :: x in boxings ==> x in orig
    requires b in boxings && b in srcs && srcs[b] == {} && b in opcode0
    requires ClonesPlaced(after, origin, MovableBoxings(orig, boxings, srcs), srcs, opcode0, opcode)
    ensures b in MovableBoxings(orig, boxings, srcs)
    ensures b !in Expand(Without(orig, MovableBoxings(orig, boxings, srcs)), after)
    ensures forall s, c :: s in after && c in after[s] && c in origin ==> origin[c] != b
  {
    var movable := MovableBoxings(orig, boxings, srcs);
    WithoutMembers(orig, movable);
    forall c | c in Inserted(after)
      ensures c != b
    {
      var k :| k in after && c in after[k];
    }
  }
}
