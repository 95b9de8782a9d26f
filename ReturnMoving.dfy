/**
 * The return-moving pass of the coroutine code generator: every instruction that
 * feeds an ARETURN together with other instructions gets an ARETURN of its own
 * right behind it, unless it lies inside a suspension point. The source-instruction
 * analysis is an input: `srcs[r]` is the set of instructions whose value reaches
 * the ARETURN `r`.
 */
module ReturnMoving {
  import opened Insns

  /** A suspension point, as far as this pass looks at it: the nodes that open and close the call. */
  datatype SuspensionPoint = SuspensionPoint(callBegin: Id, callEnd: Id)

  /** Walking `next` from the call's begin node reaches its end node: both are linked, in that order. */
  predicate Delimits(insns: seq<Id>, sp: SuspensionPoint)
  {
    && sp.callBegin in insns
    && sp.callEnd in insns
    && IndexOf(insns, sp.callBegin) <= IndexOf(insns, sp.callEnd)
  }

  /** The nodes of a suspension point: from its begin node up to, but not including, its end node. */
  function Zone(insns: seq<Id>, sp: SuspensionPoint): seq<Id>
    requires Delimits(insns, sp)
  {
    insns[IndexOf(insns, sp.callBegin)..IndexOf(insns, sp.callEnd)]
  }

  /** The begin node belongs to a non-empty suspension point; the end node never belongs to its own. */
  lemma ZoneEnds(insns: seq<Id>, sp: SuspensionPoint)
    requires Distinct(insns) && Delimits(insns, sp)
    ensures sp.callEnd !in Zone(insns, sp)
    ensures sp.callBegin in Zone(insns, sp) <==> sp.callBegin != sp.callEnd
  {
    var b, e := IndexOf(insns, sp.callBegin), IndexOf(insns, sp.callEnd);
    if sp.callBegin != sp.callEnd {
      assert b != e;
      assert Zone(insns, sp)[0] == sp.callBegin;
    }
  }

  /**
   * `SuspensionPoint.contains`: walks `next` from the begin node until the end node
   * and reports whether `insn` was met on the way. It only reads the list.
   */
  method Contains(insns: seq<Id>, sp: SuspensionPoint, insn: Id) returns (found: bool)
    requires Distinct(insns) && Delimits(insns, sp)
    ensures found <==> insn in Zone(insns, sp)
  {
    var b, e := IndexOf(insns, sp.callBegin), IndexOf(insns, sp.callEnd);
    var i := b;
    while insns[i] != sp.callEnd
      invariant b <= i <= e
      invariant insn !in insns[b..i]
      decreases e - i
    {
      if insns[i] == insn {
        assert Zone(insns, sp)[i - b] == insn;
        return true;
      }
      assert insns[b..i + 1] == insns[b..i] + [insns[i]];
      i := i + 1;
    }
    found := false;
  }

  /** Every suspension point of the method is well formed in `insns`. */
  predicate AllDelimit(insns: seq<Id>, points: seq<SuspensionPoint>)
  {
    forall k :: 0 <= k < |points| ==> Delimits(insns, points[k])
  }

  /** `x` lies in none of the suspension points. */
  predicate Outside(insns: seq<Id>, points: seq<SuspensionPoint>, x: Id)
    requires AllDelimit(insns, points)
  {
    forall k :: 0 <= k < |points| ==> x !in Zone(insns, points[k])
  }

  /** `suspensionPoints.none { insn in it }`, negated: one `contains` walk per suspension point, stopping at the first hit. */
  method InSomeSuspensionPoint(insns: seq<Id>, points: seq<SuspensionPoint>, insn: Id) returns (inside: bool)
    requires Distinct(insns) && AllDelimit(insns, points)
    ensures inside <==> !Outside(insns, points, insn)
  {
    var k := 0;
    while k < |points|
      invariant k <= |points|
      invariant forall j :: 0 <= j < k ==> insn !in Zone(insns, points[j])
    {
      inside := Contains(insns, points[k], insn);
      if inside {
        return;
      }
      k := k + 1;
    }
    inside := false;
  }

  /** The source instructions of those ARETURNs that have more than one source. */
  function ReturnSources(insns: seq<Id>, opcode: map<Id, Opcode>, srcs: map<Id, set<Id>>): set<Id>
  {
    set r, s | r in insns && r in opcode && opcode[r] == Areturn && r in srcs && |srcs[r]| > 1 && s in srcs[r] :: s
  }

  /** The instructions that get an ARETURN behind them. */
  function Selected(insns: seq<Id>, opcode: map<Id, Opcode>, srcs: map<Id, set<Id>>, points: seq<SuspensionPoint>): set<Id>
    requires AllDelimit(insns, points)
  {
    set s | s in ReturnSources(insns, opcode, srcs) && Outside(insns, points, s)
  }

  /** Each selected instruction feeds some ARETURN that has several sources, and lies outside every suspension point. */
  lemma SelectedSources(insns: seq<Id>, opcode: map<Id, Opcode>, srcs: map<Id, set<Id>>,
                        points: seq<SuspensionPoint>, s: Id)
    requires AllDelimit(insns, points)
    ensures s in Selected(insns, opcode, srcs, points) <==>
      && (exists r :: r in insns && r in opcode && opcode[r] == Areturn && r in srcs && |srcs[r]| > 1 && s in srcs[r])
      && (forall k :: 0 <= k < |points| ==> s !in Zone(insns, points[k]))
  {
    if s in Selected(insns, opcode, srcs, points) {
      var r :| r in insns && r in opcode && opcode[r] == Areturn && r in srcs && |srcs[r]| > 1 && s in srcs[r];
    }
  }

  /** The analysis only names instructions of the method as sources. */
  predicate SourcesLinked(insns: seq<Id>, srcs: map<Id, set<Id>>)
  {
    forall r, s :: r in srcs && s in srcs[r] ==> s in insns
  }

  /** Expanding a list whose middle slice has no anchors leaves that slice in place. */
  lemma ExpandSplit(t: seq<Id>, after: map<Id, seq<Id>>, b: nat, e: nat)
    requires b <= e <= |t|
    requires forall x :: x in t[b..e] ==> x !in after
    ensures Expand(t, after) == Expand(t[..b], after) + t[b..e] + Expand(t[e..], after)
  {
    assert t == t[..b] + t[b..e] + t[e..];
    ExpandAppend(t[..b] + t[b..e], t[e..], after);
    ExpandAppend(t[..b], t[b..e], after);
    ExpandUntouched(t[b..e], after);
  }

  /** A suspension point whose nodes form the middle slice `z` of a list delimits exactly `z`. */
  lemma ZoneOfSlice(u: seq<Id>, p: seq<Id>, z: seq<Id>, q: seq<Id>, sp: SuspensionPoint)
    requires u == p + z + q && Distinct(u)
    requires |q| > 0 && q[0] == sp.callEnd
    requires if |z| > 0 then z[0] == sp.callBegin else sp.callBegin == sp.callEnd
    ensures Delimits(u, sp) && Zone(u, sp) == z
  {
    assert u[|p| + |z|] == sp.callEnd;
    IndexOfAt(u, |p| + |z|);
    if |z| > 0 {
      assert u[|p|] == sp.callBegin;
      IndexOfAt(u, |p|);
    }
    assert u[|p|..|p| + |z|] == z;
  }

  /**
   * Inserting nodes behind anchors outside a suspension point leaves the suspension
   * point delimiting exactly the nodes it delimited before.
   */
  lemma ZonePreserved(t: seq<Id>, after: map<Id, seq<Id>>, sp: SuspensionPoint)
    requires Distinct(t) && Distinct(Expand(t, after)) && Delimits(t, sp)
    requires forall x :: x in Zone(t, sp) ==> x !in after
    ensures Delimits(Expand(t, after), sp)
    ensures Zone(Expand(t, after), sp) == Zone(t, sp)
  {
    var b, e := IndexOf(t, sp.callBegin), IndexOf(t, sp.callEnd);
    ExpandSplit(t, after, b, e);
    ExpandAround(t[e..], after, 0);
    if b == e {
      IndexOfAt(t, b);
    }
    ZoneOfSlice(Expand(t, after), Expand(t[..b], after), t[b..e], Expand(t[e..], after), sp);
  }

  /** The filter `suspensionPoints.none { insn in it }` over the candidate sources. */
  method FilterOutside(insns: seq<Id>, points: seq<SuspensionPoint>, candidates: set<Id>)
    returns (selected: set<Id>)
    requires Distinct(insns) && AllDelimit(insns, points)
    ensures forall x :: x in selected <==> x in candidates && Outside(insns, points, x)
  {
    var rest := candidates;
    selected := {};
    while rest != {}
      invariant rest <= candidates
      invariant forall x :: x in selected <==> x in candidates && x !in rest && Outside(insns, points, x)
      decreases rest
    {
      var s :| s in rest;
      var inside := InSomeSuspensionPoint(insns, points, s);
      if !inside {
        selected := selected + {s};
      }
      rest := rest - {s};
    }
  }

  /** Each block of `after` is one node that was not allocated before. */
  ghost predicate FreshReturns(after: map<Id, seq<Id>>, opcode0: map<Id, Opcode>, opcode: map<Id, Opcode>)
  {
    forall s :: s in after ==>
      |after[s]| == 1 && after[s][0] !in opcode0 && after[s][0] in opcode && opcode[after[s][0]] == Areturn
  }

  /** The allocated nodes keep their kinds. */
  ghost predicate Extends(opcode0: map<Id, Opcode>, opcode: map<Id, Opcode>)
  {
    forall x :: x in opcode0 ==> x in opcode && opcode[x] == opcode0[x]
  }

  /** `insert(source, InsnNode(ARETURN))`, for a source that has no block behind it yet. */
  method InsertReturn(list: InsnList, source: Id, ghost t: seq<Id>, ghost after: map<Id, seq<Id>>) returns (n: Id)
    requires list.Valid() && Distinct(t) && list.insns == Expand(t, after)
    requires source in t && source !in after
    modifies list
    ensures list.Valid() && list.insns == Expand(t, after[source := [n]])
    ensures n !in old(list.opcode) && list.opcode == old(list.opcode)[n := Areturn]
  {
    n := list.Allocate(Areturn);
    ExpandInsert(t, after, source, n);
    assert [n] + Block(after, source) == [n];
    list.Insert(source, n);
  }

  /** One more fresh ARETURN behind a source keeps `FreshReturns` and `Extends`. */
  lemma ReturnStep(after: map<Id, seq<Id>>, opcode0: map<Id, Opcode>, opcode: map<Id, Opcode>, s: Id, n: Id)
    requires FreshReturns(after, opcode0, opcode) && Extends(opcode0, opcode) && n !in opcode
    ensures FreshReturns(after[s := [n]], opcode0, opcode[n := Areturn])
    ensures Extends(opcode0, opcode[n := Areturn])
  {
  }

  /** The loop `for (source in sources) insert(source, InsnNode(ARETURN))`. */
  method InsertReturns(list: InsnList, sources: set<Id>) returns (ghost after: map<Id, seq<Id>>)
    requires list.Valid()
    requires forall s :: s in sources ==> s in list.insns
    modifies list
    ensures list.Valid() && list.insns == Expand(old(list.insns), after)
    ensures after.Keys == sources
    ensures FreshReturns(after, old(list.opcode), list.opcode) && Extends(old(list.opcode), list.opcode)
  {
    ghost var t := list.insns;
    after := map[];
    ExpandUntouched(t, after);
    var pending := sources;
    while pending != {}
      invariant list.Valid() && list.insns == Expand(t, after)
      invariant pending !! after.Keys && pending + after.Keys == sources
      invariant FreshReturns(after, old(list.opcode), list.opcode) && Extends(old(list.opcode), list.opcode)
      decreases pending
    {
      var s :| s in pending;
      ghost var opcode := list.opcode;
      var n := InsertReturn(list, s, t, after);
      ReturnStep(after, old(list.opcode), opcode, s, n);
      after := after[s := [n]];
      pending := pending - {s};
    }
  }

  /** One node behind each of some anchors grows the list by the number of anchors. */
  lemma ReturnsCounted(t: seq<Id>, after: map<Id, seq<Id>>)
    requires Distinct(t)
    requires forall s :: s in after ==> s in t && |after[s]| == 1
    ensures |Expand(t, after)| == |t| + |after.Keys|
  {
    assert Anchors(t, after) == after.Keys;
    ExpandLength(t, after);
  }

  /** Unlinking the fresh nodes gives the old list back: nothing was removed or reordered. */
  lemma ReturnsUnlinked(t: seq<Id>, after: map<Id, seq<Id>>, opcode0: map<Id, Opcode>)
    requires forall x :: x in t ==> x in opcode0
    requires forall s :: s in after ==> |after[s]| == 1 && after[s][0] !in opcode0
    ensures Without(Expand(t, after), Inserted(after)) == t
  {
    assert forall x :: x in t ==> x !in Inserted(after);
    ExpandDropInserted(t, after);
  }

  /** Every suspension point keeps its nodes when no anchor lies inside one. */
  lemma ZonesPreserved(t: seq<Id>, after: map<Id, seq<Id>>, points: seq<SuspensionPoint>)
    requires Distinct(t) && Distinct(Expand(t, after)) && AllDelimit(t, points)
    requires forall k, x :: 0 <= k < |points| && x in Zone(t, points[k]) ==> x !in after
    ensures AllDelimit(Expand(t, after), points)
    ensures forall k :: 0 <= k < |points| ==> Zone(Expand(t, after), points[k]) == Zone(t, points[k])
  {
    forall k | 0 <= k < |points|
      ensures Delimits(Expand(t, after), points[k]) && Zone(Expand(t, after), points[k]) == Zone(t, points[k])
    {
      ZonePreserved(t, after, points[k]);
    }
  }

  /**
   * `ReturnMovingMethodTransformer.transform`: an ARETURN is inserted right behind
   * each selected source instruction, and nothing else changes. `after` maps each
   * selected instruction to the one-node block inserted behind it.
   */
  method Transform(list: InsnList, srcs: map<Id, set<Id>>, points: seq<SuspensionPoint>)
    returns (ghost after: map<Id, seq<Id>>)
    requires list.Valid()
    requires SourcesLinked(list.insns, srcs) && AllDelimit(list.insns, points)
    modifies list
    ensures list.Valid()
    ensures after.Keys == Selected(old(list.insns), old(list.opcode), srcs, points)
    ensures list.insns == Expand(old(list.insns), after)
    ensures FreshReturns(after, old(list.opcode), list.opcode) && Extends(old(list.opcode), list.opcode)
    ensures |list.insns| == |old(list.insns)| + |after.Keys|
    ensures Without(list.insns, Inserted(after)) == old(list.insns)
    ensures AllDelimit(list.insns, points)
    ensures forall k :: 0 <= k < |points| ==> Zone(list.insns, points[k]) == Zone(old(list.insns), points[k])
  {
    ghost var t, opcode0 := list.insns, list.opcode;
    var candidates := ReturnSources(list.insns, list.opcode, srcs);
    var selected := FilterOutside(list.insns, points, candidates);
    assert selected == Selected(t, opcode0, srcs, points);
    after := InsertReturns(list, selected);
    ReturnsCounted(t, after);
    ReturnsUnlinked(t, after, opcode0);
    ZonesPreserved(t, after, points);
  }

  /** Right behind each selected instruction, the new list holds the fresh ARETURN inserted for it. */
  lemma ReturnBehindSource(t: seq<Id>, after: map<Id, seq<Id>>, s: Id)
    requires Distinct(Expand(t, after))
    requires s in t && s in after && |after[s]| == 1
    ensures IndexOf(Expand(t, after), s) + 1 < |Expand(t, after)|
    ensures Expand(t, after)[IndexOf(Expand(t, after), s) + 1] == after[s][0]
  {
    var i := IndexOf(t, s);
    ExpandAround(t, after, i);
    var p := Expand(t[..i], after);
    IndexOfAt(Expand(t, after), |p|);
  }
}
