/**
 * The instruction list of one method, as the coroutine passes see it: an ordered
 * list of instruction nodes that are told apart by identity (ASM's `InsnList` of
 * `AbstractInsnNode`s). A node is an `Id`; its kind is looked up in an opcode map
 * that also keeps the nodes that have been unlinked, as the JVM keeps the objects.
 */
module Insns {
  import opened Wrappers

  /** The identity of an instruction node: two nodes are the same instruction exactly when their ids are equal. */
  type Id = nat

  /** The instruction kinds the coroutine passes tell apart. */
  datatype Opcode =
    | Box        // a primitive boxing call such as Integer.valueOf
    | Unbox      // a primitive unboxing call such as Integer.intValue
    | Checkcast  // CHECKCAST
    | Areturn    // ARETURN
    | Other      // every other node, labels and line numbers included

  /** No node occurs twice in the list. */
  predicate Distinct(s: seq<Id>)
  {
    forall i, j :: 0 <= i < j < |s| ==> s[i] != s[j]
  }

  /** The position of node `x` in the list. */
  function IndexOf(s: seq<Id>, x: Id): (i: nat)
    requires x in s
    ensures i < |s| && s[i] == x
    ensures forall j :: 0 <= j < i ==> s[j] != x
  {
    if s[0] == x then 0 else 1 + IndexOf(s[1..], x)
  }

  lemma IndexOfAt(s: seq<Id>, i: nat)
    requires Distinct(s) && i < |s|
    ensures IndexOf(s, s[i]) == i
  {
  }

  /** ASM's `previous`: the node right before `x`, or `None` when `x` is the first node. */
  function Previous(s: seq<Id>, x: Id): (r: Option<Id>)
    requires x in s
    ensures r.None? <==> s[0] == x
    ensures r.Some? ==> exists i :: 1 <= i < |s| && s[i - 1] == r.value && s[i] == x
  {
    var i := IndexOf(s, x);
    if i == 0 then None else Some(s[i - 1])
  }

  /** The list with every node of `xs` unlinked; the other nodes keep their order. */
  function Without(s: seq<Id>, xs: set<Id>): (r: seq<Id>)
    ensures |r| <= |s|
  {
    if s == [] then []
    else if s[0] in xs then Without(s[1..], xs)
    else [s[0]] + Without(s[1..], xs)
  }

  /** The nodes left are those of the list that are not unlinked. */
  lemma {:induction false} WithoutMembers(s: seq<Id>, xs: set<Id>)
    ensures forall x :: x in Without(s, xs) <==> x in s && x !in xs
  {
    if s != [] {
      WithoutMembers(s[1..], xs);
      assert forall x :: x in s <==> x == s[0] || x in s[1..];
    }
  }

  /** Unlinking nodes from a list without repetitions leaves a list without repetitions. */
  lemma {:induction false} WithoutDistinct(s: seq<Id>, xs: set<Id>)
    requires Distinct(s)
    ensures Distinct(Without(s, xs))
  {
    if s != [] {
      WithoutDistinct(s[1..], xs);
      WithoutMembers(s[1..], xs);
      if s[0] !in xs {
        DistinctAppend([s[0]], Without(s[1..], xs));
      }
    }
  }

  /** ASM's `insert(anchor, n)`: the list with node `n` linked in right after `anchor`. */
  function InsertAfter(s: seq<Id>, anchor: Id, n: Id): (r: seq<Id>)
    requires anchor in s
    ensures |r| == |s| + 1
    ensures forall x :: x in r <==> x in s || x == n
  {
    if s[0] == anchor then [anchor, n] + s[1..] else [s[0]] + InsertAfter(s[1..], anchor, n)
  }

  /** A list is without repetitions exactly when both parts are and they share no node. */
  lemma DistinctAppend(p: seq<Id>, q: seq<Id>)
    ensures Distinct(p + q) <==> Distinct(p) && Distinct(q) && forall x :: x in p ==> x !in q
  {
    var s := p + q;
    if Distinct(s) {
      forall i, j | 0 <= i < j < |p| ensures p[i] != p[j] {
        assert s[i] == p[i] && s[j] == p[j];
      }
      forall i, j | 0 <= i < j < |q| ensures q[i] != q[j] {
        assert s[|p| + i] == q[i] && s[|p| + j] == q[j];
      }
      forall x | x in p ensures x !in q {
        var i := IndexOf(p, x);
        forall j | 0 <= j < |q| ensures q[j] != x {
          assert s[i] == x && s[|p| + j] == q[j];
        }
      }
    }
    if Distinct(p) && Distinct(q) && forall x :: x in p ==> x !in q {
      forall i, j | 0 <= i < j < |s| ensures s[i] != s[j] {
        if j < |p| {
          assert s[i] == p[i] && s[j] == p[j];
        } else if i >= |p| {
          assert s[i] == q[i - |p|] && s[j] == q[j - |p|];
        } else {
          assert s[i] == p[i] && p[i] in p;
          assert s[j] == q[j - |p|] && q[j - |p|] in q;
        }
      }
    }
  }

  /** Linking in a node that is not in the list keeps the list free of repetitions. */
  lemma {:induction false} InsertAfterDistinct(s: seq<Id>, anchor: Id, n: Id)
    requires anchor in s && Distinct(s) && n !in s
    ensures Distinct(InsertAfter(s, anchor, n))
  {
    DistinctAppend([s[0]], s[1..]);
    assert s == [s[0]] + s[1..];
    if s[0] == anchor {
      DistinctAppend([anchor], [n] + s[1..]);
      DistinctAppend([n], s[1..]);
    } else {
      InsertAfterDistinct(s[1..], anchor, n);
      DistinctAppend([s[0]], InsertAfter(s[1..], anchor, n));
    }
  }

  /** Unlinking from a list that starts with `x` decides `x` first, then the rest. */
  lemma WithoutCons(x: Id, s: seq<Id>, xs: set<Id>)
    ensures Without([x] + s, xs) == (if x in xs then [] else [x]) + Without(s, xs)
  {
    assert ([x] + s)[1..] == s;
  }

  lemma {:induction false} WithoutNothing(s: seq<Id>, xs: set<Id>)
    requires forall x :: x in s ==> x !in xs
    ensures Without(s, xs) == s
  {
    if s != [] {
      WithoutNothing(s[1..], xs);
      assert s == [s[0]] + s[1..];
    }
  }

  lemma {:induction false} WithoutAppend(p: seq<Id>, q: seq<Id>, xs: set<Id>)
    ensures Without(p + q, xs) == Without(p, xs) + Without(q, xs)
  {
    if p == [] {
      assert p + q == q;
    } else {
      assert (p + q)[1..] == p[1..] + q;
      WithoutAppend(p[1..], q, xs);
    }
  }

  lemma {:induction false} WithoutAll(s: seq<Id>, xs: set<Id>)
    requires forall x :: x in s ==> x in xs
    ensures Without(s, xs) == []
  {
    if s != [] {
      WithoutAll(s[1..], xs);
    }
  }

  /** Unlinking `a` and then `b` unlinks `a + b`. */
  lemma {:induction false} WithoutWithout(s: seq<Id>, a: set<Id>, b: set<Id>)
    ensures Without(Without(s, a), b) == Without(s, a + b)
  {
    if s != [] {
      WithoutWithout(s[1..], a, b);
    }
  }

  /** Unlinking a node that `InsertAfter` linked in gives the list back. */
  lemma {:induction false} RemoveInserted(s: seq<Id>, anchor: Id, n: Id)
    requires anchor in s && n !in s
    ensures Without(InsertAfter(s, anchor, n), {n}) == s
  {
    if s[0] == anchor {
      WithoutNothing(s[1..], {n});
    } else {
      RemoveInserted(s[1..], anchor, n);
    }
  }

  lemma {:induction false} InsertAfterAppend(p: seq<Id>, q: seq<Id>, anchor: Id, n: Id)
    requires anchor !in p && anchor in q
    ensures InsertAfter(p + q, anchor, n) == p + InsertAfter(q, anchor, n)
  {
    if p == [] {
      assert p + q == q;
    } else {
      assert (p + q)[1..] == p[1..] + q;
      InsertAfterAppend(p[1..], q, anchor, n);
    }
  }

  /** The nodes inserted behind `x`. */
  function Block(after: map<Id, seq<Id>>, x: Id): seq<Id>
  {
    if x in after then after[x] else []
  }

  /** Every node that `after` inserts behind some anchor. */
  function Inserted(after: map<Id, seq<Id>>): set<Id>
  {
    set k, c | k in after && c in after[k] :: c
  }

  /**
   * The list `t` with, right behind each of its nodes `x`, the nodes `after[x]`.
   * A pass that only inserts nodes behind anchors of `t` leaves `Expand(t, after)`.
   */
  function Expand(t: seq<Id>, after: map<Id, seq<Id>>): (r: seq<Id>)
    ensures forall x :: x in t ==> x in r
    ensures forall x :: x in r ==> x in t || x in Inserted(after)
  {
    if t == [] then [] else [t[0]] + Block(after, t[0]) + Expand(t[1..], after)
  }

  lemma {:induction false} ExpandAppend(p: seq<Id>, q: seq<Id>, after: map<Id, seq<Id>>)
    ensures Expand(p + q, after) == Expand(p, after) + Expand(q, after)
  {
    if p == [] {
      assert p + q == q;
    } else {
      assert (p + q)[1..] == p[1..] + q;
      ExpandAppend(p[1..], q, after);
    }
  }

  /** A stretch of the list none of whose nodes is an anchor is left as it was. */
  lemma {:induction false} ExpandUntouched(t: seq<Id>, after: map<Id, seq<Id>>)
    requires forall x :: x in t ==> Block(after, x) == []
    ensures Expand(t, after) == t
  {
    if t != [] {
      ExpandUntouched(t[1..], after);
    }
  }

  lemma {:induction false} ExpandIgnoresAbsent(t: seq<Id>, after: map<Id, seq<Id>>, k: Id, v: seq<Id>)
    requires k !in t
    ensures Expand(t, after[k := v]) == Expand(t, after)
  {
    if t != [] {
      ExpandIgnoresAbsent(t[1..], after, k, v);
    }
  }

  /** Around its `i`-th node, the expanded list is that node followed by exactly its inserted block. */
  lemma ExpandAround(t: seq<Id>, after: map<Id, seq<Id>>, i: nat)
    requires i < |t|
    ensures Expand(t, after) == Expand(t[..i], after) + [t[i]] + Block(after, t[i]) + Expand(t[i + 1..], after)
  {
    assert t == t[..i] + t[i..];
    ExpandAppend(t[..i], t[i..], after);
    assert t[i..][1..] == t[i + 1..];
  }

  /**
   * Linking a fresh node `n` in right behind anchor `a` adds it at the front of
   * `a`'s block.
   */
  lemma {:induction false} ExpandInsert(t: seq<Id>, after: map<Id, seq<Id>>, a: Id, n: Id)
    requires a in t && Distinct(t) && Distinct(Expand(t, after))
    ensures InsertAfter(Expand(t, after), a, n) == Expand(t, after[a := [n] + Block(after, a)])
  {
    assert t == [t[0]] + t[1..];
    DistinctAppend([t[0]], t[1..]);
    if t[0] == a {
      ExpandInsertFront(t, after, n);
    } else {
      var head := [t[0]] + Block(after, t[0]);
      var rest := Expand(t[1..], after);
      assert Expand(t, after) == head + rest;
      DistinctAppend(head, rest);
      assert a in rest;
      InsertAfterAppend(head, rest, a, n);
      ExpandInsert(t[1..], after, a, n);
    }
  }

  /** `ExpandInsert` at the first node of the list. */
  lemma ExpandInsertFront(t: seq<Id>, after: map<Id, seq<Id>>, n: Id)
    requires t != [] && t[0] !in t[1..]
    ensures InsertAfter(Expand(t, after), t[0], n) == Expand(t, after[t[0] := [n] + Block(after, t[0])])
  {
    ExpandIgnoresAbsent(t[1..], after, t[0], [n] + Block(after, t[0]));
  }

  /**
   * Unlinking nodes that are neither anchors with a block nor inserted nodes
   * commutes with the insertions.
   */
  lemma {:induction false} ExpandRemove(t: seq<Id>, after: map<Id, seq<Id>>, xs: set<Id>)
    requires forall x :: x in xs ==> Block(after, x) == [] && x !in Inserted(after)
    ensures Without(Expand(t, after), xs) == Expand(Without(t, xs), after)
  {
    if t != [] {
      var b := Block(after, t[0]);
      WithoutAppend([t[0]] + b, Expand(t[1..], after), xs);
      WithoutAppend([t[0]], b, xs);
      assert forall c :: c in b ==> c in Inserted(after);
      WithoutNothing(b, xs);
      ExpandRemove(t[1..], after, xs);
      if t[0] !in xs {
        assert Without(t, xs) == [t[0]] + Without(t[1..], xs);
      }
    }
  }

  /** Unlinking every inserted node gives back the list the insertions started from. */
  lemma {:induction false} ExpandDropInserted(t: seq<Id>, after: map<Id, seq<Id>>)
    requires forall x :: x in t ==> x !in Inserted(after)
    ensures Without(Expand(t, after), Inserted(after)) == t
  {
    if t != [] {
      var ins := Inserted(after);
      var b := Block(after, t[0]);
      assert forall c :: c in b ==> c in ins;
      WithoutAppend([t[0]] + b, Expand(t[1..], after), ins);
      WithoutAppend([t[0]], b, ins);
      WithoutAll(b, ins);
      assert t[0] !in ins;
      assert Without([t[0]], ins) == [t[0]];
      ExpandDropInserted(t[1..], after);
      assert t == [t[0]] + t[1..];
    }
  }

  /** The nodes of `t` that have a block in `after`. */
  function Anchors(t: seq<Id>, after: map<Id, seq<Id>>): set<Id>
  {
    set x | x in t && x in after
  }

  /** Inserting one node behind each anchor grows the list by the number of anchors. */
  lemma {:induction false} ExpandLength(t: seq<Id>, after: map<Id, seq<Id>>)
    requires Distinct(t)
    requires forall k :: k in after ==> |after[k]| == 1
    ensures |Expand(t, after)| == |t| + |Anchors(t, after)|
  {
    if t == [] {
      assert Anchors(t, after) == {};
    } else {
      assert t == [t[0]] + t[1..];
      DistinctAppend([t[0]], t[1..]);
      ExpandLength(t[1..], after);
      var rest := Anchors(t[1..], after);
      assert t[0] !in rest;
      var here: set<Id> := if t[0] in after then {t[0]} else {};
      assert Anchors(t, after) == here + rest;
      assert |Block(after, t[0])| == |here|;
    }
  }

  /**
   * The instruction list of a method. `opcode` knows every node ever allocated for
   * the method, linked or not; `nextId` is above all of them, so `Allocate` hands
   * out fresh identities.
   */
  class InsnList {
    var insns: seq<Id>
    var opcode: map<Id, Opcode>
    var nextId: Id

    ghost predicate Valid()
      reads this
    {
      && Distinct(insns)
      && (forall x :: x in insns ==> x in opcode)
      && (forall x :: x in opcode ==> x < nextId)
    }

    /** A new node of kind `op`, not yet linked into the list (ASM's `clone()` or `InsnNode(op)`). */
    method Allocate(op: Opcode) returns (n: Id)
      requires Valid()
      modifies this
      ensures Valid()
      ensures n !in old(opcode) && opcode == old(opcode)[n := op]
      ensures insns == old(insns)
    {
      n := nextId;
      opcode := opcode[n := op];
      nextId := nextId + 1;
    }

    /** ASM's `insert(anchor, n)`: links the unlinked node `n` in right after `anchor`. */
    method Insert(anchor: Id, n: Id)
      requires Valid()
      requires anchor in insns && n in opcode && n !in insns
      modifies this
      ensures Valid()
      ensures insns == InsertAfter(old(insns), anchor, n)
      ensures opcode == old(opcode)
    {
      InsertAfterDistinct(insns, anchor, n);
      insns := InsertAfter(insns, anchor, n);
    }

    /** ASM's `remove(x)`: unlinks `x`; the other nodes keep their order. */
    method Remove(x: Id)
      requires Valid()
      requires x in insns
      modifies this
      ensures Valid()
      ensures insns == Without(old(insns), {x})
      ensures opcode == old(opcode)
    {
      WithoutMembers(insns, {x});
      WithoutDistinct(insns, {x});
      insns := Without(insns, {x});
    }

    /** The `removeAll` helper of the coroutine passes: unlinks every node of `xs`, one at a time. */
    method RemoveAll(xs: set<Id>)
      requires Valid()
      requires forall x :: x in xs ==> x in insns
      modifies this
      ensures Valid()
      ensures insns == Without(old(insns), xs)
      ensures opcode == old(opcode)
    {
      var pending := xs;
      ghost var done: set<Id> := {};
      WithoutNothing(insns, {});
      while pending != {}
        invariant Valid() && opcode == old(opcode)
        invariant pending !! done && pending + done == xs
        invariant insns == Without(old(insns), done)
        decreases pending
      {
        var x :| x in pending;
        WithoutMembers(old(insns), done);
        Remove(x);
        WithoutWithout(old(insns), done, {x});
        pending := pending - {x};
        done := done + {x};
      }
    }
  }
}
