/**
 Decoded JSON values and the equality `validate.go` compares them with.

 A decoded value is what `encoding/json` produces for an `any`.  Strings are sequences of
 bytes (one `char` a byte), numbers are mathematical reals.
 */
module JsonValues {
  datatype Json =
    | Null
    | Bool(b: bool)
    | Num(n: real)
    | Str(s: string)
    | Arr(items: seq<Json>)
    | Obj(members: map<string, Json>)

  /** Indexing a Go map: a missing key reads as nil, which is also what JSON null decodes to. */
  function Lookup(members: map<string, Json>, key: string): Json {
    if key in members then members[key] else Null
  }

  /** What `jsonEqual` decides, as a relation. */
  ghost predicate JsonEqual(a: Json, b: Json)
    decreases a
  {
    match a
    case Obj(am) =>
      && b.Obj?
      && |am| == |b.members|
      && forall k | k in am :: JsonEqual(am[k], Lookup(b.members, k))
    case Arr(ai) =>
      && b.Arr?
      && |ai| == |b.items|
      && forall i | 0 <= i < |ai| :: JsonEqual(ai[i], b.items[i])
    case _ => a == b
  }

  /** `jsonEqual`: one early exit per mismatch, members visited in an arbitrary order. */
  method CompareJson(a: Json, b: Json) returns (equal: bool)
    ensures equal <==> JsonEqual(a, b)
    decreases a
  {
    match a {
      case Obj(am) =>
        if !b.Obj? || |am| != |b.members| {
          return false;
        }
        var unseen := am.Keys;
        while unseen != {}
          invariant unseen <= am.Keys
          invariant forall k | k in am.Keys - unseen :: JsonEqual(am[k], Lookup(b.members, k))
        {
          var k :| k in unseen;
          var same := CompareJson(am[k], Lookup(b.members, k));
          if !same {
            return false;
          }
          unseen := unseen - {k};
        }
        return true;
      case Arr(ai) =>
        if !b.Arr? || |ai| != |b.items| {
          return false;
        }
        for i := 0 to |ai|
          invariant forall j | 0 <= j < i :: JsonEqual(ai[j], b.items[j])
        {
          var same := CompareJson(ai[i], b.items[i]);
          if !same {
            return false;
          }
        }
        return true;
      case _ =>
        return a == b;
    }
  }

  /** No object anywhere inside the value has a null member. */
  ghost predicate NullMemberFree(a: Json) {
    match a
    case Obj(am) => forall k | k in am :: !am[k].Null? && NullMemberFree(am[k])
    case Arr(ai) => forall i | 0 <= i < |ai| :: NullMemberFree(ai[i])
    case _ => true
  }

  lemma SubsetOfEqualSize<T>(small: set<T>, large: set<T>)
    requires small <= large && |small| == |large|
    ensures small == large
  {
    if small != large {
      assert exists x :: x in large && x !in small;
      var x :| x in large && x !in small;
      SubsetCardinality(small, large - {x});
    }
  }

  lemma SubsetCardinality<T>(small: set<T>, large: set<T>)
    requires small <= large
    ensures |small| <= |large|
  {
    if x :| x in small {
      SubsetCardinality(small - {x}, large - {x});
    }
  }

  /** On a left operand without null members the comparison is structural equality. */
  lemma {:induction false} EqualIsStructural(a: Json, b: Json)
    requires NullMemberFree(a)
    ensures JsonEqual(a, b) <==> a == b
    decreases a
  {
    match a {
      case Obj(am) =>
        if b.Obj? {
          var bm := b.members;
          forall k | k in am
            ensures JsonEqual(am[k], Lookup(bm, k)) <==> am[k] == Lookup(bm, k)
          {
            EqualIsStructural(am[k], Lookup(bm, k));
          }
          if JsonEqual(a, b) {
            assert am.Keys <= bm.Keys;
            assert |am.Keys| == |am| && |bm.Keys| == |bm|;
            SubsetOfEqualSize(am.Keys, bm.Keys);
            assert am == bm;
          }
        }
      case Arr(ai) =>
        if b.Arr? && |ai| == |b.items| {
          forall i | 0 <= i < |ai|
            ensures JsonEqual(ai[i], b.items[i]) <==> ai[i] == b.items[i]
          {
            EqualIsStructural(ai[i], b.items[i]);
          }
        }
      case _ =>
    }
  }

  lemma {:induction false} EqualIsReflexive(a: Json)
    ensures JsonEqual(a, a)
  {
    match a {
      case Obj(am) =>
        forall k | k in am ensures JsonEqual(am[k], Lookup(am, k)) {
          EqualIsReflexive(am[k]);
        }
      case Arr(ai) =>
        forall i | 0 <= i < |ai| ensures JsonEqual(ai[i], ai[i]) {
          EqualIsReflexive(ai[i]);
        }
      case _ =>
    }
  }

  /** Hence on values without null members it is symmetric and transitive as well. */
  lemma EqualIsEquivalence(a: Json, b: Json, c: Json)
    requires NullMemberFree(a) && NullMemberFree(b)
    ensures JsonEqual(a, b) <==> JsonEqual(b, a)
    ensures JsonEqual(a, b) && JsonEqual(b, c) ==> JsonEqual(a, c)
  {
    EqualIsStructural(a, b);
    EqualIsStructural(b, a);
    EqualIsStructural(b, c);
    EqualIsStructural(a, c);
  }

  lemma FreshKey(keys: set<string>) returns (unused: string)
    ensures unused !in keys
    ensures forall k | k in keys :: |k| < |unused|
  {
    if keys == {} {
      unused := "";
    } else {
      var k :| k in keys;
      var shorter := FreshKey(keys - {k});
      unused := seq(|k| + |shorter| + 1, _ => 'x');
      assert forall j | j in keys :: j == k || j in keys - {k};
    }
  }

  /** Any null member lets the comparison confuse the value with a different one. */
  lemma {:induction false} NullMemberConfuses(a: Json) returns (b: Json)
    requires !NullMemberFree(a)
    ensures a != b && JsonEqual(a, b)
  {
    EqualIsReflexive(a);
    match a {
      case Obj(am) =>
        if k :| k in am && am[k].Null? {
          var unused := FreshKey(am.Keys);
          var bm := (am - {k})[unused := Bool(true)];
          b := Obj(bm);
          assert bm.Keys == am.Keys - {k} + {unused};
          assert |bm.Keys| == |am.Keys|;
          assert |am.Keys| == |am| && |bm.Keys| == |bm|;
          assert unused in bm && unused !in am;
        } else {
          var k :| k in am && !NullMemberFree(am[k]);
          var confused := NullMemberConfuses(am[k]);
          var bm := am[k := confused];
          b := Obj(bm);
          assert bm.Keys == am.Keys;
          assert |am.Keys| == |am| && |bm.Keys| == |bm|;
          assert bm[k] != am[k];
        }
      case Arr(ai) =>
        var i :| 0 <= i < |ai| && !NullMemberFree(ai[i]);
        var confused := NullMemberConfuses(ai[i]);
        b := Arr(ai[i := confused]);
        assert b.items[i] != ai[i];
      case _ =>
    }
  }

  /** The exact reach of `jsonEqual`: it is structural for a left operand iff that has no null member. */
  lemma StructuralIffNullMemberFree(a: Json)
    ensures NullMemberFree(a) <==> forall b :: JsonEqual(a, b) <==> a == b
  {
    if NullMemberFree(a) {
      forall b ensures JsonEqual(a, b) <==> a == b {
        EqualIsStructural(a, b);
      }
    } else {
      var b := NullMemberConfuses(a);
      assert !(JsonEqual(a, b) <==> a == b);
    }
  }

  /** A concrete pair on which the comparison is not symmetric. */
  lemma NullMemberBreaksSymmetry()
    ensures var a, b := Obj(map["x" := Null]), Obj(map["y" := Num(1.0)]);
            JsonEqual(a, b) && !JsonEqual(b, a)
  {
    var am, bm := map["x" := Null], map["y" := Num(1.0)];
    assert |am.Keys| == |bm.Keys| == 1;
    assert "x" in am && "y" in bm && "x" != "y";
    assert Lookup(am, "y") == Null;
  }
}
