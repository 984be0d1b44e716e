/**
  Properties of the comparison engine: the byte-wise order, operator mirroring,
  the identity, coercion, nil, opaque and incomparability rules, the order laws,
  and the rows of the test table.
*/
module TqlCompareLemmas {
  import opened Primitives
  import opened TqlCompare

  // ---------------------------------------------------------------------------
  // The byte-wise lexicographic order
  // ---------------------------------------------------------------------------

  /** Reference definition of "s sorts before t": at the first position where they
      differ, s has the smaller byte, or s is a proper prefix of t. */
  ghost predicate LexLess(s: seq<Byte>, t: seq<Byte>) {
    || (exists n :: 0 <= n < |s| && n < |t| && s[..n] == t[..n] && s[n] < t[n])
    || (|s| < |t| && s == t[..|s|])
  }

  lemma LexLessEmpty(s: seq<Byte>, t: seq<Byte>)
    requires s == [] || t == []
    ensures LexLess(s, t) <==> s == [] && t != []
  {
    if s == [] && t != [] {
      assert s == t[..|s|];
    }
  }

  lemma LexLessHead(s: seq<Byte>, t: seq<Byte>)
    requires s != [] && t != [] && s[0] != t[0]
    ensures LexLess(s, t) <==> s[0] < t[0]
  {
    if s[0] < t[0] {
      assert s[..0] == t[..0];
    }
  }

  lemma LexLessTail(s: seq<Byte>, t: seq<Byte>)
    requires s != [] && t != [] && s[0] == t[0]
    ensures LexLess(s, t) <==> LexLess(s[1..], t[1..])
  {
    var s', t' := s[1..], t[1..];
    if LexLess(s, t) {
      if |s| < |t| && s == t[..|s|] {
        assert s' == t'[..|s'|];
      } else {
        var n :| 0 <= n < |s| && n < |t| && s[..n] == t[..n] && s[n] < t[n];
        assert n != 0;
        assert s'[..n - 1] == s[1..n] == t[1..n] == t'[..n - 1];
        assert s'[n - 1] < t'[n - 1];
      }
    }
    if LexLess(s', t') {
      if |s'| < |t'| && s' == t'[..|s'|] {
        assert s == [s[0]] + s' && t[..|s|] == [t[0]] + t'[..|s'|];
      } else {
        var n :| 0 <= n < |s'| && n < |t'| && s'[..n] == t'[..n] && s'[n] < t'[n];
        assert s[..n + 1] == [s[0]] + s'[..n] && t[..n + 1] == [t[0]] + t'[..n];
        assert s[n + 1] < t[n + 1];
      }
    }
  }

  /** CompareLex says Less exactly when the reference definition holds. */
  lemma {:induction false} CompareLexLess(s: seq<Byte>, t: seq<Byte>)
    ensures CompareLex(s, t) == Less <==> LexLess(s, t)
    decreases |s|
  {
    if s == [] || t == [] {
      LexLessEmpty(s, t);
    } else if s[0] != t[0] {
      LexLessHead(s, t);
    } else {
      CompareLexLess(s[1..], t[1..]);
      LexLessTail(s, t);
    }
  }

  /** Comparing the other way round flips the verdict. */
  lemma {:induction false} CompareLexFlip(s: seq<Byte>, t: seq<Byte>)
    ensures CompareLex(t, s) == CompareLex(s, t).Flip()
    decreases |s|
  {
    if s != [] && t != [] && s[0] == t[0] {
      CompareLexFlip(s[1..], t[1..]);
    }
  }

  lemma {:induction false} CompareLexTransitive(s: seq<Byte>, t: seq<Byte>, u: seq<Byte>)
    requires CompareLex(s, t) == Less && CompareLex(t, u) == Less
    ensures CompareLex(s, u) == Less
    decreases |s|
  {
    if s != [] && t != [] && u != [] && s[0] == t[0] && t[0] == u[0] {
      CompareLexTransitive(s[1..], t[1..], u[1..]);
    }
  }

  // ---------------------------------------------------------------------------
  // Operator laws that hold for every pair of values
  // ---------------------------------------------------------------------------

  /** NE is the exact complement of EQ. */
  lemma NotEqualIsComplement(a: Value, b: Value)
    ensures Compare(a, b, NE) == !Compare(a, b, EQ)
  {
  }

  /** Swapping the operands flips the resolved ordering. */
  lemma ResolveFlip(a: Value, b: Value)
    ensures Resolve(b, a) == match Resolve(a, b)
                             case Ordered(o) => Ordered(o.Flip())
                             case Unordered(e) => Unordered(e)
  {
    match (a, b)
    case (Str(s), Str(t)) => CompareLexFlip(s, t);
    case (Bytes(Some(s)), Bytes(Some(t))) => CompareLexFlip(s, t);
    case _ =>
  }

  /** Operator mirroring: LT(a,b) == GT(b,a), LTE(a,b) == GTE(b,a), and EQ, NE are symmetric. */
  lemma Mirroring(a: Value, b: Value)
    ensures Compare(a, b, LT) == Compare(b, a, GT)
    ensures Compare(a, b, LTE) == Compare(b, a, GTE)
    ensures Compare(a, b, EQ) == Compare(b, a, EQ)
    ensures Compare(a, b, NE) == Compare(b, a, NE)
  {
    ResolveFlip(a, b);
  }

  /** Identity: every value equals itself; all but opaque values are also
      less-or-equal and greater-or-equal to themselves. */
  lemma Identity(v: Value)
    ensures Row(v, v) == if v.Opaque? then [true, false, false, false, false, false]
                         else [true, false, false, true, true, false]
  {
  }

  /** The relation an operator denotes on real numbers. */
  function RealRelation(x: real, y: real, op: CompareOp): bool {
    match op
    case EQ => x == y
    case NE => x != y
    case LT => x < y
    case LTE => x <= y
    case GTE => x >= y
    case GT => x > y
  }

  /** Numeric coercion: int64 and float64 operands, in any combination, compare
      as their real-number values. */
  lemma NumericCoercion(a: Value, b: Value, op: CompareOp)
    requires IsNumeric(Classify(a)) && IsNumeric(Classify(b))
    ensures Compare(a, b, op) == RealRelation(NumericValue(a), NumericValue(b), op)
  {
  }

  /** Nil (either an explicit nil or a nil byte slice) equals only nil; no order
      holds against nil except the non-strict ones between two nils. */
  lemma NilRule(a: Value, b: Value)
    requires Classify(a) == NilKind || Classify(b) == NilKind
    ensures Row(a, b) == if Classify(a) == Classify(b) then [true, false, false, true, true, false]
                         else [false, true, false, false, false, false]
  {
  }

  /** Opaque values are never ordered, and two of them are equal exactly when
      they have the same type and the same contents. */
  lemma OpaqueRule(a: Value, b: Value)
    requires a.Opaque? || b.Opaque?
    ensures !Compare(a, b, LT) && !Compare(a, b, LTE) && !Compare(a, b, GTE) && !Compare(a, b, GT)
    ensures Compare(a, b, EQ) <==> a == b
  {
  }

  /** The pairs the engine treats as incomparable. */
  ghost predicate Incomparable(a: Value, b: Value) {
    var ka, kb := Classify(a), Classify(b);
    || (ka != kb && !(IsNumeric(ka) && IsNumeric(kb)))
    || (ka == kb == OpaqueKind && a != b)
  }

  /** A pair is incomparable exactly when NE is the only operator that holds. */
  lemma IncomparableRow(a: Value, b: Value)
    ensures Incomparable(a, b) <==> Row(a, b) == [false, true, false, false, false, false]
  {
    if a.Str? && b.Str? {
      assert CompareLex(a.s, b.s) != Equal ==> Compare(a, b, LTE) || Compare(a, b, GTE);
    }
  }

  /** Pairs that get a three-way order: two nils, two numbers, or two values of
      the same kind among bool, string and byte slice. */
  ghost predicate Comparable(a: Value, b: Value) {
    var ka, kb := Classify(a), Classify(b);
    || (ka == kb == NilKind)
    || (IsNumeric(ka) && IsNumeric(kb))
    || (ka == kb && ka in {BoolKind, StrKind, BytesKind})
  }

  /** Trichotomy on comparable pairs: exactly one of LT, EQ, GT holds, and
      LTE, GTE are LT or EQ, GT or EQ. On any other pair no order holds. */
  lemma Trichotomy(a: Value, b: Value)
    ensures Comparable(a, b) ==>
      && (Compare(a, b, LT) || Compare(a, b, EQ) || Compare(a, b, GT))
      && !(Compare(a, b, LT) && Compare(a, b, EQ))
      && !(Compare(a, b, LT) && Compare(a, b, GT))
      && !(Compare(a, b, EQ) && Compare(a, b, GT))
      && (Compare(a, b, LTE) <==> Compare(a, b, LT) || Compare(a, b, EQ))
      && (Compare(a, b, GTE) <==> Compare(a, b, GT) || Compare(a, b, EQ))
    ensures !Comparable(a, b) ==>
      !Compare(a, b, LT) && !Compare(a, b, LTE) && !Compare(a, b, GTE) && !Compare(a, b, GT)
  {
  }

  /** EQ is an equivalence relation on all values. */
  lemma EqualIsEquivalence(a: Value, b: Value, c: Value)
    ensures Compare(a, a, EQ)
    ensures Compare(a, b, EQ) ==> Compare(b, a, EQ)
    ensures Compare(a, b, EQ) && Compare(b, c, EQ) ==> Compare(a, c, EQ)
  {
    Mirroring(a, b);
  }

  /** LT is a strict order on all values: irreflexive and transitive. */
  lemma LessIsStrictOrder(a: Value, b: Value, c: Value)
    ensures !Compare(a, a, LT)
    ensures Compare(a, b, LT) && Compare(b, c, LT) ==> Compare(a, c, LT)
  {
    if Compare(a, b, LT) && Compare(b, c, LT) {
      match (a, b, c)
      case (Str(s), Str(t), Str(u)) => CompareLexTransitive(s, t, u);
      case (Bytes(Some(s)), Bytes(Some(t)), Bytes(Some(u))) => CompareLexTransitive(s, t, u);
      case _ =>
    }
  }

  /** LTE is transitive on all values. */
  lemma LessOrEqualTransitive(a: Value, b: Value, c: Value)
    ensures Compare(a, b, LTE) && Compare(b, c, LTE) ==> Compare(a, c, LTE)
  {
    if Compare(a, b, LTE) && Compare(b, c, LTE) {
      match (a, b, c)
      case (Str(s), Str(t), Str(u)) =>
        if CompareLex(s, t) == Less && CompareLex(t, u) == Less {
          CompareLexTransitive(s, t, u);
        }
      case (Bytes(Some(s)), Bytes(Some(t)), Bytes(Some(u))) =>
        if CompareLex(s, t) == Less && CompareLex(t, u) == Less {
          CompareLexTransitive(s, t, u);
        }
      case _ =>
    }
  }

  // ---------------------------------------------------------------------------
  // The table of Test_compare, row by row
  // ---------------------------------------------------------------------------

  const ta := Bool(false)
  const tb := Bool(true)
  const sa := Str([0x31])           // "1"
  const sb := Str([0x32])           // "2"
  const sn := Str([])               // ""
  const ba := Bytes(Some([0x31]))   // []byte("1")
  const bb := Bytes(Some([0x32]))   // []byte("2")
  const bn := Bytes(None)           // a nil []byte
  const i64a := Int(1)
  const i64b := Int(2)
  const f64a := Float(1.0)
  const f64b := Float(2.0)
  const hiA := Opaque("testA", "hi")
  const byteA := Opaque("testA", "byte")
  const hiB := Opaque("testB", "hi")
  /** An untyped Go constant `5` is a Go `int`, not an `int64`: the engine has no
      case for it, so it is an opaque value. */
  const goInt5 := Opaque("int", "5")

  const Same := [true, false, false, true, true, false]
  const Before := [false, true, true, true, false, false]
  const After := [false, true, false, false, true, true]
  const Apart := [false, true, false, false, false, false]

  /** Rows 59-63: identity. */
  lemma TableIdentity()
    ensures Row(sa, sa) == Same && Row(i64a, i64a) == Same && Row(f64a, f64a) == Same
    ensures Row(ba, ba) == Same && Row(Nil, Nil) == Same
  {
  }

  /** Rows 65-69: strings against everything. */
  lemma TableStrings()
    ensures Row(sa, sb) == Before && Row(sa, ba) == Apart && Row(sa, i64a) == Apart
    ensures Row(sa, f64a) == Apart && Row(sa, Nil) == Apart
  {
  }

  /** Rows 71-76: byte slices against everything. */
  lemma TableBytes()
    ensures Row(ba, bb) == Before && Row(ba, sa) == Apart && Row(ba, i64a) == Apart
    ensures Row(ba, f64a) == Apart && Row(ba, Nil) == Apart && Row(ba, bn) == Apart
  {
  }

  /** Rows 78-87: bools. */
  lemma TableBools()
    ensures Row(ta, tb) == Before && Row(tb, ta) == After
    ensures Row(tb, tb) == Same && Row(ta, ta) == Same
    ensures Row(ta, sa) == Apart && Row(ta, i64a) == Apart && Row(ta, f64a) == Apart
    ensures Row(ta, bn) == Apart && Row(ta, sn) == Apart
  {
  }

  /** Rows 89-93: nil. */
  lemma TableNil()
    ensures Row(Nil, sa) == Apart && Row(Nil, i64a) == Apart && Row(Nil, f64a) == Apart
    ensures Row(Nil, bn) == Same && Row(Nil, sn) == Apart
  {
  }

  /** Rows 95-105: int64 and float64. */
  lemma TableNumbers()
    ensures Row(i64a, sa) == Apart && Row(i64a, ba) == Apart && Row(i64a, Nil) == Apart
    ensures Row(i64a, i64b) == Before && Row(i64a, f64b) == Before
    ensures Row(f64a, f64b) == Before && Row(f64a, sa) == Apart && Row(f64a, ba) == Apart
    ensures Row(f64a, Nil) == Apart && Row(f64a, i64b) == Before
  {
  }

  /** Rows 107-111: non-primitive values. */
  lemma TableOpaque()
    ensures Row(hiA, hiA) == [true, false, false, false, false, false]
    ensures Row(hiA, byteA) == Apart && Row(hiA, hiB) == Apart
    ensures Row(hiA, goInt5) == Apart && Row(goInt5, hiA) == Apart
  {
  }
}
