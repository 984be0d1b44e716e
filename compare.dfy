/**
  The comparison engine of the telemetry query language: `compare(a, b, op)`
  applies one of six relational operators to two dynamically-typed values and
  always yields a boolean.

  The engine first classifies each operand, then resolves the pair to an
  `Outcome` (a three-way ordering, or a bare equal/unequal verdict for pairs
  that have no order), and finally dispatches that outcome on the operator.
*/
module TqlCompare {
  import opened Primitives

  /** The values the engine is given. `Str` holds the bytes of a Go string;
      `Bytes(None)` is a nil `[]byte`; `Opaque` is any other Go value, identified
      by its dynamic type and compared by value (Go's `==` on interfaces). */
  datatype Value =
    | Bool(b: bool)
    | Int(i: Int64)
    | Float(f: real)
    | Str(s: seq<Byte>)
    | Bytes(data: Option<seq<Byte>>)
    | Nil
    | Opaque(typeName: string, payload: string)

  /** The operators, in the order of their enum positions. */
  datatype CompareOp = EQ | NE | LT | LTE | GTE | GT

  /** The enum position of an operator (the index into a row of the test table). */
  function OpIndex(op: CompareOp): (n: nat)
    ensures n < 6 && Ops[n] == op
  {
    match op
    case EQ => 0
    case NE => 1
    case LT => 2
    case LTE => 3
    case GTE => 4
    case GT => 5
  }

  /** All operators in enum order. */
  const Ops: seq<CompareOp> := [EQ, NE, LT, LTE, GTE, GT]

  /** The kinds a value is classified into. */
  datatype Kind = BoolKind | IntKind | FloatKind | StrKind | BytesKind | NilKind | OpaqueKind

  /** Classifies a value; a nil byte slice classifies as nil, an empty but present one as bytes. */
  function Classify(v: Value): Kind
  {
    match v
    case Bool(_) => BoolKind
    case Int(_) => IntKind
    case Float(_) => FloatKind
    case Str(_) => StrKind
    case Bytes(None) => NilKind
    case Bytes(Some(_)) => BytesKind
    case Nil => NilKind
    case Opaque(_, _) => OpaqueKind
  }

  predicate IsNumeric(k: Kind) {
    k == IntKind || k == FloatKind
  }

  /** A three-way ordering. */
  datatype Ordering = Less | Equal | Greater {
    /** The ordering seen from the other operand. */
    function Flip(): Ordering {
      match this
      case Less => Greater
      case Equal => Equal
      case Greater => Less
    }
  }

  /** How a pair of values resolves: ordered, or only equal/unequal. */
  datatype Outcome = Ordered(ord: Ordering) | Unordered(equal: bool)

  /** false < true. */
  function CompareBool(x: bool, y: bool): (r: Ordering)
    ensures r == Equal <==> x == y
    ensures r == Less <==> !x && y
  {
    if x == y then Equal else if y then Less else Greater
  }

  /** Real-number ordering, used for int64 and float64 operands alike. */
  function CompareReal(x: real, y: real): (r: Ordering)
    ensures r == Less <==> x < y
    ensures r == Equal <==> x == y
    ensures r == Greater <==> x > y
  {
    if x < y then Less else if x == y then Equal else Greater
  }

  /** Byte-wise lexicographic ordering (Go's `bytes.Compare` and string `<`):
      the first differing byte decides, and a proper prefix is smaller. */
  function CompareLex(s: seq<Byte>, t: seq<Byte>): (r: Ordering)
    ensures r == Equal <==> s == t
    decreases |s|
  {
    if s == [] then (if t == [] then Equal else Less)
    else if t == [] then Greater
    else if s[0] < t[0] then Less
    else if s[0] > t[0] then Greater
    else
      var r := CompareLex(s[1..], t[1..]);
      assert s == [s[0]] + s[1..] && t == [t[0]] + t[1..];
      r
  }

  /** The numeric value of an int64 or float64 operand, the int64 coerced to a real. */
  function NumericValue(v: Value): real
    requires IsNumeric(Classify(v))
  {
    match v
    case Int(i) => i as real
    case Float(f) => f
  }

  /** Resolves a pair of operands. Nil (either spelling) is equal only to nil and
      ordered like an equal pair against it; int64 and float64 compare numerically
      with each other; bools, strings and byte slices compare within their own kind;
      opaque values are equal when type and contents match and are never ordered;
      every other pair is unequal and unordered. */
  function Resolve(a: Value, b: Value): Outcome
  {
    var ka, kb := Classify(a), Classify(b);
    if ka == NilKind || kb == NilKind then
      if ka == kb then Ordered(Equal) else Unordered(false)
    else if IsNumeric(ka) && IsNumeric(kb) then
      Ordered(CompareReal(NumericValue(a), NumericValue(b)))
    else
      match (a, b)
      case (Bool(x), Bool(y)) => Ordered(CompareBool(x, y))
      case (Str(s), Str(t)) => Ordered(CompareLex(s, t))
      case (Bytes(Some(s)), Bytes(Some(t))) => Ordered(CompareLex(s, t))
      case (Opaque(ta, pa), Opaque(tb, pb)) => Unordered(ta == tb && pa == pb)
      case _ => Unordered(false)
  }

  /** Maps an outcome onto an operator. */
  function Dispatch(o: Outcome, op: CompareOp): bool
  {
    match o
    case Ordered(ord) => (
      match op
      case EQ => ord == Equal
      case NE => ord != Equal
      case LT => ord == Less
      case LTE => ord != Greater
      case GTE => ord != Less
      case GT => ord == Greater)
    case Unordered(eq) => (
      match op
      case EQ => eq
      case NE => !eq
      case _ => false)
  }

  /** `compare(a, b, op)`: total, never fails. */
  function Compare(a: Value, b: Value, op: CompareOp): bool
  {
    Dispatch(Resolve(a, b), op)
  }

  /** One row of the test table: the results for all six operators in enum order. */
  function Row(a: Value, b: Value): (row: seq<bool>)
    ensures |row| == 6
    ensures forall op: CompareOp :: row[OpIndex(op)] == Compare(a, b, op)
  {
    [Compare(a, b, EQ), Compare(a, b, NE), Compare(a, b, LT),
     Compare(a, b, LTE), Compare(a, b, GTE), Compare(a, b, GT)]
  }
}
