/** Decoded JSON values of event payload fields. Accounting fields arrive
    untyped, and the measuring passes check them one by one. */
module Json {
  import opened Identifiers

  datatype Value = Absent | Null | Bool(b: bool) | Num(x: real) | Str(s: string) | Other(text: string)
  {
    /** A number that may be added to a timing total. */
    predicate Timing() {
      Num? && 0.0 <= x <= MAX_SAFE_INTEGER as real
    }

    /** A non-negative safe integer. */
    predicate Count() {
      Num? && IsSafeInteger(x) && x >= 0.0
    }

    /** `positiveEventSeq` */
    function PositiveSeq(): Option<nat> {
      if Num? && IsSafeInteger(x) && x > 0.0 then Some(x.Floor) else None
    }

    /** How the value prints inside a JSON array: an absent field prints as null. */
    function Printed(): Value {
      if Absent? then Null else this
    }
  }

  /** `exactIdentity` */
  predicate Exact(v: Value) {
    v.Str? && ExactIdentity(v.s)
  }

  function TextOf(v: Value): string {
    if v.Str? then v.s else ""
  }

  /** The value is this positive number. */
  ghost predicate Numbers(v: Value, n: nat) {
    v == Num(n as real) && 0 < n <= MAX_SAFE_INTEGER
  }

  lemma PositiveIs(v: Value)
    ensures forall n: nat :: v.PositiveSeq() == Some(n) <==> Numbers(v, n)
  {
    forall n: nat ensures v.PositiveSeq() == Some(n) <==> Numbers(v, n) {
      assert (n as real).Floor == n;
    }
  }

  /** Inside a JSON array, an absent field and a null one print alike. */
  ghost predicate Alike(a: Value, b: Value) {
    a == b || (a in {Absent, Null} && b in {Absent, Null})
  }
}
