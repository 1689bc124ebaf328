/**
 * utils/general.ts: `either(value, c1, ..., cn)` and `both(value, c1, ..., cn)`.
 * The candidates after the first argument are passed here as a sequence.
 */
module General {

  /** Number of candidates equal to `value`. */
  function Count<T(==)>(candidates: seq<T>, value: T): nat {
    if candidates == [] then 0
    else Count(candidates[..|candidates| - 1], value) + (if candidates[|candidates| - 1] == value then 1 else 0)
  }

  lemma {:induction false} CountPositiveIffMember<T>(candidates: seq<T>, value: T)
    ensures Count(candidates, value) > 0 <==> value in candidates
  {
    if candidates != [] {
      var init := candidates[..|candidates| - 1];
      CountPositiveIffMember(init, value);
      assert candidates == init + [candidates[|candidates| - 1]];
    }
  }

  /** True iff some candidate equals `value`; the scan stops at the first match. */
  method Either<T(==)>(value: T, candidates: seq<T>) returns (r: bool)
    ensures r <==> value in candidates
    ensures candidates == [] ==> !r
  {
    for i := 0 to |candidates|
      invariant value !in candidates[..i]
    {
      if value == candidates[i] {
        return true;
      }
    }
    return false;
  }

  /**
   * Counts every candidate equal to `value` and reports whether the count is
   * positive, so it always answers as `Either` does.
   */
  method Both<T(==)>(value: T, candidates: seq<T>) returns (r: bool)
    ensures r <==> Count(candidates, value) > 0
    ensures r <==> value in candidates
  {
    var valuesCount := 0;
    for i := 0 to |candidates|
      invariant valuesCount == Count(candidates[..i], value)
    {
      assert candidates[..i + 1][..i] == candidates[..i];
      if value == candidates[i] {
        valuesCount := valuesCount + 1;
      }
    }
    assert candidates[..|candidates|] == candidates;
    r := valuesCount > 0;
    CountPositiveIffMember(candidates, value);
  }
}
