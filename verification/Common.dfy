/** Value types shared by every component of the model. */
module Common {

  /** A nullable column or an absent key. */
  datatype Option<+T> = None | Some(value: T)

  /** The outcome of an operation that reports failure with an exception in the source. */
  datatype Result<+T, +E> = Ok(value: T) | Err(error: E)

  function Min(a: int, b: int): int {
    if a <= b then a else b
  }

  function Max(a: int, b: int): int {
    if a >= b then a else b
  }

  function Pow2(n: nat): nat {
    if n == 0 then 1 else 2 * Pow2(n - 1)
  }

  /** `part` is what is left of `whole` when some of its elements are dropped. */
  predicate Within<T(==)>(part: seq<T>, whole: seq<T>)
    decreases |whole|
  {
    part == [] ||
    (whole != [] && ((part[0] == whole[0] && Within(part[1..], whole[1..])) || Within(part, whole[1..])))
  }

  lemma {:induction false} WithinAppends<T>(a: seq<T>, b: seq<T>, c: seq<T>, d: seq<T>)
    requires Within(a, b) && Within(c, d)
    ensures Within(a + c, b + d)
    decreases |b|
  {
    if b == [] {
      assert a + c == c && b + d == d;
    } else {
      assert (b + d)[1..] == b[1..] + d;
      if a == [] {
        assert Within(a, b[1..]);
        WithinAppends(a, b[1..], c, d);
      } else if a[0] == b[0] && Within(a[1..], b[1..]) {
        WithinAppends(a[1..], b[1..], c, d);
        assert (a + c)[1..] == a[1..] + c;
      } else {
        WithinAppends(a, b[1..], c, d);
      }
    }
  }

  lemma {:induction false} WithinItself<T>(a: seq<T>)
    ensures Within(a, a)
    decreases |a|
  {
    if a != [] {
      WithinItself(a[1..]);
    }
  }

  lemma WithinLast<T>(whole: seq<T>, x: T)
    ensures Within([x], whole + [x])
  {
    WithinItself([x]);
    WithinAppends([], whole, [x], [x]);
    assert [] + [x] == [x];
  }
}
