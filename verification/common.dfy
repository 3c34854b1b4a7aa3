/** Failure-carrying result types and the error kinds the modelled code raises. */
module Common {

  /** The Python exception (or C++ exception) an operation ends with. */
  datatype Error =
    | ValueError
    | AssertionError
    | RuntimeError
    | NotImplementedError
    | IndexError
    | KeyError
    | OutOfRange   // std::out_of_range thrown by unordered_map::at
    | AttributeError   // `.group` called on the None of a failed re.match

  datatype Option<+T> = None | Some(value: T)

  datatype Result<+T> = Ok(value: T) | Err(error: Error) {
    predicate IsFailure() { Err? }

    function PropagateFailure<U>(): Result<U>
      requires Err?
    {
      Err(error)
    }

    function Extract(): T
      requires Ok?
    {
      value
    }
  }

  /** Product of a sequence of naturals. */
  function Product(s: seq<nat>): nat
  {
    if s == [] then 1 else s[0] * Product(s[1..])
  }

  /** `n` copies of `x`: Python's `[x for _ in range(n)]`. */
  function Repeat<T>(x: T, n: nat): (r: seq<T>)
    ensures |r| == n
    ensures forall i :: 0 <= i < n ==> r[i] == x
  {
    if n == 0 then [] else [x] + Repeat(x, n - 1)
  }

  /** Exact division: a product divided by one factor gives the other. */
  lemma MulDivCancel(a: nat, f: nat)
    requires f > 0
    ensures (a * f) / f == a
  {
    var q, r := (a * f) / f, (a * f) % f;
    assert a * f == q * f + r;
    assert 0 <= r < f;
    MulSub(a, q, f);
    MulSign(a - q, f);
  }

  lemma MulSub(a: int, q: int, f: int)
    ensures (a - q) * f == a * f - q * f
  {
  }

  lemma MulSign(k: int, f: int)
    requires f > 0 && 0 <= k * f < f
    ensures k == 0
  {
    if k >= 1 {
      MulGe(k, f);
    } else if k <= -1 {
      MulGe(-k, f);
    }
  }

  lemma {:induction false} MulGe(k: int, f: int)
    requires k >= 1 && f > 0
    ensures k * f >= f
  {
    if k > 1 {
      MulGe(k - 1, f);
      assert k * f == (k - 1) * f + f;
    }
  }

  /** Python's `pat in s` on strings: `pat` occurs as a contiguous substring. */
  predicate Contains(s: string, pat: string)
    decreases |s|
  {
    pat <= s || (|s| > 0 && Contains(s[1..], pat))
  }

  lemma {:induction false} ContainsAt(s: string, pat: string, i: nat)
    requires i + |pat| <= |s| && s[i..i + |pat|] == pat
    ensures Contains(s, pat)
  {
    if i > 0 {
      assert s[1..][i - 1..i - 1 + |pat|] == s[i..i + |pat|];
      ContainsAt(s[1..], pat, i - 1);
    }
  }

  lemma MapSelfUpdate<K, V>(m: map<K, V>, k: K)
    requires k in m
    ensures m[k := m[k]] == m
  {
  }

  lemma MapExt<K, V>(a: map<K, V>, b: map<K, V>)
    requires a.Keys == b.Keys && forall k :: k in a ==> a[k] == b[k]
    ensures a == b
  {
  }

  lemma ConcatAssoc<T>(a: seq<T>, b: seq<T>, c: seq<T>)
    ensures (a + b) + c == a + (b + c)
  {
  }
}
