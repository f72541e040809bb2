/** Python semantics the model relies on: exceptions as error values, Python's indexing
    of sequences (negative indices count from the end), and the bitwise operators
    `&`, `|`, `>>`, `<<` on non-negative integers. */
module Python {

  /** The exception classes the modelled code can raise. `Underflow` stands for a read
      past the end of a buffer; `StructError` for `struct.error` (a value that does not
      fit its packing format); `DecodeError` for a text decoding failure. */
  datatype Error =
    | IndexError
    | KeyError
    | TypeError
    | ValueError
    | StructError
    | Underflow
    | DecodeError
    | AssertionError
    | NotImplemented

  datatype Option<+T> = None | Some(value: T)

  /** An element of a Python `bytes` object. */
  type Byte = b: int | 0 <= b < 256

  datatype Result<+T> = Ok(value: T) | Err(error: Error) {
    predicate IsFailure() { Err? }
    function PropagateFailure<U>(): Result<U>
      requires Err?
    {
      Err(error)
    }
    function Extract(): T
      requires Ok?
    {
      value
    }
  }

  /** `try: return attempt except KeyError: return default`: a KeyError gives the
      default, any other outcome passes through. */
  function ExceptKeyError<T>(attempt: Result<T>, default: T): (r: Result<T>)
    ensures attempt == Err(KeyError) ==> r == Ok(default)
    ensures attempt != Err(KeyError) ==> r == attempt
  {
    if attempt == Err(KeyError) then Ok(default) else attempt
  }

  /** `s[i]` in Python: a negative index counts from the end; anything else out of
      range is an IndexError (here: None). */
  function PyIndex<T>(s: seq<T>, i: int): (r: Option<T>)
    ensures r.Some? <==> -|s| <= i < |s|
    ensures 0 <= i < |s| ==> r == Some(s[i])
    ensures -|s| <= i < 0 ==> r == Some(s[|s| + i])
  {
    if 0 <= i < |s| then Some(s[i])
    else if -|s| <= i < 0 then Some(s[|s| + i])
    else None
  }

  function Pow2(n: nat): (r: nat)
    ensures r >= 1
  {
    if n == 0 then 1 else 2 * Pow2(n - 1)
  }

  /** `a & b` on non-negative integers, bit by bit from the least significant end. */
  function BitAnd(a: nat, b: nat): nat
  {
    if a == 0 || b == 0 then 0
    else 2 * BitAnd(a / 2, b / 2) + (if a % 2 == 1 && b % 2 == 1 then 1 else 0)
  }

  /** `a | b` on non-negative integers. */
  function BitOr(a: nat, b: nat): nat
  {
    if a == 0 then b
    else if b == 0 then a
    else 2 * BitOr(a / 2, b / 2) + (if a % 2 == 1 || b % 2 == 1 then 1 else 0)
  }

  /** `a >> n` on a non-negative integer. */
  function Shr(a: nat, n: nat): nat
  {
    DivNonNegative(a, Pow2(n));
    a / Pow2(n)
  }

  lemma DivNonNegative(a: nat, d: nat)
    requires d > 0
    ensures a / d >= 0
  {
  }

  /** `a << n` on a non-negative integer. */
  function Shl(a: nat, n: nat): nat { a * Pow2(n) }

  // ---------------------------------------------------------------------------
  // Arithmetic facts used by the bit lemmas below and by the codecs.

  lemma Pow2Add(a: nat, b: nat)
    ensures Pow2(a + b) == Pow2(a) * Pow2(b)
    decreases a
  {
    if a > 0 {
      Pow2Add(a - 1, b);
    }
  }

  lemma Pow2Monotone(a: nat, b: nat)
    requires a <= b
    ensures Pow2(a) <= Pow2(b)
    decreases b
  {
    if a < b {
      Pow2Monotone(a, b - 1);
    }
  }

  /** Division with remainder is unique. */
  lemma DivModUnique(x: int, d: int, q: int, r: int)
    requires d > 0 && 0 <= r < d && x == d * q + r
    ensures x / d == q && x % d == r
  {
    var q', r' := x / d, x % d;
    MulDistrib(d, q', q - q');
    assert d * (q - q') == r' - r;
    MulAtLeast(d, q - q');
  }

  /** A non-zero multiple of d is at least d away from 0. */
  lemma MulAtLeast(d: int, k: int)
    ensures d > 0 && k >= 1 ==> d * k >= d
    ensures d > 0 && k <= -1 ==> d * k <= -d
  {
    if d > 0 && k >= 1 {
      MulMonotone(d, 1, k);
    }
    if d > 0 && k <= -1 {
      MulMonotone(d, k, -1);
    }
  }

  lemma MulMonotone(d: int, a: int, b: int)
    requires d >= 0 && a <= b
    ensures d * a <= d * b
  {
    assert d * b - d * a == d * (b - a);
  }

  lemma MulAssoc(a: int, b: int, c: int)
    ensures (a * b) * c == a * (b * c)
  {
  }

  lemma MulDistrib(a: int, b: int, c: int)
    ensures a * (b + c) == a * b + a * c
  {
  }

  /** `(x + d*k) / d == x / d + k` and `(x + d*k) % d == x % d`. */
  lemma DivModAddMultiple(x: int, d: int, k: int)
    requires d > 0
    ensures (x + d * k) / d == x / d + k
    ensures (x + d * k) % d == x % d
  {
    var q, r := x / d, x % d;
    assert x + d * k == d * (q + k) + r;
    DivModUnique(x + d * k, d, q + k, r);
  }

  /** `x / (a*b) == (x / a) / b` for non-negative x. */
  lemma DivDiv(x: nat, a: nat, b: nat)
    requires a > 0 && b > 0
    ensures a * b > 0
    ensures x / (a * b) == (x / a) / b
  {
    var q, r := x / a, x % a;
    var q2, r2 := q / b, q % b;
    assert q == b * q2 + r2;
    assert x == a * q + r;
    assert x == (a * b) * q2 + (a * r2 + r) by {
      assert a * q == a * (b * q2) + a * r2;
    }
    assert a * r2 + r < a * b by {
      MulMonotone(a, r2, b - 1);
      assert a * (b - 1) == a * b - a;
    }
    MulPositive(a, b);
    DivModUnique(x, a * b, q2, a * r2 + r);
  }

  lemma MulPositive(a: int, b: int)
    requires a > 0 && b > 0
    ensures a * b > 0
  {
    MulMonotone(a, 1, b);
  }

  /** `(x % (a*b)) % a == x % a`. */
  lemma ModMod(x: nat, a: nat, b: nat)
    requires a > 0 && b > 0
    ensures a * b > 0
    ensures (x % (a * b)) % a == x % a
  {
    MulPositive(a, b);
    var q := x / (a * b);
    assert x == (x % (a * b)) + a * (b * q);
    DivModAddMultiple(x % (a * b), a, b * q);
  }

  /** The low bits of `2*q + r`: `(2*q + r) % (2*P) == 2*(q % P) + r`. */
  lemma ModDouble(x: nat, p: nat)
    requires p > 0
    ensures x % (2 * p) == 2 * ((x / 2) % p) + x % 2
  {
    var q, r := x / 2, x % 2;
    var q2, r2 := q / p, q % p;
    assert x == (2 * p) * q2 + (2 * r2 + r);
    DivModUnique(x, 2 * p, q2, 2 * r2 + r);
  }

  // ---------------------------------------------------------------------------
  // Bit lemmas

  /** `x & ((1 << n) - 1)` keeps exactly the n low bits of x: it equals `x % 2**n`. */
  lemma {:induction false} BitAndLowMask(x: nat, n: nat)
    ensures BitAnd(x, Pow2(n) - 1) == x % Pow2(n)
    ensures BitAnd(x, Pow2(n) - 1) < Pow2(n)
  {
    if n == 0 {
      assert Pow2(0) - 1 == 0;
    } else if x == 0 {
    } else {
      var m := Pow2(n) - 1;
      assert m / 2 == Pow2(n - 1) - 1 && m % 2 == 1;
      BitAndLowMask(x / 2, n - 1);
      ModDouble(x, Pow2(n - 1));
    }
  }

  /** When the bits of `a` lie below position k, `a | (b << k)` is a plain sum; the two
      operands of the OR do not overlap. */
  lemma {:induction false} BitOrDisjoint(a: nat, b: nat, k: nat)
    requires a < Pow2(k)
    ensures BitOr(a, b * Pow2(k)) == a + b * Pow2(k)
  {
    if k == 0 {
      assert a == 0;
    } else if a == 0 {
    } else if b == 0 {
      assert b * Pow2(k) == 0;
    } else {
      var c := b * Pow2(k);
      assert c == 2 * (b * Pow2(k - 1));
      assert c / 2 == b * Pow2(k - 1) && c % 2 == 0;
      assert c != 0 by { MulPositive(b, Pow2(k)); }
      BitOrDisjoint(a / 2, b, k - 1);
    }
  }

  // ---------------------------------------------------------------------------
  // Counting

  /** The positions below n. */
  function Upto(n: nat): (r: set<nat>)
    ensures forall i: nat :: i in r <==> i < n
  {
    if n == 0 then {} else Upto(n - 1) + {n - 1}
  }

  /** The values g takes on a set of positions. */
  function Image<T>(g: nat -> T, s: set<nat>): set<T>
  {
    set i | i in s :: g(i)
  }

  /** Adding a position whose value is new adds one value. */
  lemma ImageAddOne<T>(g: nat -> T, s: set<nat>, x: nat)
    requires g(x) !in Image(g, s)
    ensures |Image(g, s + {x})| == |Image(g, s)| + 1
  {
    var before := Image(g, s);
    assert Image(g, s + {x}) == before + {g(x)};
    assert before * {g(x)} == {};
  }

  /** A function one-to-one on the positions below n takes them to n distinct values. */
  lemma {:induction false} InjectiveImageSize<T>(g: nat -> T, n: nat)
    requires forall i: nat, j: nat :: i < n && j < n && g(i) == g(j) ==> i == j
    ensures |Image(g, Upto(n))| == n
  {
    if n > 0 {
      InjectiveImageSize(g, n - 1);
      assert g(n - 1) !in Image(g, Upto(n - 1));
      assert Upto(n) == Upto(n - 1) + {n - 1};
      ImageAddOne(g, Upto(n - 1), n - 1);
    } else {
      assert Image(g, Upto(n)) == {};
    }
  }
}
