/** Helpers shared by the whole model: an option type, the outcome of a list
    fetch, JavaScript's `%` and `a || b` idioms, order-preserving filtering
    and the decimal rendering of an integer. */
module Common {

  datatype Option<+T> = None | Some(value: T)

  /** What a list endpoint handed back: the request failed, the body was not
      a JSON array, or it was an array of rows. */
  datatype Fetched<T> = FetchFailed | NotAnArray | Rows(rows: seq<T>)

  /** The list a page keeps after `setList(Array.isArray(data) ? data : [])`
      inside a try block: a failed request leaves the previous list. */
  function ListAfterLoad<T>(previous: seq<T>, response: Fetched<T>): (r: seq<T>)
    ensures response.FetchFailed? ==> r == previous
    ensures response.NotAnArray? ==> r == []
    ensures response.Rows? ==> r == response.rows
  {
    match response
    case FetchFailed => previous
    case NotAnArray => []
    case Rows(rows) => rows
  }

  /** JavaScript's `a % b`: the remainder truncates toward zero, so it takes
      the sign of the dividend (Dafny's `%` never goes negative). */
  function JsRem(a: int, b: int): (r: int)
    requires b > 0
    ensures a >= 0 ==> 0 <= r < b
    ensures a < 0 ==> -b < r <= 0
    ensures exists q :: a == q * b + r
  {
    if a >= 0 then
      assert a == (a / b) * b + a % b;
      a % b
    else
      assert -a == ((-a) / b) * b + (-a) % b;
      assert a == (-((-a) / b)) * b + -((-a) % b);
      -((-a) % b)
  }

  /** The carousel idiom: `(i + 1) % n` steps forward and `(i - 1 + n) % n`
      steps back through `n` slides. */
  function RotateNext(i: int, n: int): int
    requires n > 0
  {
    JsRem(i + 1, n)
  }

  function RotatePrev(i: int, n: int): int
    requires n > 0
  {
    JsRem(i - 1 + n, n)
  }

  /** `JsRem` leaves a value already in [0, n) alone, takes one `n` off a
      value in [n, 2n), and sends `n` to 0. */
  lemma JsRemInRange(a: int, n: int)
    requires 0 <= a < n
    ensures JsRem(a, n) == a && JsRem(a + n, n) == a && JsRem(n, n) == 0
  {
    assert a % n == a;
    assert n % n == 0;
    var q, r := (a + n) / n, (a + n) % n;
    assert a + n == q * n + r && 0 <= r < n;
    assert q == 1;
  }

  /** Both steps keep a slide index in [0, n), and each undoes the other. */
  lemma RotationInverse(i: int, n: int)
    requires 0 <= i < n
    ensures 0 <= RotateNext(i, n) < n && 0 <= RotatePrev(i, n) < n
    ensures RotatePrev(RotateNext(i, n), n) == i
    ensures RotateNext(RotatePrev(i, n), n) == i
  {
    if i + 1 < n {
      assert RotateNext(i, n) == i + 1 by { JsRemInRange(i + 1, n); }
      assert RotatePrev(i + 1, n) == i by { JsRemInRange(i, n); }
    } else {
      assert RotateNext(i, n) == 0 by { JsRemInRange(0, n); }
      assert RotatePrev(0, n) == n - 1 by { JsRemInRange(n - 1, n); }
    }
    if i > 0 {
      assert RotatePrev(i, n) == i - 1 by { JsRemInRange(i - 1, n); }
      assert RotateNext(i - 1, n) == i by { JsRemInRange(i, n); }
    } else {
      assert RotatePrev(i, n) == n - 1 by { JsRemInRange(n - 1, n); }
      assert RotateNext(n - 1, n) == 0 by { JsRemInRange(0, n); }
    }
  }

  /** `text || fallback`, where `text` is what `prompt()` returned (None when
      the operator cancelled): an empty or missing text gives the fallback. */
  function OrDefault(text: Option<string>, fallback: string): (r: string)
    ensures r == fallback || (text == Some(r) && r != "")
    ensures text.Some? && text.value != "" ==> r == text.value
    ensures fallback != "" ==> r != ""
  {
    if text.Some? && text.value != "" then text.value else fallback
  }

  /** `s.filter(keep)`: the elements of `s` that satisfy `keep`, in order. */
  function Filter<T(==)>(s: seq<T>, keep: T -> bool): (r: seq<T>)
    ensures |r| <= |s|
    ensures forall i :: 0 <= i < |r| ==> r[i] in s && keep(r[i])
    ensures forall i :: 0 <= i < |s| && keep(s[i]) ==> s[i] in r
  {
    if s == [] then []
    else (if keep(s[0]) then [s[0]] else []) + Filter(s[1..], keep)
  }

  /** `a` is `b` with some elements left out and the rest kept in order. */
  predicate IsSubsequence<T(==)>(a: seq<T>, b: seq<T>)
    decreases |b|
  {
    if b == [] then a == []
    else IsSubsequence(a, b[1..]) || (a != [] && a[0] == b[0] && IsSubsequence(a[1..], b[1..]))
  }

  lemma {:induction false} FilterIsSubsequence<T>(s: seq<T>, keep: T -> bool)
    ensures IsSubsequence(Filter(s, keep), s)
  {
    if s != [] {
      FilterIsSubsequence(s[1..], keep);
      if keep(s[0]) {
        assert Filter(s, keep) == [s[0]] + Filter(s[1..], keep);
        assert Filter(s, keep)[1..] == Filter(s[1..], keep);
      } else {
        assert Filter(s, keep) == Filter(s[1..], keep);
      }
    }
  }

  lemma {:induction false} FilterKeepsAll<T>(s: seq<T>, keep: T -> bool)
    requires forall i :: 0 <= i < |s| ==> keep(s[i])
    ensures Filter(s, keep) == s
  {
    if s != [] {
      FilterKeepsAll(s[1..], keep);
      assert s == [s[0]] + s[1..];
    }
  }

  lemma {:induction false} FilterAppend<T>(a: seq<T>, b: seq<T>, keep: T -> bool)
    ensures Filter(a + b, keep) == Filter(a, keep) + Filter(b, keep)
  {
    if a == [] {
      assert a + b == b;
    } else {
      assert (a + b)[0] == a[0];
      assert (a + b)[1..] == a[1..] + b;
      FilterAppend(a[1..], b, keep);
    }
  }

  function DigitChar(d: int): char
    requires 0 <= d < 10
  {
    "0123456789"[d]
  }

  function NatString(n: nat): (s: string)
    ensures |s| >= 1
    decreases n
  {
    if n < 10 then [DigitChar(n)] else NatString(n / 10) + [DigitChar(n % 10)]
  }

  /** `n.toString()` for an integer. */
  function DecimalString(n: int): string
  {
    if n < 0 then "-" + NatString(-n) else NatString(n)
  }

  lemma DigitCharInjective(a: int, b: int)
    requires 0 <= a < 10 && 0 <= b < 10 && DigitChar(a) == DigitChar(b)
    ensures a == b
  {
  }

  lemma {:induction false} NatStringStartsWithDigit(n: nat)
    ensures NatString(n)[0] != '-'
    decreases n
  {
    if n >= 10 {
      NatStringStartsWithDigit(n / 10);
    }
  }

  lemma {:induction false} NatStringInjective(a: nat, b: nat)
    requires NatString(a) == NatString(b)
    ensures a == b
    decreases a
  {
    if a >= 10 && b >= 10 {
      var s := NatString(a);
      assert s[..|s| - 1] == NatString(a / 10);
      assert s[..|s| - 1] == NatString(b / 10);
      NatStringInjective(a / 10, b / 10);
      DigitCharInjective(a % 10, b % 10);
    } else if a < 10 && b < 10 {
      DigitCharInjective(a, b);
    }
  }

  /** Distinct integers print differently, so comparing ids "as strings"
      selects the same rows as comparing them as numbers. */
  lemma DecimalStringInjective(a: int, b: int)
    requires DecimalString(a) == DecimalString(b)
    ensures a == b
  {
    if a < 0 && b < 0 {
      assert NatString(-a) == DecimalString(a)[1..];
      NatStringInjective(-a, -b);
    } else if a >= 0 && b >= 0 {
      NatStringInjective(a, b);
    } else if a < 0 {
      NatStringStartsWithDigit(b);
    } else {
      NatStringStartsWithDigit(a);
    }
  }
}
