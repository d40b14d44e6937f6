/** JavaScript built-ins that the configuration scripts lean on, stated as
    pure functions over Dafny values. */
module JsValues {

  /** A value that may be `undefined` (or `null`: the scripts only test
      either with `??`, which treats the two alike). */
  datatype Option<T> = None | Some(value: T)

  /** `o ?? fallback` */
  function GetOr<T>(o: Option<T>, fallback: T): T
  {
    match o
    case Some(v) => v
    case None => fallback
  }

  /** `[c1 && x1, x2, ...].filter(Boolean)`: an array literal whose slots hold
      either a plugin/loader object or `false`, with the `false` slots dropped.
      A slot holding `false` is `None`. */
  function Compact<T>(slots: seq<Option<T>>): (r: seq<T>)
    ensures |r| <= |slots|
    ensures forall i :: 0 <= i < |r| ==> Some(r[i]) in slots
    ensures forall i :: 0 <= i < |slots| && slots[i].Some? ==> slots[i].value in r
  {
    if slots == [] then []
    else
      (if slots[0].Some? then [slots[0].value] else []) + Compact(slots[1..])
  }

  /** Every slot filled: the array literal with all its guards true. */
  function Present<T>(xs: seq<T>): (slots: seq<Option<T>>)
    ensures |slots| == |xs|
    ensures forall i :: 0 <= i < |xs| ==> slots[i] == Some(xs[i])
  {
    seq(|xs|, i requires 0 <= i < |xs| => Some(xs[i]))
  }

  /** `filter(Boolean)` keeps the relative order of what it keeps: filtering
      a concatenation is concatenating the filtered parts. */
  lemma {:induction false} CompactAppend<T>(xs: seq<Option<T>>, ys: seq<Option<T>>)
    ensures Compact(xs + ys) == Compact(xs) + Compact(ys)
  {
    if xs == [] {
      assert xs + ys == ys;
    } else {
      assert (xs + ys)[0] == xs[0];
      assert (xs + ys)[1..] == xs[1..] + ys;
      CompactAppend(xs[1..], ys);
    }
  }

  /** An array with no `false` slot comes through `filter(Boolean)` whole. */
  lemma {:induction false} CompactPresent<T>(xs: seq<T>)
    ensures Compact(Present(xs)) == xs
  {
    if xs != [] {
      assert Present(xs)[1..] == Present(xs[1..]);
      CompactPresent(xs[1..]);
    }
  }

  /** The character of a decimal digit. */
  function Digit(d: nat): (c: char)
    requires d < 10
    ensures '0' <= c <= '9'
  {
    (48 + d) as char
  }

  /** `String(n)` for a non-negative integer: the property key JavaScript
      uses for array and string index `n`. */
  function Decimal(n: nat): (s: string)
    ensures |s| >= 1
    ensures n < 10 <==> |s| == 1
    ensures forall i :: 0 <= i < |s| ==> '0' <= s[i] <= '9'
  {
    if n < 10 then [Digit(n)] else Decimal(n / 10) + [Digit(n % 10)]
  }

  /** Distinct indices give distinct property keys. */
  lemma {:induction false} DecimalInjective(a: nat, b: nat)
    requires Decimal(a) == Decimal(b)
    ensures a == b
  {
    if a >= 10 && b >= 10 {
      var sa, sb := Decimal(a), Decimal(b);
      assert sa[|sa| - 1] == Digit(a % 10) && sb[|sb| - 1] == Digit(b % 10);
      assert sa[..|sa| - 1] == Decimal(a / 10) && sb[..|sb| - 1] == Decimal(b / 10);
      DecimalInjective(a / 10, b / 10);
    }
  }
}
