/**
 * `RepeatStatic`: every element is sent `repeat_factor` times, which adds an innermost dimension of
 * that size.
 */
module Repeat {
  import opened Wrappers
  import opened Elems
  import opened Shapes

  /** The copies of one element: plain values, and a last copy that closes the new dimension. */
  function RepeatElem<T>(e: Elem<T>, repeatFactor: nat): (r: seq<Elem<T>>)
    requires repeatFactor >= 1
    ensures |r| == repeatFactor && Values(r) == seq(repeatFactor, _ => e.v)
    ensures StopLevels(r) == Row(Level(e), repeatFactor)
  {
    seq(repeatFactor - 1, _ => Val(e.v)) + [ValStop(e.v, Level(e) + 1)]
  }

  function RepeatStream<T>(s: seq<Elem<T>>, repeatFactor: nat): (r: seq<Elem<T>>)
    requires repeatFactor >= 1
    decreases |s|
  {
    if s == [] then [] else RepeatElem(s[0], repeatFactor) + RepeatStream(s[1..], repeatFactor)
  }

  /** Each value, `n` times in a row. */
  function Stretch<T>(v: seq<T>, n: nat): (r: seq<T>)
    decreases |v|
  {
    if v == [] then [] else seq(n, _ => v[0]) + Stretch(v[1..], n)
  }

  lemma {:induction false} RepeatSnoc<T>(s: seq<Elem<T>>, e: Elem<T>, repeatFactor: nat)
    requires repeatFactor >= 1
    ensures RepeatStream(s + [e], repeatFactor) == RepeatStream(s, repeatFactor) + RepeatElem(e, repeatFactor)
    decreases |s|
  {
    if s == [] {
      assert [] + [e] == [e] && [e][1..] == [];
    } else {
      assert (s + [e])[0] == s[0] && (s + [e])[1..] == s[1..] + [e];
      RepeatSnoc(s[1..], e, repeatFactor);
    }
  }

  /** The plain copies sent before the last one. */
  method PlainCopies<T>(x: T, count: nat) returns (copies: seq<Elem<T>>)
    ensures copies == seq(count, _ => Val(x))
  {
    copies := [];
    var i := 0;
    while i < count
      invariant 0 <= i <= count
      invariant copies == seq(i, _ => Val(x))
    {
      copies := copies + [Val(x)];
      i := i + 1;
    }
  }

  const FactorUnderflow := "attempt to subtract with overflow"

  /**
   * `RepeatStatic::run`. Every element yields `repeat_factor - 1` plain copies and a final copy one
   * level higher; the clock advances by `repeat_factor` per input element. A factor of 0 makes the
   * unsigned `repeat_factor - 1` underflow as soon as an element arrives.
   */
  method Run<T>(input: seq<Elem<T>>, repeatFactor: nat) returns (result: Result<seq<Elem<T>>>, cycles: nat)
    ensures repeatFactor == 0 && input != [] ==> result == Err(FactorUnderflow) && cycles == 0
    ensures repeatFactor == 0 && input == [] ==> result == Ok([]) && cycles == 0
    ensures repeatFactor >= 1 ==> result == Ok(RepeatStream(input, repeatFactor))
    ensures result.Ok? ==> |result.value| == |input| * repeatFactor && cycles == |input| * repeatFactor
  {
    var output: seq<Elem<T>> := [];
    cycles := 0;
    var n := 0;
    while n < |input|
      invariant 0 <= n <= |input|
      invariant repeatFactor == 0 ==> n == 0
      invariant repeatFactor >= 1 ==> output == RepeatStream(input[..n], repeatFactor)
      invariant output == [] || repeatFactor >= 1
      invariant cycles == n * repeatFactor
    {
      if repeatFactor == 0 {
        return Err(FactorUnderflow), cycles;
      }
      var e := input[n];
      var copies := PlainCopies(e.v, repeatFactor - 1);
      var last := match e
        case Val(x) => ValStop(x, 1)
        case ValStop(x, s) => ValStop(x, s + 1);
      LastCopy(e, copies, last, repeatFactor);
      RepeatPrefix(input, n, repeatFactor);
      output := output + (copies + [last]);
      RowStart(n, repeatFactor);
      cycles := cycles + repeatFactor;
      n := n + 1;
    }
    if repeatFactor >= 1 {
      assert input[..n] == input;
      RepeatLength(input, repeatFactor);
    }
    return Ok(output), cycles;
  }

  /** The plain copies and the raised last copy are the copies of the element. */
  lemma LastCopy<T>(e: Elem<T>, copies: seq<Elem<T>>, last: Elem<T>, repeatFactor: nat)
    requires repeatFactor >= 1 && copies == seq(repeatFactor - 1, _ => Val(e.v))
    requires last == ValStop(e.v, Level(e) + 1)
    ensures copies + [last] == RepeatElem(e, repeatFactor)
  {}

  /** Repeating one element more of the input appends its copies. */
  lemma RepeatPrefix<T>(input: seq<Elem<T>>, n: nat, repeatFactor: nat)
    requires repeatFactor >= 1 && n < |input|
    ensures RepeatStream(input[..n + 1], repeatFactor) == RepeatStream(input[..n], repeatFactor) + RepeatElem(input[n], repeatFactor)
  {
    assert input[..n + 1] == input[..n] + [input[n]];
    RepeatSnoc(input[..n], input[n], repeatFactor);
  }

  lemma {:induction false} RepeatLength<T>(s: seq<Elem<T>>, repeatFactor: nat)
    requires repeatFactor >= 1
    ensures |RepeatStream(s, repeatFactor)| == |s| * repeatFactor
    decreases |s|
  {
    if s != [] {
      RepeatLength(s[1..], repeatFactor);
      RowStart(|s| - 1, repeatFactor);
    }
  }

  /** The stop levels of the repeated stream are those of a tensor with a new innermost dimension. */
  lemma {:induction false} RepeatLevels<T>(s: seq<Elem<T>>, repeatFactor: nat)
    requires repeatFactor >= 1
    ensures StopLevels(RepeatStream(s, repeatFactor)) == ExpandRows(StopLevels(s), repeatFactor)
    decreases |s|
  {
    if s != [] {
      var head, tail := RepeatElem(s[0], repeatFactor), RepeatStream(s[1..], repeatFactor);
      StreamAppend(head, tail);
      RepeatLevels(s[1..], repeatFactor);
      assert StopLevels(s)[0] == Level(s[0]) && StopLevels(s)[1..] == StopLevels(s[1..]);
    }
  }

  /** The values of the repeated stream are the input values, each `repeat_factor` times in a row. */
  lemma {:induction false} RepeatValues<T>(s: seq<Elem<T>>, repeatFactor: nat)
    requires repeatFactor >= 1
    ensures Values(RepeatStream(s, repeatFactor)) == Stretch(Values(s), repeatFactor)
    decreases |s|
  {
    if s != [] {
      var head, tail := RepeatElem(s[0], repeatFactor), RepeatStream(s[1..], repeatFactor);
      StreamAppend(head, tail);
      RepeatValues(s[1..], repeatFactor);
      assert Values(s)[0] == s[0].v && Values(s)[1..] == Values(s[1..]);
    }
  }

  /** Copy `r` of element `q` sits at `q * n + r` and carries that element's value. */
  lemma {:induction false} StretchAt<T>(v: seq<T>, n: nat, q: nat, r: nat)
    requires q < |v| && r < n
    ensures |Stretch(v, n)| == |v| * n && q * n + r < |v| * n && Stretch(v, n)[q * n + r] == v[q]
    decreases |v|
  {
    RowInRange(q, r, |v|, n);
    StretchLength(v, n);
    StretchLength(v[1..], n);
    if q > 0 {
      StretchAt(v[1..], n, q - 1, r);
      RowStart(q - 1, n);
    }
  }

  lemma {:induction false} StretchLength<T>(v: seq<T>, n: nat)
    ensures |Stretch(v, n)| == |v| * n
    decreases |v|
  {
    if v != [] {
      StretchLength(v[1..], n);
      assert |v| * n == n + (|v| - 1) * n;
    }
  }

  /** Repeating the stream of a tensor gives the stream of the tensor with `repeat_factor` as its new innermost dimension. */
  lemma RepeatTensor<T>(s: seq<Elem<T>>, shape: seq<nat>, repeatFactor: nat)
    requires repeatFactor >= 1 && StopLevels(s) == ShapeLevels(shape)
    ensures StopLevels(RepeatStream(s, repeatFactor)) == ShapeLevels(shape + [repeatFactor])
  {
    RepeatLevels(s, repeatFactor);
    ShapeLevelsSnoc(shape, repeatFactor);
  }
}
