/** The stream element: a value, or a value that also closes the innermost `level` dimensions. */
module Elems {
  datatype Elem<T> = Val(v: T) | ValStop(v: T, level: nat)

  /** A channel element: the stream element and the time from which the receiver sees it. */
  datatype ChannelElement<T> = ChannelElement(data: Elem<T>, time: nat)

  /** The stop level an element carries; a plain value carries level 0. */
  function Level<T>(e: Elem<T>): nat
  {
    match e
    case Val(_) => 0
    case ValStop(_, l) => l
  }

  /** The element operators emit for a computed level: level 0 is sent as a plain value. */
  function WithLevel<T>(x: T, l: nat): (e: Elem<T>)
    ensures e.v == x && Level(e) == l
    ensures e.Val? <==> l == 0
  {
    if l == 0 then Val(x) else ValStop(x, l)
  }

  /** The same element shape carrying another value. */
  function Rewrap<T, U>(e: Elem<T>, y: U): (r: Elem<U>)
    ensures r.v == y && Level(r) == Level(e) && (r.Val? <==> e.Val?)
  {
    match e
    case Val(_) => Val(y)
    case ValStop(_, l) => ValStop(y, l)
  }

  /** Streams built by the operators never carry a stop of level 0: level 0 is sent as a plain value. */
  predicate Canonical<T>(s: seq<Elem<T>>)
  {
    forall i :: 0 <= i < |s| ==> (s[i].ValStop? ==> s[i].level > 0)
  }

  /** A canonical element is determined by its value and its level. */
  lemma CanonicalByLevel<T>(e: Elem<T>)
    requires e.ValStop? ==> e.level > 0
    ensures WithLevel(e.v, Level(e)) == e
  {}

  /** `Default` is a plain value carrying the value type's default. */
  function Default<T>(zero: T): (e: Elem<T>)
    ensures e.Val? && e.v == zero && Level(e) == 0
  {
    Val(zero)
  }

  /** `dam_size`: a plain value has the value's size, a stop element the size of its stop type. */
  function DamSize<T>(e: Elem<T>, valueSize: T -> nat, stopSize: nat): nat
  {
    match e
    case Val(x) => valueSize(x)
    case ValStop(_, _) => stopSize
  }

  lemma DamSizeOfStopIgnoresValue<T>(x: T, y: T, l: nat, valueSize: T -> nat, stopSize: nat)
    ensures DamSize(ValStop(x, l), valueSize, stopSize) == DamSize(ValStop(y, l), valueSize, stopSize) == stopSize
    ensures DamSize(Val(x), valueSize, stopSize) == valueSize(x)
  {}

  function Values<T>(s: seq<Elem<T>>): (r: seq<T>)
    ensures |r| == |s| && forall i :: 0 <= i < |s| ==> r[i] == s[i].v
  {
    seq(|s|, i requires 0 <= i < |s| => s[i].v)
  }

  function StopLevels<T>(s: seq<Elem<T>>): (r: seq<nat>)
    ensures |r| == |s| && forall i :: 0 <= i < |s| ==> r[i] == Level(s[i])
  {
    seq(|s|, i requires 0 <= i < |s| => Level(s[i]))
  }

  /** One more element read: its value joins the values read so far. */
  lemma ValuesSnoc<T>(s: seq<Elem<T>>, i: nat)
    requires i < |s|
    ensures Values(s)[..i + 1] == Values(s)[..i] + [s[i].v]
  {}

  lemma StreamAppend<T>(a: seq<Elem<T>>, b: seq<Elem<T>>)
    ensures Values(a + b) == Values(a) + Values(b) && StopLevels(a + b) == StopLevels(a) + StopLevels(b)
  {}
}
