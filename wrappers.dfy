/** Option and Result values shared by every module of the model. */
module Wrappers {
  datatype Option<T> = None | Some(value: T)

  /** `Err` stands for a panic, a failed `assert!` or an `unwrap` on an error in the simulator. */
  datatype Result<T> = Ok(value: T) | Err(msg: string)
  {
    predicate IsFailure() { Err? }
  }

  /** `prefix` followed by the rest of a run that may still fail. */
  function Then<T>(prefix: seq<T>, r: Result<seq<T>>): (o: Result<seq<T>>)
    ensures o.Ok? <==> r.Ok?
    ensures o.Ok? ==> o.value == prefix + r.value
  {
    if r.Ok? then Ok(prefix + r.value) else r
  }

  lemma ThenThen<T>(a: seq<T>, b: seq<T>, r: Result<seq<T>>)
    ensures Then(a, Then(b, r)) == Then(a + b, r)
  {
    if r.Ok? {
      assert a + (b + r.value) == (a + b) + r.value;
    }
  }

  /** An outcome that is `prefix` then `r`, where `r` is `x` then `rest`, is `prefix + [x]` then `rest`. */
  lemma ThenStep<T>(whole: Result<seq<T>>, prefix: seq<T>, r: Result<seq<T>>, x: T, rest: Result<seq<T>>)
    requires whole == Then(prefix, r) && r == Then([x], rest)
    ensures whole == Then(prefix + [x], rest)
  {
    ThenThen(prefix, [x], rest);
  }

  lemma ThenNil<T>(r: Result<seq<T>>)
    ensures Then([], r) == r
  {
    if r.Ok? {
      assert [] + r.value == r.value;
    }
  }
}
