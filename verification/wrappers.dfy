/** Failure-compatible wrappers shared by every module of the model.

    Go functions of this system return `(value, error)`; the model returns a
    `Result`, whose failure carries the text of the Go error. A function that
    returns only an `error` returns an `Outcome`. */
module Wrappers {

  datatype Option<+T> = None | Some(value: T) {
    predicate IsFailure() { None? }

    function PropagateFailure<U>(): Option<U>
      requires None?
    {
      None
    }

    function Extract(): T
      requires Some?
    {
      value
    }

    function GetOr(default: T): T {
      match this
      case Some(v) => v
      case None => default
    }
  }

  /** `Err(msg)` is a returned Go `error` whose `Error()` text is `msg`. */
  datatype Result<+T> = Ok(value: T) | Err(msg: string) {
    predicate IsFailure() { Err? }

    function PropagateFailure<U>(): Result<U>
      requires Err?
    {
      Err(msg)
    }

    function Extract(): T
      requires Ok?
    {
      value
    }
  }

  /** A Go function that returns only an `error`: nil, or its text. */
  datatype Outcome = Pass | Fail(error: string) {
    predicate IsFailure() { Fail? }

    function PropagateFailure(): Outcome
      requires Fail?
    {
      this
    }
  }

  /** What a run of Go options that each replace one setting unless their
      argument is nil leaves: the last non-nil argument, or the default when
      every argument is nil. */
  function LastSet<T>(default: T, opts: seq<Option<T>>): T {
    if opts == [] then default
    else if opts[|opts| - 1].Some? then opts[|opts| - 1].value
    else LastSet(default, opts[..|opts| - 1])
  }

  /** Nil arguments are ignored: without any set one the default stays,
      and otherwise the last set one is chosen. */
  lemma {:induction false} LastSetIsLastSome<T>(default: T, opts: seq<Option<T>>)
    ensures (forall i :: 0 <= i < |opts| ==> opts[i].None?) ==> LastSet(default, opts) == default
    ensures forall i :: 0 <= i < |opts| && opts[i].Some?
                        && (forall j :: i < j < |opts| ==> opts[j].None?) ==>
              LastSet(default, opts) == opts[i].value
  {
    if opts != [] {
      var init := opts[..|opts| - 1];
      LastSetIsLastSome(default, init);
      forall i | 0 <= i < |opts| && opts[i].Some? && (forall j :: i < j < |opts| ==> opts[j].None?)
        ensures LastSet(default, opts) == opts[i].value
      {
        if i < |opts| - 1 {
          assert init[i] == opts[i];
          forall j | i < j < |init| ensures init[j].None? { assert init[j] == opts[j]; }
        }
      }
      if forall i :: 0 <= i < |opts| ==> opts[i].None? {
        forall i | 0 <= i < |init| ensures init[i].None? { assert init[i] == opts[i]; }
      }
    }
  }
}
