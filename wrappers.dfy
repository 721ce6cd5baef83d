/** Option and Result, the two failure-compatible wrappers the rest of the model uses
    for "null" returns and thrown errors. */
module Wrappers {

  /** A value that may be absent: the model of a `T | null` result. */
  datatype Option<+T> = None | Some(value: T) {
    predicate IsFailure() { None? }

    function PropagateFailure<U>(): Option<U>
      requires None?
    {
      None
    }

    function Extract(): T
      requires Some?
    {
      value
    }
  }

  /** Either a value or the error that a call threw. */
  datatype Result<+R, +E> = Success(value: R) | Failure(error: E) {
    predicate IsFailure() { Failure? }

    function PropagateFailure<U>(): Result<U, E>
      requires Failure?
    {
      Failure(error)
    }

    function Extract(): R
      requires Success?
    {
      value
    }
  }
}

/** The errors that can escape the modelled operations. */
module Errors {

  /** `ApiError` is an error reported by a cloud provider call, with its error code;
      `ThrownError` is an `Error` raised by the extension itself (it has no code);
      `TypeError` is the runtime failure of reading a property of `undefined`. */
  datatype Error =
    | ApiError(code: string, message: string)
    | ThrownError(message: string)
    | TypeError(property: string)
  {
    /** The JavaScript `err.code` of the error; the extension's own errors have none. */
    function Code(): string {
      if ApiError? then code else ""
    }
  }

  /** Lambda `getPolicy` / `addPermission`: the function or its policy does not exist. */
  const ResourceNotFound: string := "ResourceNotFoundException"
  /** Lambda `addPermission`: a statement with that id is already in the policy. */
  const ResourceConflict: string := "ResourceConflictException"
  /** EC2 `describeSubnets`: the requested subnet does not exist. */
  const SubnetNotFound: string := "InvalidSubnetID.NotFound"
}

/** The few string notions of JavaScript the extension relies on. */
module Strings {
  import opened Wrappers

  /** JavaScript truthiness of an optional string: `undefined` and `''` are falsy. */
  predicate Truthy(s: Option<string>) {
    s.Some? && s.value != ""
  }

  /** JavaScript truthiness of an optional number: `undefined` and `0` are falsy. */
  predicate TruthyNumber(n: Option<int>) {
    n.Some? && n.value != 0
  }

  /** `sub` occurs in `s` starting at index `i`. */
  predicate OccursAt(s: string, sub: string, i: int) {
    0 <= i <= |s| - |sub| && s[i..i + |sub|] == sub
  }

  /** `s.includes(sub)`. */
  predicate Contains(s: string, sub: string) {
    exists i :: 0 <= i <= |s| && OccursAt(s, sub, i)
  }

  /** A string that ends with `sub` contains it. */
  lemma ContainsSuffix(before: string, sub: string)
    ensures Contains(before + sub, sub)
  {
    var s := before + sub;
    assert s[|before|..] == sub;
    assert OccursAt(s, sub, |before|);
  }

  /** A string built as `before + sub + after` contains `sub`. */
  lemma ContainsInfix(before: string, sub: string, after: string)
    ensures Contains(before + sub + after, sub)
  {
    var s := before + sub + after;
    assert s[|before|..|before| + |sub|] == sub;
    assert OccursAt(s, sub, |before|);
  }
}
