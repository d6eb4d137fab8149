/**
 * Go error values as the SFTP client sees them, `errors.Is` against the SFTP
 * status sentinels, and the reconnect classifier `shouldReconnect`
 * (bindings/sftp/sftp_client.go).
 */
module Errors {
  import opened Wrappers

  /** The SFTP status codes the SFTP library exports as sentinel errors (`ErrSSHFx...`). */
  datatype StatusCode =
    | Eof
    | NoSuchFile
    | PermissionDenied
    | Failure
    | BadMessage
    | NoConnection
    | ConnectionLost
    | OpUnsupported

  /** A non-nil Go error value. */
  datatype Error =
    | Status(code: StatusCode)              // one of the SFTP library's sentinel status errors
    | Text(msg: string)                     // any other leaf error: errors.New, a network error, io.EOF, ...
    | Wrapped(prefix: string, inner: Error) // fmt.Errorf(prefix + "%w", inner)
    | Joined(first: Error, second: Error)   // errors.Join(first, second) with both non-nil

  /** The status errors that mean "the server answered and refused": they never trigger a reconnect. */
  const LogicalCodes: set<StatusCode> := {PermissionDenied, NoSuchFile, OpUnsupported}

  /** `errors.Is(err, target)` for a sentinel target: follows `Unwrap() error` and `Unwrap() []error`. */
  predicate Is(err: Error, target: StatusCode)
  {
    match err
    case Status(c) => c == target
    case Text(_) => false
    case Wrapped(_, inner) => Is(inner, target)
    case Joined(a, b) => Is(a, target) || Is(b, target)
  }

  /** The error tree of `err`: `err` itself and every error it wraps, directly or not. */
  function Tree(err: Error): (t: set<Error>)
    ensures err in t
  {
    match err
    case Wrapped(_, inner) => {err} + Tree(inner)
    case Joined(a, b) => {err} + Tree(a) + Tree(b)
    case _ => {err}
  }

  /** `errors.Is` finds a sentinel exactly when the sentinel occurs somewhere in the error tree. */
  lemma {:induction false} IsInTree(err: Error, target: StatusCode)
    ensures Is(err, target) <==> Status(target) in Tree(err)
  {
    match err
    case Status(_) =>
    case Text(_) =>
    case Wrapped(_, inner) =>
      IsInTree(inner, target);
    case Joined(a, b) =>
      IsInTree(a, target);
      IsInTree(b, target);
  }

  /**
   * `shouldReconnect`: nil never reconnects; an error that is, or wraps, one of the
   * three logical status errors does not reconnect; every other error does.
   */
  function ShouldReconnect(err: Option<Error>): (r: bool)
    ensures r <==> err.Some? && forall c | c in LogicalCodes :: Status(c) !in Tree(err.value)
  {
    if err.None? then
      false
    else
      IsInTree(err.value, PermissionDenied);
      IsInTree(err.value, NoSuchFile);
      IsInTree(err.value, OpUnsupported);
      if Is(err.value, PermissionDenied) || Is(err.value, NoSuchFile) || Is(err.value, OpUnsupported) then
        false
      else
        true
  }

  /** Classification of a bare status error: only the three logical codes stay put. */
  lemma StatusClass(c: StatusCode)
    ensures ShouldReconnect(Some(Status(c))) <==> c !in LogicalCodes
  {
  }

  /** An unrecognised leaf error is transport-class: the "default to reconnect" policy. */
  lemma TextReconnects(msg: string)
    ensures ShouldReconnect(Some(Text(msg)))
  {
  }

  /** `fmt.Errorf("...%w", ...)` applied once per prefix, innermost prefix last. */
  function WrapAll(prefixes: seq<string>, err: Error): (r: Error)
    ensures Tree(err) <= Tree(r)
  {
    if prefixes == [] then err else Wrapped(prefixes[0], WrapAll(prefixes[1..], err))
  }

  /** Wrapping with `%w`, any number of times, never changes the classification. */
  lemma {:induction false} WrapAllKeepsClass(prefixes: seq<string>, err: Error)
    ensures ShouldReconnect(Some(WrapAll(prefixes, err))) == ShouldReconnect(Some(err))
  {
    if prefixes != [] {
      WrapAllKeepsClass(prefixes[1..], err);
    }
  }
}
