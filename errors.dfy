/** The service's own constant error type.

    `Error` is a string type: a value is nothing but its text, two values are equal
    exactly when their texts are, and `Error()` gives the text back unchanged. Eight
    named constants of this type exist; `Sentinel` names them so that their
    properties can be stated over the closed set. */
module Errors {
  import opened Wrappers

  /** A constant error: a string compared by value. */
  datatype Error = Error(text: string) {
    /** The `error` interface method: the underlying string. */
    function Message(): (s: string)
      ensures Error(s) == this
    {
      text
    }
  }

  /** The eight named constants. */
  datatype Sentinel =
    | ErrFailedRollback
    | ErrInvalidIP
    | ErrInvalidURL
    | ErrMissingName
    | ErrMissingURL
    | ErrMissingUser
    | ErrNoTx
    | ErrUnknown

  /** The value of each constant. */
  function Value(k: Sentinel): Error {
    match k
    case ErrFailedRollback => Error("failed rollback")
    case ErrInvalidIP => Error("invalid IP")
    case ErrInvalidURL => Error("invalid URL")
    case ErrMissingName => Error("missing name")
    case ErrMissingURL => Error("missing URL")
    case ErrMissingUser => Error("missing user")
    case ErrNoTx => Error("no tx")
    case ErrUnknown => Error("unknown error")
  }

  /** Which constant, if any, an error value compares equal to (`err == ErrX`). */
  function Classify(e: Error): (r: Option<Sentinel>)
    ensures r.Some? ==> Value(r.value) == e
    ensures r.None? ==> forall k :: Value(k) != e
  {
    match e.text
    case "failed rollback" => Some(ErrFailedRollback)
    case "invalid IP" => Some(ErrInvalidIP)
    case "invalid URL" => Some(ErrInvalidURL)
    case "missing name" => Some(ErrMissingName)
    case "missing URL" => Some(ErrMissingURL)
    case "missing user" => Some(ErrMissingUser)
    case "no tx" => Some(ErrNoTx)
    case "unknown error" => Some(ErrUnknown)
    case _ => None
  }

  /** Two error values are equal exactly when their strings are. */
  lemma EqualIffSameText(a: Error, b: Error)
    ensures a == b <==> a.Message() == b.Message()
  {
  }

  /** The constants have pairwise distinct messages, so comparing values identifies the kind. */
  lemma SentinelsDistinct(j: Sentinel, k: Sentinel)
    ensures Value(j).Message() == Value(k).Message() <==> j == k
  {
    var cj := Classify(Value(j));
    var ck := Classify(Value(k));
    assert cj == Some(j) && ck == Some(k);
  }

  /** Classifying a constant's value gives back that constant. */
  lemma ClassifyValue(k: Sentinel)
    ensures Classify(Value(k)) == Some(k)
  {
  }
}
