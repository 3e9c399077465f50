/**
 * Values shared by every part of the model: what an external collaborator did
 * when called, the (success, payload) pair that every pipeline stage returns,
 * and the values stored in a run's results map.
 */
module Outcomes {

  /** Optional request field (a JSON key that may be absent). */
  datatype Option<T> = None | Some(value: T) {
    function GetOr(default: T): T {
      match this
      case Some(v) => v
      case None => default
    }
  }

  /**
   * What one call into an opaque collaborator (cloud service, audio device,
   * file system, HTTP fetch) did: it returned a value, or it raised an
   * exception whose text `str(e)` is `error`.
   */
  datatype Call<T> = Returned(value: T) | Raised(error: string) {
    /** The stage result of a stage that returns what the call returned. */
    function ToStage(): StageResult<T> {
      match this
      case Returned(v) => Success(v)
      case Raised(e) => Failure(e)
    }
  }

  /** The `(True, payload)` / `(False, message)` pair a stage returns. */
  datatype StageResult<T> = Success(value: T) | Failure(message: string)

  /**
   * A value stored in the results dictionary: a string, or a list of strings
   * (the entity texts and the key-phrase texts).
   */
  datatype Value = Text(text: string) | Texts(items: seq<string>)

  predicate IsDigits(s: string)
  {
    forall i :: 0 <= i < |s| ==> '0' <= s[i] <= '9'
  }

  /** The number a string of decimal digits denotes, most significant digit first. */
  function DigitsValue(s: string): nat
    requires IsDigits(s)
  {
    if s == [] then 0 else 10 * DigitsValue(s[..|s| - 1]) + (s[|s| - 1] - '0') as int
  }

  /** Decimal rendering of a natural number, as Python's `str(n)`: its digits denote `n`, with no leading zero. */
  function NatToString(n: nat): (s: string)
    ensures |s| > 0 && IsDigits(s)
    ensures DigitsValue(s) == n
    ensures s[0] == '0' ==> s == "0"
  {
    var d := ['0' + (n % 10) as char];
    if n < 10 then d else
    var p := NatToString(n / 10);
    assert (p + d)[..|p + d| - 1] == p;
    p + d
  }
}
