/** Small vocabulary shared by every component of the model. */
module Base {

  datatype Option<+T> = None | Some(value: T)

  datatype Result<+T, +E> = Ok(value: T) | Err(error: E)

  /** The stage that reports a failure on the progress slot. */
  datatype Stage = Render | Gzip | Put | Whole

  /** The error kinds of the SDK, without their message texts. */
  datatype Error =
    | Config
    | Schema
    | UnsupportedType
    | Naming
    | Storage
    | WriterLocked
    | WriterClosed
    | WriterFenced
    | StagingOrderViolation
    | SerialContractViolation
    | StagingStalled(attempts: nat)
    | RotationFailed(stage: Stage, cause: Error)

  const I64_MIN: int := -0x8000_0000_0000_0000
  const I64_MAX: int := 0x7FFF_FFFF_FFFF_FFFF

  function Max(a: int, b: int): int {
    if a < b then b else a
  }

  lemma EndsOfConcat<T>(a: seq<T>, b: seq<T>)
    requires b != []
    ensures var s := a + b; s[|a|] == b[0] && s[|s| - 1] == b[|b| - 1] && s[..|a|] == a
  {
  }

  lemma Associate<T>(a: seq<T>, b: seq<T>, c: seq<T>)
    ensures a + b + c == a + (b + c)
  {
  }
}
