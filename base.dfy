/** Shared vocabulary of the shader converter model: bytes, the exceptions the
    converter can raise, and the failure-compatible wrappers that carry them. */
module Base {

  newtype byte = x: int | 0 <= x < 256

  /** The exceptions the converter lets escape, one constructor per .NET exception kind. */
  datatype Error =
    | EndOfStream          // BinaryReader ran past the end of its stream
    | Overflow             // an array allocated with a negative length
    | ArgumentOutOfRange   // a negative seek or read count, an unknown property type
    | NotSupported         // CheckGpuProgramUsable on an obsolete or unknown platform
    | KeyNotFound          // a Dictionary lookup of a missing key
    | DuplicateKey         // Dictionary.Add of a key already present
    | IndexOutOfRange      // an array index past the end
    | NullReference        // a member access through a null reference

  datatype Option<+T> = None | Some(value: T)

  datatype Result<+T> = Ok(value: T) | Err(error: Error) {
    predicate IsFailure() { Err? }

    function PropagateFailure<U>(): Result<U>
      requires Err?
    {
      Err(error)
    }

    function Extract(): T
      requires Ok?
    {
      value
    }
  }

  /** Fails with `e` unless `condition` holds; used with `:-`. */
  datatype Outcome = Pass | Fail(error: Error) {
    predicate IsFailure() { Fail? }

    function PropagateFailure<U>(): Result<U>
      requires Fail?
    {
      Err(error)
    }
  }

  function Need(condition: bool, e: Error): (o: Outcome)
    ensures o.Pass? <==> condition
  {
    if condition then Pass else Fail(e)
  }

  function Zeros(n: nat): (z: seq<byte>)
    ensures |z| == n && forall i :: 0 <= i < n ==> z[i] == 0
  {
    seq(n, _ => 0)
  }

  /** The content of a fresh `new byte[n]` after `s` has been copied into its
      front: `s` cut to `n` bytes, or padded with zero bytes up to `n`. */
  function Fit(s: seq<byte>, n: nat): (r: seq<byte>)
    ensures |r| == n
    ensures forall i :: 0 <= i < n ==> r[i] == if i < |s| then s[i] else 0
  {
    if |s| >= n then s[..n] else s + Zeros(n - |s|)
  }

  function Min(a: int, b: int): int { if a <= b then a else b }
}
