/** Types shared by the host-side interfaces and the simulated hardware. */
module Common {

  /** A byte value as the device and the simulators store it. */
  type Byte = b: int | 0 <= b < 256

  datatype Option<T> = None | Some(value: T)

  /** A value, or the Python exception (by class name) the source raises instead. */
  datatype Result<T> = Success(value: T) | Failure(error: string)

  /** The device-info record an I3C target reports: the numeric entries of the
      source's dictionary (`bcr` by its integer value). */
  datatype TargetDeviceInfo = TargetDeviceInfo(
    staticAddress: int,
    dynamicAddress: Option<int>,
    bcr: int,
    dcr: int,
    pid: seq<int>,
    maxIbiPayloadSize: int)

  /** What a blocking `sync_submit` of a one-command batch gives back: the
      batch's reply, or the exception the transfer controller raised. */
  datatype Submitted<R> = Replied(reply: R) | Raised(cause: string)

  /** A dynamically typed value taken from, or returned as, a reply dictionary entry. */
  datatype Field = Null | Num(n: int) | Text(s: string) | Bytes(b: seq<int>)

  /** The `(success, value)` pair a blocking interface method returns, or the
      `BackendError` it raises when the submission itself failed. */
  datatype Outcome = Returned(ok: bool, value: Field) | BackendError(cause: string)

  function Pow2(n: nat): (r: nat)
    ensures r >= 1
  {
    if n == 0 then 1 else 2 * Pow2(n - 1)
  }

  function Pow256(n: nat): (r: nat)
    ensures r >= 1
  {
    if n == 0 then 1 else 256 * Pow256(n - 1)
  }

  lemma {:induction false} Pow256Monotonic(m: nat, n: nat)
    requires m <= n
    ensures Pow256(m) <= Pow256(n)
  {
    if m < n {
      Pow256Monotonic(m, n - 1);
    }
  }

  /** Python's `str.startswith`. */
  predicate StartsWith(s: string, prefix: string) {
    |prefix| <= |s| && s[..|prefix|] == prefix
  }

  function Min(a: int, b: int): int {
    if a <= b then a else b
  }
}
