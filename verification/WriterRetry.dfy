// One upload worker on one job: commit attempts with growing waits until the storage
// answers, reports the file missing, or the attempts run out.
module WriterRetry {
  const U64_MAX: nat := 0xFFFF_FFFF_FFFF_FFFF

  datatype Answer = Stored | NotFound | Failed(message: string)

  datatype CommitResult = Ok | SourceDisappeared | BackendError(message: string)

  function SaturatingAdd(a: nat, b: nat): nat {
    if a + b > U64_MAX then U64_MAX else a + b
  }

  function SaturatingMul(a: nat, b: nat): nat {
    if a * b > U64_MAX then U64_MAX else a * b
  }

  function Pow2(e: nat): nat {
    if e == 0 then 1 else 2 * Pow2(e - 1)
  }

  // The wait after the k-th failure.
  function Backoff(baseMs: nat, k: nat): nat {
    SaturatingMul(baseMs, Pow2(if k < 6 then k else 6))
  }

  // How many of the first n answers, from the start, are plain failures.
  function Failures(answer: nat -> Answer, n: nat): (r: nat)
    ensures r <= n
    ensures forall i :: 0 <= i < r ==> answer(i).Failed?
    ensures r < n ==> !answer(r).Failed?
  {
    if n == 0 then 0 else
      var r := Failures(answer, n - 1);
      if r == n - 1 && answer(r).Failed? then n else r
  }

  // The waits after the first n failures.
  function Waits(baseMs: nat, n: nat): seq<nat> {
    seq(n, (k: nat) => Backoff(baseMs, k + 1))
  }

  lemma WaitsGrow(baseMs: nat, n: nat)
    requires n > 0
    ensures Waits(baseMs, n) == Waits(baseMs, n - 1) + [Backoff(baseMs, n)]
  {
  }

  // Attempt k + 1 is the last exactly when the first k answers were failures and either the
  // next is not, or the attempts are used up; `answer(k)` is what attempt k + 1 gets.
  method ProcessWriterJob(answer: nat -> Answer, uploadRetries: nat, retryBaseMs: nat)
    returns (result: CommitResult, attempts: nat, waits: seq<nat>, srcRemoved: bool)
    requires uploadRetries <= U64_MAX && retryBaseMs <= U64_MAX
    ensures 1 <= attempts <= uploadRetries + 1
    ensures attempts == var f := Failures(answer, SaturatingAdd(uploadRetries, 1));
                        if f == SaturatingAdd(uploadRetries, 1) then f else f + 1
    ensures result == match answer(attempts - 1)
                      case Stored => Ok
                      case NotFound => SourceDisappeared
                      case Failed(message) => BackendError(message)
    ensures srcRemoved <==> result.BackendError?
    ensures waits == Waits(retryBaseMs, attempts - 1)
  {
    var maxAttempts := SaturatingAdd(uploadRetries, 1);
    attempts, waits, srcRemoved := 0, [], false;
    ghost var most := Failures(answer, maxAttempts);
    while true
      invariant attempts < maxAttempts && attempts <= most
      invariant waits == Waits(retryBaseMs, attempts)
      invariant !srcRemoved
      decreases maxAttempts - attempts
    {
      var res := answer(attempts);
      match res
      case Stored =>
        attempts := attempts + 1;
        return Ok, attempts, waits, srcRemoved;
      case NotFound =>
        attempts := attempts + 1;
        return SourceDisappeared, attempts, waits, srcRemoved;
      case Failed(message) =>
        attempts := attempts + 1;
        if attempts >= maxAttempts {
          srcRemoved := true;
          return BackendError(message), attempts, waits, srcRemoved;
        }
        var backoffMs := Backoff(retryBaseMs, attempts);
        WaitsGrow(retryBaseMs, attempts);
        waits := waits + [backoffMs];
    }
  }

  lemma Pow2Grows(a: nat, b: nat)
    requires a <= b
    ensures Pow2(a) <= Pow2(b)
  {
  }

  // The waits never shrink, double until the sixth and stay there.
  lemma BackoffGrows(baseMs: nat, j: nat, k: nat)
    requires j <= k
    ensures Backoff(baseMs, j) <= Backoff(baseMs, k) <= 64 * baseMs
    ensures j >= 6 ==> Backoff(baseMs, j) == Backoff(baseMs, k)
    ensures k < 6 && Backoff(baseMs, k + 1) < U64_MAX ==> Backoff(baseMs, k + 1) == 2 * Backoff(baseMs, k)
  {
    var a, b := if j < 6 then j else 6, if k < 6 then k else 6;
    Pow2Grows(a, b);
    Pow2Grows(b, 6);
    assert Pow2(6) == 64;
    MulGrows(baseMs, Pow2(a), Pow2(b));
    MulGrows(baseMs, Pow2(b), 64);
    if k < 6 {
      assert Pow2(k + 1) == 2 * Pow2(k);
      assert baseMs * Pow2(k + 1) == 2 * (baseMs * Pow2(k));
    }
  }

  lemma MulGrows(x: nat, a: nat, b: nat)
    requires a <= b
    ensures x * a <= x * b
  {
  }

  // The first waits: twice the base, doubling up to 64 times.
  lemma FirstWaits(baseMs: nat)
    requires 64 * baseMs <= U64_MAX
    ensures Waits(baseMs, 7) ==
      [2 * baseMs, 4 * baseMs, 8 * baseMs, 16 * baseMs, 32 * baseMs, 64 * baseMs, 64 * baseMs]
  {
    assert Pow2(1) == 2 && Pow2(2) == 4 && Pow2(3) == 8 && Pow2(4) == 16 && Pow2(5) == 32 && Pow2(6) == 64;
  }

  // And no wait is longer than 64 bits can say.
  lemma WaitSaturates(baseMs: nat, k: nat)
    ensures Backoff(baseMs, k) == if baseMs * Pow2(if k < 6 then k else 6) > 0xFFFF_FFFF_FFFF_FFFF then 0xFFFF_FFFF_FFFF_FFFF
                                  else baseMs * Pow2(if k < 6 then k else 6)
  {
  }
}
