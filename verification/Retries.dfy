/**
 The bounded retry loops: checking that a driver is up, and deleting a cluster that is busy.
 Both wait a quadratically growing number of seconds between attempts.
 */
module Retries {
  /** 1 + 4 + ... + n*n */
  function Squares(n: nat): (r: nat) {
    if n == 0 then 0 else Squares(n - 1) + n * n
  }

  lemma Distributes(a: int, b: int, c: int)
    ensures (a + b) * c == a * c + b * c
  {
  }

  lemma Cubes(n: int)
    ensures n * (n + 1) * (2 * n + 1) - (n - 1) * n * (2 * n - 1) == 6 * (n * n)
  {
    var s := n * n;
    assert n * (n + 1) == s + n && (n - 1) * n == s - n;
    Distributes(s, n, 2 * n + 1);
    Distributes(s, -n, 2 * n - 1);
    assert s * (2 * n + 1) - s * (2 * n - 1) == 2 * s;
    assert n * (2 * n + 1) == 2 * s + n && -n * (2 * n - 1) == n - 2 * s;
  }

  lemma {:induction false} SquaresClosedForm(n: nat)
    ensures 6 * Squares(n) == n * (n + 1) * (2 * n + 1)
  {
    if n > 0 {
      SquaresClosedForm(n - 1);
      Cubes(n);
    }
  }

  lemma {:induction false} SquaresMonotone(m: nat, n: nat)
    requires m <= n
    ensures Squares(m) <= Squares(n)
  {
    if m < n {
      SquaresMonotone(m, n - 1);
    }
  }

  const MAX_FAILURES := 5
  const DELETE_ATTEMPTS := 11

  /** The loop of convertCluster: `up(i)` tells whether the i-th capability check succeeds. */
  method CheckDriverIsUp(up: nat -> bool) returns (ok: bool, checks: nat, waited: nat)
    ensures ok <==> exists i :: 0 <= i <= MAX_FAILURES + 1 && up(i)
    ensures 1 <= checks <= 7
    ensures forall i :: 0 <= i < checks - 1 ==> !up(i)
    ensures ok <==> up(checks - 1)
    ensures !ok ==> checks == 7
    ensures waited == Squares(checks - 1) <= 91
  {
    var failures := 0;
    checks, waited := 0, 0;
    while true
      invariant failures <= MAX_FAILURES + 1
      invariant checks == failures && waited == Squares(failures)
      invariant forall i :: 0 <= i < failures ==> !up(i)
      decreases MAX_FAILURES + 1 - failures
    {
      var answered := up(checks);
      checks := checks + 1;
      SquaresClosedForm(6);
      SquaresMonotone(failures, 6);
      if answered {
        return true, checks, waited;
      } else if failures > MAX_FAILURES {
        return false, checks, waited;
      }
      failures := failures + 1;
      waited := waited + failures * failures;
    }
  }

  /** One reply of the cloud to a delete request. */
  datatype DeleteReply = Accepted | Busy | Refused

  /** What waitClusterRemoveExp returns: nil error, or the error of the last attempt. */
  method DeleteWhenIdle(reply: nat -> DeleteReply) returns (last: DeleteReply, attempts: nat, waited: nat)
    ensures 1 <= attempts <= DELETE_ATTEMPTS && last == reply(attempts)
    ensures forall i :: 1 <= i < attempts ==> reply(i).Busy?
    ensures last.Busy? ==> attempts == DELETE_ATTEMPTS
    ensures last.Accepted? <==>
              exists i :: 1 <= i <= DELETE_ATTEMPTS && reply(i).Accepted? && forall k :: 1 <= k < i ==> reply(k).Busy?
    ensures waited == Squares(attempts) <= 506
  {
    last, attempts, waited := Busy, 0, 0;
    for i := 1 to 12
      invariant attempts == i - 1 && waited == Squares(attempts)
      invariant i > 1 ==> last == reply(i - 1)
      invariant forall k :: 1 <= k < i ==> reply(k).Busy?
    {
      waited := waited + i * i;
      attempts := i;
      last := reply(i);
      SquaresMonotone(i, 11);
      if !last.Busy? {
        SquaresClosedForm(11);
        return;
      }
    }
    SquaresClosedForm(11);
  }
}
