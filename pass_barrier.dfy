/**
 * The pass barrier of `applyGItoScene`: every mesh of the bake list is baked
 * once per pass, and a closure counting the per-mesh notifications starts
 * pass k+1 only after all meshes of pass k have reported; after the last
 * pass it calls `onFinished`.
 */
module PassBarrier {
  import opened Common

  /** The number of passes run for a `twoPassPassCount`: at least one. */
  function Rounds(passCount: int): (r: nat)
    ensures r >= 1
    ensures passCount >= 1 ==> r == passCount
    ensures passCount < 1 ==> r == 1
  {
    if passCount < 1 then 1 else passCount
  }

  /** `meshCount * Rounds(passCount)`: the notifications the whole bake delivers. */
  function TotalNotifications(meshCount: nat, passCount: int): nat
  {
    meshCount * Rounds(passCount)
  }

  /**
   * What the closure and the issued bakes amount to: the counter
   * `meshesProceeded`, the current `pass`, the number of bake rounds issued
   * (one round bakes every mesh once) and how often `onFinished` ran.
   */
  datatype BarrierState = BarrierState(meshesProceeded: nat, pass: int, roundsIssued: nat, finished: nat)

  function MinNat(a: nat, b: nat): nat { if a <= b then a else b }

  /**
   * The state after `n` notifications, in closed form: `pass - 1` rounds are
   * complete, `meshesProceeded` meshes of the current one have reported,
   * rounds up to the current pass (no further than the last) have been
   * issued, and `onFinished` has run once when all notifications are in
   * (immediately for an empty bake list).
   */
  function AfterNotifications(meshCount: nat, passCount: int, n: nat): BarrierState
    requires n <= TotalNotifications(meshCount, passCount)
  {
    if meshCount == 0 then BarrierState(0, 1, 0, 1)
    else
      BarrierState(n % meshCount, 1 + n / meshCount, MinNat(1 + n / meshCount, Rounds(passCount)),
                   if n == TotalNotifications(meshCount, passCount) then 1 else 0)
  }

  /** `onFinished` runs exactly when every pass of every mesh has reported. */
  lemma FinishesExactlyAtTheEnd(meshCount: nat, passCount: int, n: nat)
    requires n <= TotalNotifications(meshCount, passCount)
    requires meshCount > 0
    ensures AfterNotifications(meshCount, passCount, n).finished == 1 <==> n == TotalNotifications(meshCount, passCount)
    ensures AfterNotifications(meshCount, passCount, n).finished <= 1
  {
  }

  /**
   * The barrier never stalls: until `onFinished` has run, some issued bake
   * has not yet reported; and when it has run, every issued bake has.
   */
  lemma {:induction false} NoStall(meshCount: nat, passCount: int, n: nat)
    requires n <= TotalNotifications(meshCount, passCount)
    ensures var s := AfterNotifications(meshCount, passCount, n);
            (s.finished == 0 ==> n < s.roundsIssued * meshCount) &&
            (s.finished == 1 ==> n == s.roundsIssued * meshCount)
  {
    if meshCount > 0 {
      var c, R := meshCount, Rounds(passCount);
      var q := n / c;
      if n == R * c {
        DivOfMultiple(R, c);
        assert MinNat(1 + q, R) == R;
      } else {
        DivBounds(n, c);
        if R < q + 1 {
          MulMonotone(R, q, c);
          assert false;
        }
        assert MinNat(1 + q, R) == q + 1;
      }
    }
  }

  /** `n` lies between the multiples of `c` next to it. */
  lemma {:induction false} DivBounds(n: nat, c: nat)
    requires c > 0
    ensures (n / c) * c <= n < (n / c + 1) * c
  {
    var q, r := n / c, n % c;
    assert n == q * c + r;
    assert (q + 1) * c == q * c + c;
  }

  lemma {:induction false} MulMonotone(a: nat, b: nat, c: nat)
    requires a <= b
    ensures a * c <= b * c
  {
    assert b * c == a * c + (b - a) * c;
  }

  lemma {:induction false} DivOfMultiple(a: nat, c: nat)
    requires c > 0
    ensures (a * c) / c == a && (a * c) % c == 0
  {
    DivModUnique(a * c, c, a, 0);
  }

  /** A `twoPassPassCount` of 0 still runs one pass; the whole bake takes one notification per mesh and pass. */
  lemma {:induction false} EveryPassRuns(meshCount: nat, passCount: int)
    requires meshCount > 0
    ensures var s := AfterNotifications(meshCount, passCount, TotalNotifications(meshCount, passCount));
            s.finished == 1 && s.roundsIssued == Rounds(passCount) && s.meshesProceeded == 0
    ensures passCount <= 1 ==> TotalNotifications(meshCount, passCount) == meshCount
  {
    DivOfMultiple(Rounds(passCount), meshCount);
  }

  /** One more notification: the counter moves on, or wraps and the pass advances. */
  lemma {:induction false} NextNotification(n: nat, c: nat)
    requires c > 0
    ensures n % c + 1 < c ==> (n + 1) % c == n % c + 1 && (n + 1) / c == n / c
    ensures n % c + 1 == c ==> (n + 1) % c == 0 && (n + 1) / c == n / c + 1
  {
    var q, r := n / c, n % c;
    assert n == q * c + r;
    if r + 1 < c {
      assert n + 1 == q * c + (r + 1);
      DivModUnique(n + 1, c, q, r + 1);
    } else {
      assert n + 1 == (q + 1) * c;
      DivModUnique(n + 1, c, q + 1, 0);
    }
  }

  /** The closure `applyGItoScene` registers with `setOnMeshBaked`, and the bakes it issues. */
  class Barrier {
    const meshCount: nat
    const passCount: int
    var meshesProceeded: nat
    var pass: int
    /** Notifications received so far. */
    ghost var notified: nat
    /** Bake rounds issued so far (`__sceneObjectsToBake.forEach(bakeMesh(pass, …))`). */
    ghost var roundsIssued: nat
    /** Calls of `onFinished` so far. */
    ghost var finished: nat

    ghost predicate Valid()
      reads this
    {
      notified <= TotalNotifications(meshCount, passCount) &&
      AfterNotifications(meshCount, passCount, notified) == BarrierState(meshesProceeded, pass, roundsIssued, finished)
    }

    /**
     * `applyGItoScene`: an empty bake list finishes at once; otherwise the
     * first pass is issued for every mesh.
     */
    constructor ApplyGItoScene(meshCount: nat, passCount: int)
      ensures this.meshCount == meshCount && this.passCount == passCount
      ensures Valid() && notified == 0
      ensures meshCount == 0 ==> finished == 1 && roundsIssued == 0
      ensures meshCount > 0 ==> finished == 0 && roundsIssued == 1
    {
      this.meshCount := meshCount;
      this.passCount := passCount;
      meshesProceeded := 0;
      pass := 1;
      notified := 0;
      finished := if meshCount == 0 then 1 else 0;
      roundsIssued := if meshCount == 0 then 0 else 1;
    }

    /**
     * A mesh has been baked. `next` is the pass this notification issues
     * for every mesh, if any; `done` says whether it calls `onFinished`.
     * A notification is only delivered for a bake that was issued.
     */
    method OnMeshBaked() returns (next: int, issues: bool, done: bool)
      requires Valid() && notified < roundsIssued * meshCount
      modifies this
      ensures Valid() && notified == old(notified) + 1
      ensures issues || done <==> old(meshesProceeded) + 1 == meshCount
      ensures issues || done ==> meshesProceeded == 0 && pass == old(pass) + 1
      ensures !(issues || done) ==> meshesProceeded == old(meshesProceeded) + 1 && pass == old(pass)
      ensures issues ==> !done && next == pass && pass <= passCount && roundsIssued == old(roundsIssued) + 1
      ensures !issues ==> roundsIssued == old(roundsIssued)
      ensures done <==> finished == old(finished) + 1
      ensures done <==> notified == TotalNotifications(meshCount, passCount)
      ensures !done ==> finished == old(finished)
    {
      NoStall(meshCount, passCount, notified);
      CurrentRound(meshCount, passCount, notified);
      if meshesProceeded + 1 < meshCount {
        WithinRound(meshCount, passCount, notified);
      } else {
        EndOfRound(meshCount, passCount, notified);
      }
      notified := notified + 1;
      meshesProceeded := meshesProceeded + 1;
      next, issues, done := 0, false, false;
      if meshesProceeded == meshCount {
        meshesProceeded := 0;
        pass := pass + 1;
        if pass <= passCount {
          next, issues := pass, true;
          roundsIssued := roundsIssued + 1;
        } else {
          done := true;
          finished := finished + 1;
        }
      }
    }
  }

  /** While notifications are outstanding the current round is not past the last. */
  lemma {:induction false} CurrentRound(c: nat, passCount: int, n: nat)
    requires c > 0 && n < TotalNotifications(c, passCount)
    ensures n / c < Rounds(passCount)
  {
    if n / c >= Rounds(passCount) {
      MulMonotone(Rounds(passCount), n / c, c);
      assert false;
    }
  }

  /** A notification that does not complete the round only moves the counter. */
  lemma {:induction false} WithinRound(c: nat, passCount: int, n: nat)
    requires c > 0 && n < TotalNotifications(c, passCount) && n % c + 1 < c
    ensures AfterNotifications(c, passCount, n + 1) ==
            AfterNotifications(c, passCount, n).(meshesProceeded := n % c + 1)
  {
    NextNotification(n, c);
    if n + 1 == Rounds(passCount) * c {
      DivOfMultiple(Rounds(passCount), c);
      assert false;
    }
  }

  /** The notification that completes round `q + 1` issues the next pass, or finishes after the last. */
  lemma {:induction false} EndOfRound(c: nat, passCount: int, n: nat)
    requires c > 0 && n < TotalNotifications(c, passCount) && n % c + 1 == c && n / c < Rounds(passCount)
    ensures var q := n / c;
            AfterNotifications(c, passCount, n + 1) ==
              if q + 2 <= passCount then BarrierState(0, q + 2, q + 2, 0) else BarrierState(0, q + 2, q + 1, 1)
    ensures AfterNotifications(c, passCount, n).roundsIssued == n / c + 1
  {
    var q, R := n / c, Rounds(passCount);
    NextNotification(n, c);
    assert n + 1 == (q + 1) * c;
    if q + 2 <= passCount {
      MulMonotone(q + 2, R, c);
      assert (q + 2) * c == (q + 1) * c + c;
    }
  }
}
