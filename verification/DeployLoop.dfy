/** The deploy loop of an install with its deadline and heartbeats, and how the install ends
    (app/eu_install.py:699-738, 758-806). */
module DeployLoop {
  import opened Base
  import opened Tables
  import opened ConfigStore
  import opened Snapshots
  import opened Operations
  import opened History
  import opened Capture

  const LEASE: real := LEASE_SECONDS as real

  datatype Finish = Finish(exit: int, part: real)

  /** One pass of the loop: the task finishes within the wait, after some part of it; or the wait times out and the
      loop goes on some lag later. In between, somebody else may ask for the lease. */
  datatype Pass = Pass(lag: real, finished: Option<Finish>, wanted: bool) {
    predicate Plausible(jitter: real) {
      0.0 <= lag <= jitter && (finished.Some? ==> 0.0 <= finished.value.part <= 1.0)
    }
  }

  datatype End = Finished(exit: int) | DeadlinePassed | LeaseLost

  function Larger(a: real, b: real): (r: real)
    ensures r >= a && r >= b && (r == a || r == b)
  {
    if a < b then b else a
  }

  function Smaller(a: real, b: real): (r: real)
    ensures r <= a && r <= b && (r == a || r == b)
  {
    if a < b then a else b
  }

  function Timeout(timeout: real): real {
    Larger(0.01, timeout)
  }

  /** The heartbeat interval is clamped to the timeout. */
  function Interval(timeout: real, interval: real): (r: real)
    ensures 0.01 <= r
  {
    Larger(0.01, Smaller(interval, Timeout(timeout)))
  }

  /** How many more whole waits fit before the deadline. */
  function WaitsLeft(remaining: real, step: real): nat
    requires step > 0.0
  {
    if remaining <= 0.0 then 0
    else
      assert remaining / step >= 0.0;
      (remaining / step).Floor + 1
  }

  lemma WaitsLeftDrops(before: real, after: real, step: real)
    requires step > 0.0 && 0.0 < before && after <= before - step
    ensures WaitsLeft(after, step) < WaitsLeft(before, step)
  {
    if after > 0.0 {
      assert after / step <= before / step - 1.0 by {
        DivideBy(after, before, step);
      }
    }
  }

  lemma DivideBy(after: real, before: real, step: real)
    requires step > 0.0 && after <= before - step
    ensures after / step <= before / step - 1.0
  {
    var p, q := after / step, before / step;
    assert p * step == after && q * step == before;
    assert (q - 1.0) * step == before - step;
    Cancel(p, q - 1.0, step);
  }

  lemma Cancel(a: real, b: real, step: real)
    requires step > 0.0 && a * step <= b * step
    ensures a <= b
  {
    if a > b {
      StrictlyScaled(b, a, step);
    }
  }

  lemma StrictlyScaled(a: real, b: real, step: real)
    requires a < b && step > 0.0
    ensures a * step < b * step
  {
  }

  /** _run_deploy_with_heartbeat. The lease was renewed when the loop starts. It ends by its deadline, whatever the
      adversary does; the gaps between heartbeats stay within the clamped interval and the lag; and as long as that is
      below the lease time, nobody can have taken the lease. */
  method RunDeploy(timeout: real, interval: real, start: real, passes: nat -> Pass, jitter: real)
    returns (end: End, now: real, beats: seq<real>)
    requires forall i :: passes(i).Plausible(jitter)
    ensures start <= now <= start + Timeout(timeout) + jitter
    ensures end.DeadlinePassed? ==> now >= start + Timeout(timeout)
    ensures |beats| > 0 && beats[0] == start && now - beats[|beats| - 1] <= Interval(timeout, interval) + jitter
    ensures forall i | 0 < i < |beats| :: 0.0 <= beats[i] - beats[i - 1] <= Interval(timeout, interval) + jitter
    ensures Interval(timeout, interval) + jitter < LEASE ==> !end.LeaseLost?
  {
    var step := Interval(timeout, interval);
    var deadline := start + Timeout(timeout);
    var until := start + LEASE;
    now, beats := start, [start];
    var turn := 0;
    assert passes(turn).Plausible(jitter);
    while true
      invariant start <= now <= deadline + jitter && |beats| > 0 && beats[0] == start
      invariant beats[|beats| - 1] == now && until == now + LEASE && jitter >= 0.0
      invariant forall i | 0 < i < |beats| :: 0.0 <= beats[i] - beats[i - 1] <= step + jitter
      decreases WaitsLeft(deadline - now, step)
    {
      var remaining := deadline - now;
      if remaining <= 0.0 {
        return DeadlinePassed, now, beats;
      }
      var wait := Smaller(step, remaining);
      var pass := passes(turn);
      turn := turn + 1;
      assert pass.Plausible(jitter);
      ghost var before := now;
      if pass.finished.Some? {
        var spent := PartOfWait(wait, pass.finished.value.part);
        now := now + spent;
        return Finished(pass.finished.value.exit), now, beats;
      }
      now := now + wait + pass.lag;
      if now >= deadline {
        return DeadlinePassed, now, beats;
      }
      if pass.wanted && now >= until {
        return LeaseLost, now, beats;
      }
      until := now + LEASE;
      beats := beats + [now];
      WaitsLeftDrops(deadline - before, deadline - now, step);
    }
  }

  /** The part of a wait that has passed. */
  function PartOfWait(wait: real, part: real): (r: real)
    requires 0.0 <= wait && 0.0 <= part <= 1.0
    ensures 0.0 <= r <= wait
  {
    wait * part
  }

  /* ---------- how the install ends ---------- */

  /** run_eu_install after the loop: an uncertain end marks the operation ambiguous, a bad exit or an error fails it,
      and only a clean exit completes it. */
  function EndInstall(db: Db, id: nat, end: End, refreshed: bool, ts: string): Db {
    match end
    case Finished(exit) =>
      if exit == 0 && refreshed then
        var done := CompleteInstall(db, id, ts);
        if done.Commit? then done.value else FailInstall(db, id)
      else FailInstall(db, id)
    case _ => MarkInstallAmbiguous(db, id)
  }

  /** Only a clean exit applies the bound revision; every other end leaves the applied revision, and every applied
      snapshot, where it was. */
  lemma OnlyCleanExitApplies(env: Env, db: Db, id: nat, end: End, refreshed: bool, ts: string)
    requires DbInv(env, db) && id in db.ops.install
    ensures var db' := EndInstall(db, id, end, refreshed, ts);
            if end == Finished(0) && refreshed then
              && db'.cfg.applied.Some? && db'.cfg.applied.value >= db.ops.install[id].revision
              && db'.ops.install[id].status == DONE
            else
              && db'.cfg.applied == db.cfg.applied
              && forall r | r in db.cfg.snapshots && db.cfg.snapshots[r].lifecycle.APPLIED? ::
                   r in db'.cfg.snapshots && db'.cfg.snapshots[r] == db.cfg.snapshots[r]
  {
    hide ConfigSteps.CfgInv, CompleteConfig, FailSnapshot;
    var revision := db.ops.install[id].revision;
    CompleteKept(env, db.cfg, revision, ts);
    CompletedRevision(db.cfg, revision, ts);
    FailedKeepsApplied(db.cfg, revision);
  }

  lemma FailedKeepsApplied(c: Cfg, revision: nat)
    ensures FailSnapshot(c, revision).applied == c.applied
    ensures forall r | r in c.snapshots && c.snapshots[r].lifecycle.APPLIED? ::
      r in FailSnapshot(c, revision).snapshots && FailSnapshot(c, revision).snapshots[r] == c.snapshots[r]
  {
  }

  lemma CompletedRevision(c: Cfg, revision: nat, ts: string)
    requires revision in c.snapshots
    ensures CompleteConfig(c, revision, ts).value.applied.Some?
    ensures CompleteConfig(c, revision, ts).value.applied.value >= revision
  {
    hide Purge;
    var row := c.snapshots[revision].(lifecycle := APPLIED, appliedAt := Some(ts));
    var applied := if c.applied.None? || c.applied.value < revision then revision else c.applied.value;
    PurgeKeepsCounters(c.(snapshots := c.snapshots[revision := row], applied := Some(applied)));
  }

  lemma PurgeKeepsCounters(c: Cfg)
    ensures Purge(c).applied == c.applied
  {
  }

  /** An uncertain end is recorded as ambiguous exactly when the operation is still open. When the lease was lost
      because another operation took it over, the row has been closed as failed already, and it stays so. */
  lemma UncertainEndIsAmbiguousExactlyWhen(db: Db, id: nat, end: End, refreshed: bool, ts: string)
    requires id in db.ops.install && !end.Finished? && db.ops.install[id].status != AMBIGUOUS
    ensures EndInstall(db, id, end, refreshed, ts).ops.install[id].status == AMBIGUOUS
       <==> db.ops.install[id].status.Active()
  {
    hide FailSnapshot;
  }

  /** The takeover: the row is failed, the next heartbeat is refused, and the uncertain end leaves it failed. */
  lemma TakenOverInstallEndsFailed(db: Db, id: nat, other: Owner, now: int, ts: string)
    requires id in db.ops.install && db.ops.install[id].status.Active()
    requires Owns(db.ops, Owner(INSTALL, id)) && db.ops.lease.value.expiresAt <= now && other != Owner(INSTALL, id)
    ensures Acquire(db, other, now).Commit?
    ensures var taken := Acquire(db, other, now).value;
            && !HeartbeatInstall(taken.ops, id, now).1
            && EndInstall(taken, id, LeaseLost, false, ts).ops.install[id].status == FAILURE
            && EndInstall(taken, id, LeaseLost, false, ts).ops.lease == taken.ops.lease
  {
    hide FailSnapshot;
  }
}
