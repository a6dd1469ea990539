/** What holds in every database that is reachable from the empty one. */
module Reachable {
  import opened Base
  import opened VpnConfig
  import opened Tables
  import opened Capture
  import opened ConfigStore
  import opened Snapshots
  import opened Addresses
  import opened ConfigSteps
  import opened Operations
  import opened History

  ghost predicate Reaches(env: Env, es: seq<Event>, db: Db) {
    env.Ok() && CallersOk(env, EMPTY_DB, es) && Run(env, EMPTY_DB, es) == db
  }

  lemma ReachableInv(env: Env, es: seq<Event>, db: Db)
    requires Reaches(env, es, db)
    ensures DbInv(env, db)
  {
    EmptyInv(env);
    RunKept(env, EMPTY_DB, es);
  }

  /** "One revision, one content": no reachable preparation finds different content under its revision, and no
      reachable publication collides with a stored one. What can go wrong is listed in full. */
  lemma ContentErrorsAreUnreachable(env: Env, es: seq<Event>, db: Db, host: string, review: Option<nat>,
                                    ssh: Option<nat>, id: nat, ip: string, box: Option<NewBox>, ts: string, now: int)
    requires Reaches(env, es, db)
    ensures var t := PrepareInstall(env, db, host, now); t.Raise? ==> t.error in {BadValue, Busy}
    ensures var t := PrepareIpChange(env, db, review, ssh, now);
            t.Raise? ==> t.error in {BadValue, StaleDecision, SafetyHold, Busy}
    ensures var t := PublishIp(db, id, ip, box, ts);
            && (t.Commit? <==> id in db.ops.ip && db.ops.ip[id].revision == db.cfg.desired)
            && (t.Raise? ==> t.error == if id in db.ops.ip then ConfigChanged else NotFound)
    ensures CompleteInstall(db, id, ts).Commit? <==> id in db.ops.install
  {
    hide PrepareInstall, PrepareIpChange, CfgInv;
    hide PublishConfig;
    hide CompleteConfig;
    ReachableInv(env, es, db);
    StartInstallKept(env, db, host, now);
    StartIpChangeKept(env, db, review, ssh, now);
    PublishIpKept(env, db, id, ip, box, ts);
    if id in db.ops.ip {
      PublishKept(env, db.cfg, db.ops.ip[id].revision, ip, box, ts);
    }
    if id in db.ops.install {
      CompleteKept(env, db.cfg, db.ops.install[id].revision, ts);
    }
  }

  lemma RunSplits(env: Env, db: Db, first: seq<Event>, rest: seq<Event>)
    ensures Run(env, db, first + rest) == Run(env, Run(env, db, first), rest)
    ensures CallersOk(env, db, first + rest) <==> CallersOk(env, db, first) && CallersOk(env, Run(env, db, first), rest)
    decreases |first|
  {
    if first == [] {
      assert first + rest == rest;
    } else {
      assert (first + rest)[0] == first[0] && (first + rest)[1..] == first[1..] + rest;
      RunSplits(env, Next(env, db, first[0]), first[1..], rest);
    }
  }

  /** At every point of every run the applied revision names a stored APPLIED snapshot at most the desired one;
      and whatever happens afterwards, neither counter goes back, no stored content changes, and no APPLIED mark
      is lost. */
  lemma AppliedOnlyAdvances(env: Env, first: seq<Event>, rest: seq<Event>)
    requires env.Ok() && CallersOk(env, EMPTY_DB, first + rest)
    ensures var c, c' := Run(env, EMPTY_DB, first).cfg, Run(env, EMPTY_DB, first + rest).cfg;
            && (c.applied.Some? ==>
                  && c.applied.value <= c.desired && c.applied.value in c.snapshots
                  && c.snapshots[c.applied.value].lifecycle.APPLIED?)
            && Extends(c, c')
  {
    hide Served, AddressesOk, Extends, Run, CallersOk, DesiredIsCaptured;
    RunSplits(env, EMPTY_DB, first, rest);
    var db := Run(env, EMPTY_DB, first);
    ReachableInv(env, first, db);
    RunKept(env, db, rest);
  }

  /** In every reachable database the address of a client in the applied configuration belongs to that client and
      to nobody else, and no allocation returns it. */
  lemma AppliedAddressesAreReserved(env: Env, es: seq<Event>, db: Db, id: nat, address: nat, other: nat)
    requires Reaches(env, es, db) && db.cfg.applied.Some? && db.cfg.applied.value in db.cfg.snapshots
    requires id in db.cfg.snapshots[db.cfg.applied.value].payload.clients
    requires db.cfg.snapshots[db.cfg.applied.value].payload.clients[id].awgIpv4 == Some(address)
    ensures Holds(db.cfg, id, address)
    ensures forall i: nat | i != id :: !Holds(db.cfg, i, address)
    ensures forall r :: !PeerHolds(db.cfg, r, address)
    ensures Allocate(env, db.cfg) != Commit(address) && LegacyOrFree(env, db.cfg, other) != Commit(address)
  {
    ReachableInv(env, es, db);
    AppliedAddressIsNotReused(env, db.cfg, id, address, other);
  }

  /** The caller's rule is needed: after one failed install, writing a blank VLESS port that was absent is not
      counted as a change, and the next preparation finds two contents under one revision. */
  lemma SilentWriteBreaksPreparation(env: Env, host: string, ts: string)
    requires env.Ok()
    ensures var es := [StartInstall(host, 0), InstallFailed(1), Configure(WriteSetting(Port(VLESS), "", ts))];
            PrepareInstall(env, Run(env, EMPTY_DB, es), host, 0) == Raise(DifferentContent)
  {
    hide CaptureConfig, ToPayload, Next, Acquire, PrepareInstall;
    var db1 := Next(env, EMPTY_DB, StartInstall(host, 0));
    var db2 := Next(env, db1, InstallFailed(1));
    var db3 := Next(env, db2, Configure(WriteSetting(Port(VLESS), "", ts)));
    RunOfThree(env, EMPTY_DB, StartInstall(host, 0), InstallFailed(1), Configure(WriteSetting(Port(VLESS), "", ts)));
    FailedInstallStores(env, host);
    SilentlyWritten(env, db2, ts);
    assert db3.cfg == db2.cfg.(settings := db2.cfg.settings + map[Port(VLESS) := ""]);
    BlankSettingsCapture(env, db2.cfg);
    BlankSettingsCapture(env, db3.cfg);
    SilentWriteChangesRecord(env, db2.cfg, map[Port(VLESS) := ""], Port(VLESS));
    ChangedContentIsRefused(env, db3, host);
  }

  lemma SilentlyWritten(env: Env, db: Db, ts: string)
    requires db.cfg.settings == map[]
    ensures Next(env, db, Configure(WriteSetting(Port(VLESS), "", ts))).cfg
         == db.cfg.(settings := db.cfg.settings[Port(VLESS) := ""])
  {
    hide KeyName;
  }

  lemma ChangedContentIsRefused(env: Env, db: Db, host: string)
    requires db.cfg.desired in db.cfg.snapshots && CaptureConfig(env, db.cfg).Some?
    requires db.cfg.snapshots[db.cfg.desired].payload != ToPayload(CaptureConfig(env, db.cfg).value)
    ensures PrepareInstall(env, db, host, 0) == Raise(DifferentContent)
  {
    hide CaptureConfig, ToPayload, Acquire;
  }

  lemma RunOfThree(env: Env, db: Db, a: Event, b: Event, c: Event)
    ensures Run(env, db, [a, b, c]) == Next(env, Next(env, Next(env, db, a), b), c)
  {
    hide Next;
    assert [a, b, c][1..] == [b, c] && [b, c][1..] == [c] && [c][1..] == [];
    assert Run(env, Next(env, db, a), [b, c]) == Run(env, Next(env, Next(env, db, a), b), [c]);
  }

  /** After one failed install the empty settings are stored under revision 0. */
  lemma FailedInstallStores(env: Env, host: string)
    ensures var c := Next(env, Next(env, EMPTY_DB, StartInstall(host, 0)), InstallFailed(1)).cfg;
            && c.settings == map[] && c.desired == 0 && 0 in c.snapshots
            && CaptureConfig(env, c).Some? && c.snapshots[0].payload == ToPayload(CaptureConfig(env, c).value)
  {
    hide CaptureConfig, ToPayload;
    var c0 := EMPTY_DB.cfg;
    BlankSettingsCapture(env, c0);
    var payload := ToPayload(CaptureConfig(env, c0).value);
    var db1 := Next(env, EMPTY_DB, StartInstall(host, 0));
    assert db1.cfg == c0.(snapshots := map[0 := Snapshot(payload, Digest(payload), PREPARED, None)]);
    assert 1 in db1.ops.install && db1.ops.install[1].revision == 0;
    var c2 := Next(env, db1, InstallFailed(1)).cfg;
    SnapshotWriteKeepsCapture(env, c0, c2.snapshots, c0.applied);
    assert c2 == c0.(snapshots := c2.snapshots, applied := c0.applied);
  }

  /** With every captured setting absent or blank, and no blank number, the capture takes the defaults. */
  lemma BlankSettingsCapture(env: Env, c: Cfg)
    requires forall k | k in c.settings :: k.Port? && c.settings[k] == ""
    ensures CaptureConfig(env, c).Some?
  {
  }
}
