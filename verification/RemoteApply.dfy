/** The rendered apply script (app/remote_apply.py:308-541) on the server it changes: five live files, three services,
    and a command that may fail at every step. */
module RemoteApply {
  import opened Tables

  datatype File = XRAY_JSON | HYSTERIA_YAML | HYSTERIA_CRT | HYSTERIA_KEY | AWG_CONF

  const FILES := [XRAY_JSON, HYSTERIA_YAML, HYSTERIA_CRT, HYSTERIA_KEY, AWG_CONF]

  /** What systemd says of one service. */
  datatype Unit = Unit(enabled: bool, active: bool)

  datatype Result = NONE | ROLLED_BACK_RESULT | APPLIED_RESULT

  type Files = map<File, string>

  /** How one command turns out. A failing command may have taken effect or not; a restart that succeeds may still
      leave the service inactive. */
  datatype Outcome = Outcome(ok: bool, effect: bool)

  function ProtocolOfFile(f: File): Proto {
    match f
    case XRAY_JSON => VLESS
    case HYSTERIA_YAML | HYSTERIA_CRT | HYSTERIA_KEY => HYSTERIA
    case AWG_CONF => AMNEZIA
  }

  function FilesOf(p: Proto): seq<File> {
    match p
    case VLESS => [XRAY_JSON]
    case HYSTERIA => [HYSTERIA_YAML, HYSTERIA_CRT, HYSTERIA_KEY]
    case AMNEZIA => [AWG_CONF]
  }

  /** A file is as it was: the same content, or absent. */
  predicate SameFile(a: Files, b: Files, f: File) {
    (f in a <==> f in b) && (f in a ==> a[f] == b[f])
  }

  /** Each enabled protocol has its staged files, each disabled one has none. */
  ghost predicate Switched(enabled: set<Proto>, staged: Files, live: Files) {
    forall f: File :: Wanted(enabled, staged, live, f)
  }

  predicate Wanted(enabled: set<Proto>, staged: Files, live: Files, f: File) {
    if ProtocolOfFile(f) in enabled then f in staged && f in live && live[f] == staged[f] else f !in live
  }

  /** What the service checks have seen. */
  ghost predicate Served(enabled: set<Proto>, services: map<Proto, Unit>) {
    forall p: Proto | p in services :: Checked(services, enabled, p)
  }

  predicate Checked(services: map<Proto, Unit>, enabled: set<Proto>, p: Proto)
    requires p in services
  {
    if p in enabled then services[p].active else !services[p].active && !services[p].enabled
  }

  /** All commands from one number to another succeed. */
  ghost predicate Fine(outcomes: nat -> Outcome, from: nat, to: nat) {
    forall i | from <= i < to :: outcomes(i).ok
  }

  /** They succeed and take effect: a restarted service comes up, a stopped one goes down. */
  ghost predicate Effective(outcomes: nat -> Outcome, from: nat, to: nat) {
    forall i | from <= i < to :: outcomes(i).ok && outcomes(i).effect
  }

  /* ---------- how many commands the fixed parts of the script take ---------- */

  /** Before the copies: the two parts of the name, and the directories. After them: the six service states, the
      manifest, its mode and its rename. */
  const OPENING := 5
  const MANIFEST := 9

  function BackupStart(live: Files, i: nat): nat
    requires i <= |FILES|
  {
    if i == 0 then OPENING else BackupStart(live, i - 1) + if FILES[i - 1] in live then 2 else 0
  }

  /** The commands before the switch flag. */
  function Preparation(validations: nat, live: Files): nat {
    validations + BackupStart(live, |FILES|) + MANIFEST
  }

  /** Where in a rollback the restore commands of the i-th file begin. */
  function RestoreStart(before: Files, from: nat, i: nat): nat
    requires i <= |FILES|
  {
    if i == 0 then from else RestoreStart(before, from, i - 1) + if FILES[i - 1] in before then 2 else 1
  }

  /** One of the commands that restore the i-th file fails. */
  ghost predicate RestoreFails(outcomes: nat -> Outcome, before: Files, from: nat, i: nat)
    requires i < |FILES|
  {
    exists j: nat | RestoreStart(before, from, i) <= j < RestoreStart(before, from, i + 1) :: !outcomes(j).ok
  }

  /** The restore commands of one file fail together, or none of them does. */
  lemma RestoreEnds(outcomes: nat -> Outcome, before: Files, from: nat, i: nat)
    requires i < |FILES|
    ensures var start := RestoreStart(before, from, i); var end := start + if FILES[i] in before then 2 else 1;
            && RestoreStart(before, from, i + 1) == end
            && (RestoreFails(outcomes, before, from, i) <==> !Fine(outcomes, start, end))
  {
  }

  /** Restoring one file leaves the others as they are. */
  lemma RestoredStay(prior: Files, live: Files, before: Files, done: seq<File>, f: File)
    requires f !in done && forall g | g != f :: SameFile(live, prior, g)
    ensures forall g | g in done && SameFile(prior, before, g) :: SameFile(live, before, g)
  {
    forall g | g in done && SameFile(prior, before, g) ensures SameFile(live, before, g) {
      assert SameFile(live, prior, g);
    }
  }

  lemma FromBackup(live: Files, backup: Files, present: set<File>, before: Files, f: File)
    requires present == before.Keys && forall g | g in before :: g in backup && backup[g] == before[g]
    requires if f in present && f in backup then f in live && live[f] == backup[f] else f !in live
    ensures SameFile(live, before, f)
  {
  }

  lemma FilesAreAll(f: File)
    ensures f in FILES
  {
    assert FILES[0] == XRAY_JSON && FILES[1] == HYSTERIA_YAML && FILES[2] == HYSTERIA_CRT && FILES[3] == HYSTERIA_KEY
           && FILES[4] == AWG_CONF;
  }

  class Host {
    const outcomes: nat -> Outcome
    var commands: nat
    var live: Files
    var backup: Files
    var present: set<File>       // the backup's .present markers
    var services: map<Proto, Unit>
    var switchStarted: bool
    var result: Result

    constructor (outcomes: nat -> Outcome, live: Files, services: map<Proto, Unit>)
      ensures this.live == live && this.services == services && this.outcomes == outcomes && !switchStarted
    {
      this.outcomes, this.live, this.services := outcomes, live, services;
      commands, backup, present, switchStarted, result := 0, map[], {}, false, NONE;
    }

    method Command() returns (o: Outcome)
      modifies `commands
      ensures commands == old(commands) + 1 && o == outcomes(old(commands))
    {
      o := outcomes(commands);
      commands := commands + 1;
    }

    /** Some commands in a row, none of which touches a live file; the first failure ends the script. */
    method Perform(steps: nat) returns (ok: bool)
      modifies `commands
      ensures ok <==> Fine(outcomes, old(commands), old(commands) + steps)
      ensures old(commands) <= commands && (ok ==> commands == old(commands) + steps)
      ensures ok <==> Fine(outcomes, old(commands), commands)
    {
      for i := 0 to steps
        invariant commands == old(commands) + i && Fine(outcomes, old(commands), commands)
      {
        var o := Command();
        if !o.ok {
          return false;
        }
      }
      ok := true;
    }

    /** backup_file: the marker is written only after the copy succeeded. */
    method BackupFile(f: File) returns (ok: bool)
      modifies `commands, `backup, `present
      ensures ok <==> Fine(outcomes, old(commands), old(commands) + if f in live then 2 else 0)
      ensures old(commands) <= commands && (ok ==> commands == old(commands) + if f in live then 2 else 0)
      ensures ok <==> Fine(outcomes, old(commands), commands)
      ensures ok ==> present == old(present) + (if f in live then {f} else {})
      ensures ok && f in live ==> backup == old(backup)[f := live[f]]
      ensures ok && f !in live ==> backup == old(backup)
    {
      if f !in live {
        return true;
      }
      var copied := Command();
      if !copied.ok {
        backup := if copied.effect then backup[f := ""] else backup;
        return false;
      }
      backup := backup[f := live[f]];
      var marked := Command();
      if marked.ok || marked.effect {
        present := present + {f};
      }
      ok := marked.ok;
    }

    /** prepare_backup: when it succeeds, the backup is a complete copy of the live files and their absence. */
    method PrepareBackup() returns (ok: bool)
      modifies `commands, `backup, `present
      ensures ok <==> Fine(outcomes, old(commands), old(commands) + Preparation(0, live))
      ensures old(commands) <= commands && (ok ==> commands == old(commands) + Preparation(0, live))
      ensures ok <==> Fine(outcomes, old(commands), commands)
      ensures ok ==> IsBackup(live)
    {
      BackupStartGrows(live, 0);
      ok := Perform(OPENING);
      if !ok {
        return;
      }
      present := {};
      for i := 0 to |FILES|
        invariant commands == old(commands) + BackupStart(live, i) && Fine(outcomes, old(commands), commands)
        invariant present == set f | f in FILES[..i] && f in live
        invariant forall f | f in present :: f in backup && backup[f] == live[f]
      {
        assert FILES[..i + 1] == FILES[..i] + [FILES[i]];
        BackupStartGrows(live, i + 1);
        var copied := BackupFile(FILES[i]);
        if !copied {
          return false;
        }
      }
      assert FILES[..|FILES|] == FILES;
      forall f | f in live ensures f in present {
        FilesAreAll(f);
      }
      ok := Perform(MANIFEST);
    }

    /** The backup and its markers stand for exactly these files. */
    ghost predicate IsBackup(files: Files)
      reads `backup, `present
    {
      present == files.Keys && forall f | f in files :: f in backup && backup[f] == files[f]
    }

    /** restore_file, with errors ignored: a failed copy is moved into place all the same. */
    method RestoreFile(f: File) returns (ok: bool)
      modifies `commands, `live
      ensures forall g | g != f :: SameFile(live, old(live), g)
      ensures commands == old(commands) + (if f in present && f in backup then 2 else 1)
      ensures ok <==> Fine(outcomes, old(commands), commands)
      ensures ok ==> if f in present && f in backup then f in live && live[f] == backup[f] else f !in live
    {
      if f in present && f in backup {
        var copied := Command();
        var moved := Command();
        if moved.ok || moved.effect {
          live := live[f := if copied.ok then backup[f] else ""];
        }
        ok := copied.ok && moved.ok;
      } else {
        var removed := Command();
        if removed.ok || removed.effect {
          live := live - {f};
        }
        ok := removed.ok;
      }
    }

    /** rollback: every file whose own restore commands succeed is as it was before, whatever happens to the rest. The
        unrestored ones are exactly those with a failing command among their own. */
    method Rollback(ghost before: Files) returns (unrestored: set<File>)
      requires IsBackup(before)
      modifies `commands, `live, `services, `result
      ensures forall f | f !in unrestored :: SameFile(live, before, f)
      ensures forall i | 0 <= i < |FILES| :: FILES[i] in unrestored <==> RestoreFails(outcomes, before, old(commands), i)
      ensures commands == RestoreStart(before, old(commands), |FILES|) + 1
    {
      unrestored := {};
      assert RestoreStart(before, commands, 0) == commands;
      hide RestoreStart, RestoreFails, Fine, SameFile;
      for i := 0 to |FILES|
        invariant forall f | f in FILES[..i] && f !in unrestored :: SameFile(live, before, f)
        invariant IsBackup(before) && commands == RestoreStart(before, old(commands), i)
        invariant unrestored <= set f | f in FILES[..i]
        invariant forall k | 0 <= k < i :: FILES[k] in unrestored <==> RestoreFails(outcomes, before, old(commands), k)
      {
        var f := FILES[i];
        assert FILES[..i + 1] == FILES[..i] + [f];
        assert f !in FILES[..i] by {
          FilesAreDistinct(i);
        }
        ghost var prior := live;
        var ok := RestoreFile(f);
        RestoreEnds(outcomes, before, old(commands), i);
        forall k | 0 <= k < i ensures FILES[k] != f {
          assert FILES[k] in FILES[..i];
        }
        RestoredStay(prior, live, before, FILES[..i], f);
        if ok {
          FromBackup(live, backup, present, before, f);
        }
        if !ok {
          unrestored := unrestored + {f};
        }
      }
      assert FILES[..|FILES|] == FILES;
      forall f | f !in unrestored ensures SameFile(live, before, f) {
        FilesAreAll(f);
      }
      services := *;
      var marked := Command();
      result := if marked.ok || marked.effect then ROLLED_BACK_RESULT else result;
    }

    /** on_error: what the script does when a command fails. */
    method OnError(ghost before: Files) returns (unrestored: set<File>)
      requires switchStarted ==> IsBackup(before)
      requires !switchStarted ==> live == before
      modifies `commands, `live, `services, `result
      ensures forall f | f !in unrestored :: SameFile(live, before, f)
      ensures !old(switchStarted) ==> live == before && unrestored == {} && commands == old(commands)
      ensures old(switchStarted) ==>
                && commands == RestoreStart(before, old(commands), |FILES|) + 1
                && forall i | 0 <= i < |FILES| :: FILES[i] in unrestored <==> RestoreFails(outcomes, before, old(commands), i)
    {
      unrestored := {};
      if switchStarted {
        unrestored := Rollback(before);
      }
    }

    /** atomic_install: nothing reaches the live path before the final rename. */
    method InstallFile(f: File, content: string) returns (ok: bool)
      modifies `commands, `live
      ensures old(commands) <= commands && (ok <==> Fine(outcomes, old(commands), commands))
      ensures ok ==> live == old(live)[f := content]
    {
      var staged := Command();
      if !staged.ok {
        return false;
      }
      var moved := Command();
      if moved.ok || moved.effect {
        live := live[f := content];
      }
      ok := moved.ok;
    }

    /** rm -f of the files of a disabled protocol: a failing command may have removed some of them. */
    method RemoveFiles(files: seq<File>, some: set<File>) returns (ok: bool)
      modifies `commands, `live
      ensures old(commands) <= commands && (ok <==> Fine(outcomes, old(commands), commands))
      ensures ok ==> live == old(live) - (set f | f in files)
    {
      var removed := Command();
      if removed.ok {
        live := live - (set f | f in files);
      } else if removed.effect {
        live := live - (set f | f in files && f in some);
      }
      ok := removed.ok;
    }

    /** The files of one protocol. */
    method SwitchProtocol(p: Proto, enabled: bool, staged: Files, some: set<File>) returns (ok: bool)
      requires enabled ==> forall f | f in FilesOf(p) :: f in staged
      modifies `commands, `live
      ensures old(commands) <= commands && (ok <==> Fine(outcomes, old(commands), commands))
      ensures ok ==> forall f: File :: if ProtocolOfFile(f) == p
                then (if enabled then f in live && live[f] == staged[f] else f !in live)
                else SameFile(live, old(live), f)
    {
      FilesOfProtocol(p);
      if !enabled {
        ok := RemoveFiles(FilesOf(p), some);
        return;
      }
      var files := FilesOf(p);
      for i := 0 to |files|
        invariant old(commands) <= commands && Fine(outcomes, old(commands), commands)
        invariant forall f | f in files[..i] :: f in live && live[f] == staged[f]
        invariant forall f | f !in files :: SameFile(live, old(live), f)
      {
        assert files[..i + 1] == files[..i] + [files[i]];
        var installed := InstallFile(files[i], staged[files[i]]);
        if !installed {
          return false;
        }
      }
      assert files[..|files|] == files;
      if p == HYSTERIA {
        var owner := Command();
        return owner.ok;
      }
      ok := true;
    }

    /** apply_service: errors of stop and disable are ignored, so only the checks can tell. */
    method ApplyService(p: Proto, enabled: bool) returns (ok: bool)
      requires p in services
      modifies `commands, `services
      ensures old(commands) <= commands
      ensures services.Keys == old(services.Keys) && forall q | q in services && q != p :: services[q] == old(services)[q]
      ensures Effective(outcomes, old(commands), commands) ==> ok && Checked(services, if enabled then {p} else {}, p)
    {
      var first := Command();
      if enabled {
        services := services[p := services[p].(enabled := first.ok || first.effect)];
        if !first.ok {
          return false;
        }
        var restarted := Command();
        services := services[p := services[p].(active := restarted.effect)];
        ok := restarted.ok;
      } else {
        var second := Command();
        services := services[p := Unit(services[p].enabled && !second.effect, services[p].active && !first.effect)];
        ok := true;
      }
    }

    /** The service check of one protocol. */
    method CheckService(p: Proto, enabled: bool) returns (ok: bool)
      requires p in services
      ensures ok <==> if enabled then services[p].active else !services[p].active && !services[p].enabled
    {
      ok := if enabled then services[p].active else !services[p].active && !services[p].enabled;
    }

    /** The five files, protocol by protocol. */
    method SwitchFiles(enabled: set<Proto>, staged: Files, some: set<File>) returns (ok: bool)
      requires forall f: File | ProtocolOfFile(f) in enabled :: f in staged
      modifies `commands, `live
      ensures old(commands) <= commands && (ok <==> Fine(outcomes, old(commands), commands))
      ensures ok ==> Switched(enabled, staged, live)
    {
      ok := true;
      for i := 0 to |PROTOCOLS|
        invariant ok && old(commands) <= commands && Fine(outcomes, old(commands), commands)
        invariant forall f: File | ProtocolOfFile(f) in PROTOCOLS[..i] :: Wanted(enabled, staged, live, f)
      {
        var p := PROTOCOLS[i];
        assert PROTOCOLS[..i + 1] == PROTOCOLS[..i] + [p] && p !in PROTOCOLS[..i];
        ghost var prior := live;
        ok := SwitchProtocol(p, p in enabled, staged, some);
        if !ok {
          return;
        }
        forall f: File | ProtocolOfFile(f) in PROTOCOLS[..i] ensures Wanted(enabled, staged, live, f) {
          assert Wanted(enabled, staged, prior, f) && SameFile(live, prior, f);
        }
      }
      ProtocolsAreAll();
    }

    /** Starting and stopping, and then the checks. */
    method SwitchServices(enabled: set<Proto>) returns (ok: bool)
      requires services.Keys == {VLESS, HYSTERIA, AMNEZIA}
      modifies `commands, `services
      ensures old(commands) <= commands && (Effective(outcomes, old(commands), commands) ==> ok)
      ensures services.Keys == old(services.Keys) && (ok ==> Served(enabled, services))
    {
      ok := true;
      for i := 0 to |PROTOCOLS|
        invariant ok && services.Keys == old(services.Keys) && old(commands) <= commands
        invariant Effective(outcomes, old(commands), commands) ==>
          forall p | p in PROTOCOLS[..i] :: p in services && Checked(services, enabled, p)
      {
        ProtocolsAreAll();
        assert PROTOCOLS[..i + 1] == PROTOCOLS[..i] + [PROTOCOLS[i]] && PROTOCOLS[i] !in PROTOCOLS[..i];
        ok := ApplyService(PROTOCOLS[i], PROTOCOLS[i] in enabled);
        if !ok {
          return;
        }
      }
      ghost var started := commands;
      for i := 0 to |PROTOCOLS|
        invariant ok && services.Keys == old(services.Keys) && commands == started
        invariant Effective(outcomes, old(commands), commands) ==>
          forall p | p in PROTOCOLS :: p in services && Checked(services, enabled, p)
        invariant forall p | p in PROTOCOLS[..i] :: p in services && Checked(services, enabled, p)
      {
        assert PROTOCOLS[..i + 1] == PROTOCOLS[..i] + [PROTOCOLS[i]];
        ok := CheckService(PROTOCOLS[i], PROTOCOLS[i] in enabled);
        if !ok {
          return;
        }
      }
      ProtocolsAreAll();
    }

    /** Everything between the switch flag and the result mark. */
    method Switch(enabled: set<Proto>, staged: Files, some: set<File>) returns (ok: bool)
      requires services.Keys == {VLESS, HYSTERIA, AMNEZIA}
      requires forall f: File | ProtocolOfFile(f) in enabled :: f in staged
      modifies `commands, `live, `services, `result
      ensures old(commands) <= commands && (Effective(outcomes, old(commands), commands) ==> ok)
      ensures ok ==> Switched(enabled, staged, live) && Served(enabled, services) && result == APPLIED_RESULT
    {
      ok := SwitchFiles(enabled, staged, some);
      if ok {
        ok := SwitchServices(enabled);
      }
      if ok {
        var marked := Command();
        result := if marked.ok || marked.effect then APPLIED_RESULT else result;
        ok := marked.ok;
      }
    }

    /** The whole script. It passes the switch flag exactly when no command before it fails, and if all its commands
        succeed and take effect it succeeds. A failure before the flag leaves every live file untouched; after it, the
        rollback begins at the command number `from`, and the files that are not restored are exactly those with a
        failing command among their own restore commands. With no failure the files and services are the wanted ones.
        */
    method Apply(enabled: set<Proto>, staged: Files, validations: nat, some: set<File>)
      returns (ok: bool, unrestored: set<File>, from: nat)
      requires services.Keys == {VLESS, HYSTERIA, AMNEZIA} && !switchStarted
      requires forall f: File | ProtocolOfFile(f) in enabled :: f in staged
      modifies this
      ensures old(commands) <= from <= commands && (Effective(outcomes, old(commands), from) ==> ok)
      ensures ok || switchStarted
         <==> Fine(outcomes, old(commands), old(commands) + Preparation(validations, old(live)))
      ensures ok ==> && Switched(enabled, staged, live) && Served(enabled, services) && result == APPLIED_RESULT
                     && !switchStarted && unrestored == {}
      ensures !ok && !switchStarted ==> live == old(live) && unrestored == {} && commands == from
      ensures !ok && switchStarted ==>
                && commands == RestoreStart(old(live), from, |FILES|) + 1
                && (forall f | f !in unrestored :: SameFile(live, old(live), f))
                && forall i | 0 <= i < |FILES| :: FILES[i] in unrestored <==> RestoreFails(outcomes, old(live), from, i)
      ensures !ok && Fine(outcomes, from, commands) ==> live == old(live)
    {
      unrestored := {};
      ok := Perform(validations);
      if ok {
        ok := PrepareBackup();
      }
      if ok {
        switchStarted := true;
        ok := Switch(enabled, staged, some);
      }
      from := commands;
      if ok {
        switchStarted := false;
      } else {
        unrestored := OnError(old(live));
        RestoreStartGrows(old(live), from, 0);
        if Fine(outcomes, from, commands) && switchStarted {
          NothingUnrestored(outcomes, old(live), from, unrestored);
          SameFiles(live, old(live));
        }
      }
    }
  }

  lemma {:induction false} BackupStartGrows(live: Files, i: nat)
    requires i <= |FILES|
    ensures BackupStart(live, i) <= BackupStart(live, |FILES|)
    ensures Preparation(0, live) == BackupStart(live, |FILES|) + MANIFEST
    decreases |FILES| - i
  {
    if i < |FILES| {
      BackupStartGrows(live, i + 1);
    }
  }

  lemma {:induction false} RestoreStartGrows(before: Files, from: nat, i: nat)
    requires i <= |FILES|
    ensures from <= RestoreStart(before, from, i) <= RestoreStart(before, from, |FILES|)
    decreases |FILES| - i
  {
    if i < |FILES| {
      RestoreStartGrows(before, from, i + 1);
    }
    RestoreStartAtLeast(before, from, i);
  }

  lemma {:induction false} RestoreStartAtLeast(before: Files, from: nat, i: nat)
    requires i <= |FILES|
    ensures from <= RestoreStart(before, from, i)
  {
    if i > 0 {
      RestoreStartAtLeast(before, from, i - 1);
    }
  }

  /** A rollback without a failing command restores every file. */
  lemma NothingUnrestored(outcomes: nat -> Outcome, before: Files, from: nat, unrestored: set<File>)
    requires Fine(outcomes, from, RestoreStart(before, from, |FILES|))
    requires forall i | 0 <= i < |FILES| :: FILES[i] in unrestored <==> RestoreFails(outcomes, before, from, i)
    ensures unrestored == {}
  {
    forall f ensures f !in unrestored {
      FilesAreAll(f);
      var i :| 0 <= i < |FILES| && FILES[i] == f;
      RestoreStartGrows(before, from, i);
      RestoreStartGrows(before, from, i + 1);
    }
  }

  const PROTOCOLS := [VLESS, HYSTERIA, AMNEZIA]

  lemma ProtocolsAreAll()
    ensures forall p: Proto :: p in PROTOCOLS
    ensures PROTOCOLS[..|PROTOCOLS|] == PROTOCOLS
  {
    forall p: Proto ensures p in PROTOCOLS {
      assert PROTOCOLS[if p.VLESS? then 0 else if p.HYSTERIA? then 1 else 2] == p;
    }
  }

  lemma SameFiles(a: Files, b: Files)
    requires forall f :: SameFile(a, b, f)
    ensures a == b
  {
    assert forall f :: SameFile(a, b, f) ==> (f in a <==> f in b);
  }

  lemma FilesOfProtocol(p: Proto)
    ensures forall f: File :: f in FilesOf(p) <==> ProtocolOfFile(f) == p
  {
    forall f: File ensures f in FilesOf(p) <==> ProtocolOfFile(f) == p {
      assert FilesOf(HYSTERIA)[0] == HYSTERIA_YAML && FilesOf(HYSTERIA)[1] == HYSTERIA_CRT
             && FilesOf(HYSTERIA)[2] == HYSTERIA_KEY;
      assert FilesOf(VLESS)[0] == XRAY_JSON && FilesOf(AMNEZIA)[0] == AWG_CONF;
    }
  }

  lemma FilesAreDistinct(i: nat)
    requires i < |FILES|
    ensures FILES[i] !in FILES[..i]
  {
  }
}
