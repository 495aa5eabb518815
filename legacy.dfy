/**
 * getlino.py: the older, standalone copy of the installer.
 *
 * It differs from getlino/utils.py in four places: `yes_or_no` answers True
 * in batch mode whatever the caller wants, `check_overwrite` raises
 * click.Abort on a refusal instead of returning False, `runcmd` ignores the
 * exit status of the command, and `finish` has no root check and gates each
 * restart on its own. `check_usergroup` is a module-level predicate, and
 * `startsite` derives the application package and the repository nickname
 * from the `KNOWN_APPS` table.
 */
module Legacy {
  import opened Wrappers
  import opened Text
  import opened Stat
  import opened Host
  import opened Commands
  import Utils

  // ---------------------------------------------------------------------
  // Specification of the installer's steps

  /** How `check_overwrite` ended, the filesystem it left and the keys left unread. */
  datatype Clearing = Clearing(outcome: Outcome<Error>, fs: map<string, Node>, keys: seq<char>)

  /** `check_overwrite(p)`: nothing for an absent path; an existing one is removed on a yes, and a no aborts. */
  function ClearOrAbort(batch: bool, fs: map<string, Node>, keys: seq<char>, p: string): Clearing {
    if p !in fs then Clearing(Pass, fs, keys)
    else
      var left := Utils.KeysLeft(batch, keys, "yY", "nN");
      match Utils.Reply(batch, keys, "yY", "nN", true)
        case Failure(e) => Clearing(Fail(e), fs, left)
        case Success(yes) => if yes then Clearing(Pass, Removed(fs, p), left) else Clearing(Fail(Aborted), fs, left)
  }

  /**
   * A completed call always leaves the path absent, removing nothing that is
   * not the path or below it; an aborted call changes nothing. Compared with
   * the newer `check_overwrite`, it passes exactly where that one returns True,
   * leaves the same filesystem and keys, and aborts where that one returns
   * False or aborts.
   */
  lemma ClearOrAbortEffect(batch: bool, fs: map<string, Node>, keys: seq<char>, p: string)
    ensures var c := ClearOrAbort(batch, fs, keys, p);
      var o := Utils.OverwriteStep(batch, fs, keys, p);
      && (c.outcome.Pass? ==> p !in c.fs && (forall q :: q in fs && !Under(q, p) ==> q in c.fs && c.fs[q] == fs[q]))
      && (c.outcome.Fail? ==> c.fs == fs)
      && (c.outcome.Pass? <==> o.result == Success(true))
      && (c.outcome == Fail(Aborted) <==> o.result == Success(false) || o.result == Failure(Aborted))
      && c.fs == o.fs && c.keys == o.keys
  {
    if p in fs {
      Utils.ReplyRule(batch, keys, "yY", "nN", true);
      if Utils.Reply(batch, keys, "yY", "nN", true).Failure? {
        assert Utils.Reply(batch, keys, "yY", "nN", true) == Failure(Aborted) by {
          if !batch { KeyReplyDecided(keys, "yY", "nN"); }
        }
      }
    }
  }

  /** In batch mode every existing path is removed without a question, so the call never aborts. */
  lemma ClearOrAbortInBatch(fs: map<string, Node>, keys: seq<char>, p: string)
    ensures ClearOrAbort(true, fs, keys, p) == Clearing(Pass, if p in fs then Removed(fs, p) else fs, keys)
  {
  }

  /** The unchecked `runcmd` never raises CommandFailed: a run ends normally or because the replies ran out. */
  lemma {:induction false} UncheckedRunNeverFails(batch: bool, answers: seq<bool>, exitCode: map<string, int>, cmds: seq<string>)
    ensures RunAll(false, batch, answers, exitCode, cmds).outcome in {Pass, Fail(Aborted)}
    decreases |cmds|
  {
    if cmds != [] && Gate(batch, answers).Success? {
      UncheckedRunNeverFails(batch, AfterGate(batch, answers), exitCode, cmds[1..]);
    }
  }

  /** One `runcmd`: the command runs exactly when batch mode is on or the reply is yes, whatever its exit status. */
  lemma RunCmdRunsIffConfirmed(batch: bool, answers: seq<bool>, exitCode: map<string, int>, cmd: string)
    ensures RunAll(false, batch, answers, exitCode, [cmd]).logged == if batch || (answers != [] && answers[0]) then [cmd] else []
    ensures RunAll(false, batch, answers, exitCode, [cmd]).outcome == if !batch && answers == [] then Fail(Aborted) else Pass
  {
  }

  /** The unchecked sequence of statements never raises CommandFailed. */
  lemma {:induction false} UncheckedStatementsNeverFail(postgres: bool, batch: bool, answers: seq<bool>, exitCode: map<string, int>, stmts: seq<string>)
    ensures var o := Utils.StatementsRun(false, postgres, batch, answers, exitCode, stmts).outcome;
      o == Pass || o == Fail(Aborted) || (postgres && exists i :: 0 <= i < |stmts| && o == Fail(QuoteInStatement(stmts[i])))
    decreases |stmts|
  {
    if stmts != [] && !(postgres && '"' in stmts[0]) {
      var c := Utils.StatementCommand(postgres, stmts[0]);
      UncheckedRunNeverFails(batch, answers, exitCode, [c]);
      var first := RunAll(false, batch, answers, exitCode, [c]);
      if first.outcome.Pass? {
        UncheckedStatementsNeverFail(postgres, batch, first.answers, exitCode, stmts[1..]);
        var o := Utils.StatementsRun(false, postgres, batch, first.answers, exitCode, stmts[1..]).outcome;
        if o != Pass && o != Fail(Aborted) {
          var i :| 0 <= i < |stmts[1..]| && o == Fail(QuoteInStatement(stmts[1..][i]));
          assert stmts[1..][i] == stmts[i + 1];
        }
      }
    }
  }

  /** `setup_database`: three statements for MySQL, three quote-checked ones for 'pgsql', nothing otherwise. */
  function SetupRun(batch: bool, answers: seq<bool>, exitCode: map<string, int>, database: string, user: string, pwd: string, dbEngine: string): Run {
    if dbEngine == "mysql" then Utils.StatementsRun(false, false, batch, answers, exitCode, MysqlStatements(database, user, pwd))
    else if dbEngine == "pgsql" then Utils.StatementsRun(false, true, batch, answers, exitCode, PostgresStatements(database, user, pwd))
    else Run([], answers, Pass)
  }

  /** In batch mode the MySQL setup runs its three commands in order, whatever their exit status. */
  lemma MysqlSetupInBatch(answers: seq<bool>, exitCode: map<string, int>, database: string, user: string, pwd: string)
    ensures SetupRun(true, answers, exitCode, database, user, pwd, "mysql")
         == Run(MysqlCommands(MysqlStatements(database, user, pwd)), answers, Pass)
  {
    var my := MysqlStatements(database, user, pwd);
    Utils.StatementsRunUpToQuote(false, false, true, answers, exitCode, my);
    assert my[..|my|] == my;
    RunAllInBatch(false, answers, exitCode, MysqlCommands(my));
  }

  /**
   * `finish`: the apt command, then, if services are queued, one question and
   * one `runcmd` per service, each asking again unless in batch mode. There is
   * no root check.
   */
  function FinishRun(batch: bool, answers: seq<bool>, exitCode: map<string, int>, aptCmds: seq<string>, restartCmds: seq<string>): Run {
    var apt := RunAll(false, batch, answers, exitCode, aptCmds);
    if apt.outcome.Fail? then apt
    else
      var rest := RestartsRun(batch, apt.answers, exitCode, restartCmds);
      Run(apt.logged + rest.logged, rest.answers, rest.outcome)
  }

  /** The restart part of `finish`: nothing when no service is queued, else one question, then each restart through `runcmd`. */
  function RestartsRun(batch: bool, answers: seq<bool>, exitCode: map<string, int>, restartCmds: seq<string>): Run {
    if restartCmds == [] then Run([], answers, Pass)
    else match Gate(batch, answers)
      case Failure(e) => Run([], answers, Fail(e))
      case Success(go) =>
        if go then RunAll(false, batch, AfterGate(batch, answers), exitCode, restartCmds)
        else Run([], AfterGate(batch, answers), Pass)
  }

  /** In batch mode `finish` runs the apt commands and every restart, asking nothing, whatever the exit statuses and the privilege. */
  lemma FinishInBatch(answers: seq<bool>, exitCode: map<string, int>, aptCmds: seq<string>, restartCmds: seq<string>)
    ensures FinishRun(true, answers, exitCode, aptCmds, restartCmds) == Run(aptCmds + restartCmds, answers, Pass)
  {
    RunAllInBatch(false, answers, exitCode, aptCmds);
    RunAllInBatch(false, answers, exitCode, restartCmds);
    if restartCmds == [] {
      assert aptCmds + restartCmds == aptCmds + [];
    }
  }

  /**
   * Interactively, a restart runs only after a yes to the common question and
   * a yes to its own: the restarts that run are a subsequence of the queued ones.
   */
  lemma FinishRestartsAreSubsequence(batch: bool, answers: seq<bool>, exitCode: map<string, int>, aptCmds: seq<string>, restartCmds: seq<string>)
    ensures var run := FinishRun(batch, answers, exitCode, aptCmds, restartCmds);
      exists a, b :: Subsequence(a, aptCmds) && Subsequence(b, restartCmds) && run.logged == a + b
  {
    var apt := RunAll(false, batch, answers, exitCode, aptCmds);
    RunAllLogsSubsequence(false, batch, answers, exitCode, aptCmds);
    var run := FinishRun(batch, answers, exitCode, aptCmds, restartCmds);
    if !apt.outcome.Fail? && restartCmds != [] && Gate(batch, apt.answers) == Success(true) {
      var left := AfterGate(batch, apt.answers);
      RunAllLogsSubsequence(false, batch, left, exitCode, restartCmds);
    } else {
      assert run.logged == apt.logged + [];
    }
  }

  // ---------------------------------------------------------------------
  // `check_usergroup` and the `startsite` derivations

  /**
   * `check_usergroup(usergroup)`: True when one of the process's groups has
   * that name, False when none has; a group id the group database does not
   * know raises KeyError before a later match is seen.
   */
  method CheckUsergroup(host: Host, usergroup: string) returns (r: Result<bool, Error>)
    ensures r == Success(true) ==> exists i :: 0 <= i < |host.gids| && host.gids[i] in host.groupNames && host.groupNames[host.gids[i]] == usergroup
    ensures r == Success(false) <==> forall i :: 0 <= i < |host.gids| ==> host.gids[i] in host.groupNames && host.groupNames[host.gids[i]] != usergroup
    ensures r.Failure? ==> exists i :: 0 <= i < |host.gids| && host.gids[i] !in host.groupNames && r.error == UnknownGid(host.gids[i])
    ensures r == match Utils.GroupCheck(host.gids, host.groupNames, usergroup)
      case Pass => Success(true)
      case Fail(e) => if e == NotInGroup(usergroup) then Success(false) else Failure(e)
  {
    var i := 0;
    while i < |host.gids|
      invariant 0 <= i <= |host.gids|
      invariant forall j :: 0 <= j < i ==> host.gids[j] in host.groupNames && host.groupNames[host.gids[j]] != usergroup
      invariant Utils.GroupCheck(host.gids, host.groupNames, usergroup) == Utils.GroupCheck(host.gids[i..], host.groupNames, usergroup)
    {
      var gid := host.gids[i];
      if gid !in host.groupNames {
        return Failure(UnknownGid(gid));
      }
      if host.groupNames[gid] == usergroup {
        return Success(true);
      }
      assert host.gids[i..][1..] == host.gids[i + 1..];
      i := i + 1;
    }
    return Success(false);
  }

  /** An entry of `KNOWN_APPS`. */
  datatype KnownApp = KnownApp(name: string, settingsModule: string, gitRepo: string)

  /** `app.settings_module.split('.')[0]`: the top-level package of the settings module. */
  function AppPackage(app: KnownApp): string {
    BeforeFirst(app.settingsModule, '.')
  }

  /** `app.git_repo.split('/')[-1]`: the last segment of the repository URL. */
  function RepoNickname(app: KnownApp): string {
    AfterLast(app.gitRepo, '/')
  }

  /** A settings module `pkg.rest` with a dot-free `pkg` gives `pkg` as the application package. */
  lemma AppPackageOf(name: string, pkg: string, rest: string, gitRepo: string)
    requires '.' !in pkg
    ensures AppPackage(KnownApp(name, pkg + "." + rest, gitRepo)) == pkg
  {
    var s := pkg + "." + rest;
    var r := BeforeFirst(s, '.');
    assert s[|pkg|] == '.';
    assert r == s[..|r|] && pkg == s[..|pkg|];
  }

  /** A URL `base/name` with a slash-free `name` gives `name` as the repository nickname. */
  lemma RepoNicknameOf(name: string, settingsModule: string, base: string, repo: string)
    requires '/' !in repo
    ensures RepoNickname(KnownApp(name, settingsModule, base + "/" + repo)) == repo
  {
    var s := base + "/" + repo;
    var r := AfterLast(s, '/');
    assert s[|s| - |repo| - 1] == '/';
    assert r == s[|s| - |r|..] && repo == s[|s| - |repo|..];
  }

  // ---------------------------------------------------------------------
  // The installer

  /** The session object of getlino.py. */
  class Installer {
    const host: Host
    var batch: bool
    var services: set<string>
    var systemPackages: set<string>

    /** Every pending package is a single whitespace-free name. */
    ghost predicate Valid()
      reads this
    {
      forall p | p in systemPackages :: IsWord(p)
    }

    constructor (host: Host, batch: bool := false)
      ensures this.host == host && this.batch == batch
      ensures services == {} && systemPackages == {} && Valid()
    {
      this.host := host;
      this.batch := batch;
      services := {};
      systemPackages := {};
    }

    /** `check_overwrite`: an existing path is removed after a yes; a no raises click.Abort. */
    method CheckOverwrite(pth: string) returns (r: Outcome<Error>)
      modifies host`fs, host`keys
      ensures var c := ClearOrAbort(batch, old(host.fs), old(host.keys), pth);
        r == c.outcome && host.fs == c.fs && host.keys == c.keys
    {
      if pth in host.fs {
        var ok := YesOrNo();
        if ok.Failure? {
          return Fail(ok.error);
        }
        if !ok.value {
          return Fail(Aborted);
        }
        host.Remove(pth);
      }
      return Pass;
    }

    /** `yes_or_no`: True in batch mode, otherwise read keys until one is in `yes` or `no`. */
    method YesOrNo(yes: string := "yY", no: string := "nN") returns (r: Result<bool, Error>)
      modifies host`keys
      ensures r == Utils.Reply(batch, old(host.keys), yes, no, true)
      ensures host.keys == Utils.KeysLeft(batch, old(host.keys), yes, no)
    {
      if batch {
        return Success(true);
      }
      ghost var keys0 := host.keys;
      while true
        invariant |host.keys| <= |keys0| && host.keys == keys0[|keys0| - |host.keys|..]
        invariant FirstDecisive(keys0, yes, no) >= |keys0| - |host.keys|
        decreases |host.keys|
      {
        ghost var read := |keys0| - |host.keys|;
        var c := host.GetChar();
        if c.None? {
          return Failure(Aborted);
        }
        assert c.value == keys0[read];
        if c.value in yes {
          return Success(true);
        } else if c.value in no {
          return Success(false);
        }
        assert keys0[read + 1..] == host.keys;
      }
    }

    /** `self.batch or click.confirm(...)`. */
    method Confirm() returns (r: Result<bool, Error>)
      modifies host`answers
      ensures r == Gate(batch, old(host.answers)) && host.answers == AfterGate(batch, old(host.answers))
    {
      if batch {
        return Success(true);
      }
      r := host.Confirm();
    }

    /** `must_restart`: queue a service. */
    method MustRestart(service: string)
      modifies this`services
      ensures services == old(services) + {service}
    {
      services := services + {service};
    }

    /** `runcmd`: ask, then run the command; its exit status is not looked at. */
    method RunCmd(cmd: string) returns (r: Outcome<Error>)
      modifies host`answers, host`log
      ensures Did(host, RunAll(false, batch, old(host.answers), host.exitCode, [cmd]), r)
    {
      var go := Confirm();
      if go.Failure? {
        return Fail(go.error);
      }
      if go.value {
        var _ := host.Shell(cmd);
      }
      return Pass;
    }

    /** `for cmd in cmds: self.runcmd(cmd)`: each command asked for on its own. */
    method RunCmds(cmds: seq<string>) returns (r: Outcome<Error>)
      modifies host`answers, host`log
      ensures Did(host, RunAll(false, batch, old(host.answers), host.exitCode, cmds), r)
    {
      r := Pass;
      ghost var done: seq<string> := [];
      ghost var start := Run([], old(host.answers), Pass);
      assert RunAll(false, batch, old(host.answers), host.exitCode, cmds) == Then(false, batch, start, host.exitCode, cmds) by {
        assert start.logged + RunAll(false, batch, old(host.answers), host.exitCode, cmds).logged
            == RunAll(false, batch, old(host.answers), host.exitCode, cmds).logged;
      }
      for i := 0 to |cmds|
        invariant r == Pass && host.log == old(host.log) + done
        invariant Then(false, batch, Run(done, host.answers, Pass), host.exitCode, cmds[i..])
               == RunAll(false, batch, old(host.answers), host.exitCode, cmds)
      {
        ghost var now := Run(done, host.answers, Pass);
        assert cmds[i..] == [cmds[i]] + cmds[i + 1..];
        ThenAppend(false, batch, now, host.exitCode, [cmds[i]], cmds[i + 1..]);
        r := RunCmd(cmds[i]);
        ghost var step := RunAll(false, batch, now.answers, host.exitCode, [cmds[i]]);
        assert Then(false, batch, now, host.exitCode, [cmds[i]]) == Run(done + step.logged, step.answers, step.outcome);
        done := done + step.logged;
        if r.Fail? {
          return;
        }
      }
      assert cmds[|cmds|..] == [];
      assert RunAll(false, batch, host.answers, host.exitCode, []) == Run([], host.answers, Pass);
      assert done + [] == done;
    }

    /** `apt_install`: queue each whitespace-separated package name. */
    method AptInstall(packages: string)
      requires Valid()
      modifies this`systemPackages
      ensures Valid()
      ensures systemPackages == old(systemPackages) + WordSet(packages)
    {
      var names := Words(packages);
      for i := 0 to |names|
        invariant Valid()
        invariant systemPackages == old(systemPackages) + set j | 0 <= j < i :: names[j]
      {
        systemPackages := systemPackages + {names[i]};
      }
    }

    /** `run_in_env`: run a command with the virtualenv `env` activated. */
    method RunInEnv(env: string, cmd: string) returns (r: Outcome<Error>)
      modifies host`answers, host`log
      ensures Did(host, RunAll(false, batch, old(host.answers), host.exitCode, [Activate(env, cmd)]), r)
    {
      r := RunCmd(Activate(env, cmd));
    }

    /** `check_permissions`: the same two corrective questions as in getlino/utils.py. */
    method CheckPermissions(pth: string, usergroup: string, executable: bool := false) returns (r: Outcome<Error>)
      modifies host`fs, host`answers
      ensures pth !in old(host.fs) ==> r == Fail(NoSuchPath(pth)) && host.fs == old(host.fs) && host.answers == old(host.answers)
      ensures pth in old(host.fs) ==>
        var s := Utils.PermissionStep(old(host.fs)[pth], usergroup, executable, batch, old(host.answers));
        host.fs == old(host.fs)[pth := s.node] && host.answers == s.answers && r == s.outcome
    {
      if pth !in host.fs {
        return Fail(NoSuchPath(pth));
      }
      var si := host.fs[pth];
      r := ChangeGroup(pth, usergroup);
      if r.Fail? {
        return;
      }
      ghost var fs1 := host.fs;
      r := ChangeMode(pth, TargetMode(IsDir(si.mode), executable));
      assert fs1[pth := host.fs[pth]] == old(host.fs)[pth := host.fs[pth]];
    }

    /** The group half of `check_permissions`. */
    method ChangeGroup(pth: string, usergroup: string) returns (r: Outcome<Error>)
      requires pth in host.fs
      modifies host`fs, host`answers
      ensures var s := Utils.GroupStep(old(host.fs)[pth], usergroup, batch, old(host.answers));
        host.fs == old(host.fs)[pth := s.node] && host.answers == s.answers && r == s.outcome
    {
      if host.fs[pth].group != usergroup {
        var go := Confirm();
        if go.Failure? {
          return Fail(go.error);
        }
        if go.value {
          host.Chown(pth, usergroup);
          return Pass;
        }
      }
      assert host.fs == old(host.fs)[pth := old(host.fs)[pth]];
      return Pass;
    }

    /** The mode half of `check_permissions`. */
    method ChangeMode(pth: string, mode: Mode) returns (r: Outcome<Error>)
      requires pth in host.fs
      modifies host`fs, host`answers
      ensures var s := Utils.ModeStep(old(host.fs)[pth], mode, batch, old(host.answers));
        host.fs == old(host.fs)[pth := s.node] && host.answers == s.answers && r == s.outcome
    {
      var imode := IMode(host.fs[pth].mode);
      XorNonZeroIffDiffer(imode, mode);
      if imode ^ mode != 0 {
        var go := Confirm();
        if go.Failure? {
          return Fail(go.error);
        }
        if go.value {
          host.Chmod(pth, mode);
          return Pass;
        }
      }
      assert host.fs == old(host.fs)[pth := old(host.fs)[pth]];
      return Pass;
    }

    /**
     * `write_supervisor_conf`: clear the path (a refusal aborts), write the
     * file and queue a supervisor restart. The new file keeps the group and
     * mode it is created with: no permission check follows.
     */
    method WriteSupervisorConf(filename: string, content: string, supervisorDir: string) returns (r: Outcome<Error>)
      modifies this`services, host`fs, host`keys
      ensures var pth := PathJoin(supervisorDir, filename);
        var c := ClearOrAbort(batch, old(host.fs), old(host.keys), pth);
        && r == c.outcome && host.keys == c.keys
        && host.fs == (if r.Pass? then c.fs[pth := host.NewFile(content)] else c.fs)
        && services == (if r.Pass? then old(services) + {"supervisor"} else old(services))
    {
      var pth := PathJoin(supervisorDir, filename);
      r := CheckOverwrite(pth);
      if r.Fail? {
        return;
      }
      host.CreateFile(pth, content);
      MustRestart("supervisor");
    }

    /** `setup_database`: create the user and the database and grant the rights; 'sqlite' and unknown engines need nothing. */
    method SetupDatabase(database: string, user: string, pwd: string, dbEngine: string) returns (r: Outcome<Error>)
      modifies host`answers, host`log
      ensures Did(host, SetupRun(batch, old(host.answers), host.exitCode, database, user, pwd, dbEngine), r)
    {
      if dbEngine == "mysql" {
        r := RunStatements(false, MysqlStatements(database, user, pwd));
      } else if dbEngine == "pgsql" {
        r := RunStatements(true, PostgresStatements(database, user, pwd));
      } else {
        r := Pass;
      }
    }

    /** The local `run` of `setup_database`: one statement through the engine's client; for PostgreSQL, only without double quotes. */
    method RunStatement(postgres: bool, sql: string) returns (r: Outcome<Error>)
      modifies host`answers, host`log
      ensures Did(host, Utils.StatementsRun(false, postgres, batch, old(host.answers), host.exitCode, [sql]), r)
    {
      if postgres && '"' in sql {
        return Fail(QuoteInStatement(sql));
      }
      r := RunCmd(Utils.StatementCommand(postgres, sql));
      assert host.log == old(host.log) + host.log[|old(host.log)|..];
    }

    /** The successive `run(...)` calls of `setup_database`, stopping at the first that raises. */
    method RunStatements(postgres: bool, stmts: seq<string>) returns (r: Outcome<Error>)
      modifies host`answers, host`log
      ensures Did(host, Utils.StatementsRun(false, postgres, batch, old(host.answers), host.exitCode, stmts), r)
      decreases |stmts|
    {
      if stmts == [] {
        return Pass;
      }
      Utils.StatementsRunCons(false, postgres, batch, host.answers, host.exitCode, stmts);
      ghost var first := Utils.StatementsRun(false, postgres, batch, host.answers, host.exitCode, [stmts[0]]);
      r := RunStatement(postgres, stmts[0]);
      if r.Fail? {
        return;
      }
      ghost var rest := Utils.StatementsRun(false, postgres, batch, first.answers, host.exitCode, stmts[1..]);
      r := RunStatements(postgres, stmts[1..]);
      assert host.log == old(host.log) + (first.logged + rest.logged);
    }

    /** `run_apt_install`: nothing when no package is pending, else one apt command naming them all. */
    method RunAptInstall() returns (r: Outcome<Error>, ghost order: seq<string>)
      modifies host`answers, host`log
      ensures multiset(order) == multiset(systemPackages)
      ensures Did(host, RunAll(false, batch, old(host.answers), host.exitCode, Utils.AptCommands(batch, order)), r)
    {
      if |systemPackages| == 0 {
        return Pass, [];
      }
      var names := Enumerate(systemPackages);
      order := names;
      r := RunCmd(AptCommand(batch, names));
    }

    /** `finish`: install the pending packages, then ask once and restart each queued service through `runcmd`. */
    method Finish() returns (r: Outcome<Error>, ghost order: seq<string>, ghost restarts: seq<string>)
      modifies host`answers, host`log
      ensures multiset(order) == multiset(systemPackages) && multiset(restarts) == multiset(services)
      ensures Did(host, FinishRun(batch, old(host.answers), host.exitCode, Utils.AptCommands(batch, order), RestartCommands(restarts)), r)
    {
      r, order := RunAptInstall();
      ghost var apt := RunAll(false, batch, old(host.answers), host.exitCode, Utils.AptCommands(batch, order));
      if r.Fail? {
        restarts := Enumerate(services);
        return;
      }
      ghost var log1 := host.log;
      assert log1 == old(host.log) + apt.logged;
      r, restarts := RestartServices();
      ghost var rest := RestartsRun(batch, apt.answers, host.exitCode, RestartCommands(restarts));
      assert host.log == log1 + rest.logged;
      assert host.log == old(host.log) + (apt.logged + rest.logged);
    }

    /** The restart part of `finish`, in some enumeration order of the queued services. */
    method RestartServices() returns (r: Outcome<Error>, ghost restarts: seq<string>)
      modifies host`answers, host`log
      ensures multiset(restarts) == multiset(services)
      ensures Did(host, RestartsRun(batch, old(host.answers), host.exitCode, RestartCommands(restarts)), r)
    {
      var names := Enumerate(services);
      restarts := names;
      if |services| == 0 {
        assert names == [] by {
          assert |multiset(names)| == 0;
        }
        return Pass, restarts;
      }
      assert RestartCommands(names) != [] by {
        assert |multiset(names)| == |multiset(services)|;
      }
      var go := Confirm();
      if go.Failure? {
        return Fail(go.error), restarts;
      }
      r := Pass;
      if go.value {
        r := RunCmds(RestartCommands(names));
      }
    }
  }
}
