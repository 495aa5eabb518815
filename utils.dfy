/**
 * getlino/utils.py: the `Installer` session object, the database engine table,
 * the repository registry and `ifroot`.
 *
 * Every question the installer asks goes through one rule: in batch mode it
 * proceeds (or, for `yes_or_no`, takes the default), otherwise the next
 * scripted reply or key decides, and an exhausted input is click.Abort.
 * Changes to the system are either immediate (files, modes, groups) or
 * collected in two sets and flushed by `finish`.
 */
module Utils {
  import opened Wrappers
  import opened Text
  import opened Stat
  import opened Host
  import opened Commands

  /** `ifroot(true, false)`: the first value as root, the second otherwise. */
  function IfRoot<T>(root: bool, t: T, f: T): T {
    if root then t else f
  }

  /** An entry of the database engine table: a Django engine name and the packages it needs. */
  datatype DbEngine = DbEngine(name: string, aptPackages: string, pythonPackages: string)

  const DbEngines: seq<DbEngine> := [
    DbEngine("postgresql", Join(["postgresql", "postgresql-contrib", "libpq-dev"]), "psycopg2"),
    DbEngine("mysql", Join(["mysql-server", "libmysqlclient-dev", "python-dev", "libffi-dev", "libssl-dev", "python-mysqldb"]), "mysqlclient"),
    DbEngine("sqlite3", "sqlite3", "")
  ]

  // ---------------------------------------------------------------------
  // The repository registry

  datatype Repo = Repo(nickname: string, packageName: string, gitRepo: string, settingsModule: string, frontEnd: string)

  /** `KNOWN_REPOS` and `REPOS_DICT`, filled by `add`. */
  class Registry {
    var knownRepos: seq<Repo>
    var reposDict: map<string, Repo>

    /** Every entry of the dictionary is a registered repository, keyed by its nickname or by its front end. */
    ghost predicate Valid()
      reads this
    {
      forall k | k in reposDict :: reposDict[k] in knownRepos && (k == reposDict[k].nickname || k == reposDict[k].frontEnd)
    }

    constructor ()
      ensures knownRepos == [] && reposDict == map[] && Valid()
    {
      knownRepos := [];
      reposDict := map[];
    }

    /** `add(...)`: append the repository and key it by nickname, and also by front end when it has one. */
    method Add(nickname: string, packageName: string, gitRepo: string := "", settingsModule: string := "", frontEnd: string := "")
      requires Valid()
      modifies this
      ensures Valid()
      ensures var t := Repo(nickname, packageName, gitRepo, settingsModule, frontEnd);
        && knownRepos == old(knownRepos) + [t]
        && reposDict == if frontEnd != "" then old(reposDict)[nickname := t][frontEnd := t] else old(reposDict)[nickname := t]
    {
      var t := Repo(nickname, packageName, gitRepo, settingsModule, frontEnd);
      knownRepos := knownRepos + [t];
      reposDict := reposDict[t.nickname := t];
      if t.frontEnd != "" {
        reposDict := reposDict[t.frontEnd := t];
      }
    }
  }

  /** `APPNAMES`: the nicknames of the repositories that have a settings module, in registration order. */
  function AppNames(repos: seq<Repo>): (names: seq<string>)
    ensures |names| <= |repos|
    ensures forall n :: n in names <==> exists a :: a in repos && a.settingsModule != "" && a.nickname == n
  {
    if repos == [] then []
    else (if repos[0].settingsModule != "" then [repos[0].nickname] else []) + AppNames(repos[1..])
  }

  /** `FRONT_ENDS`: the repositories that have a front end, in registration order. */
  function FrontEnds(repos: seq<Repo>): (fes: seq<Repo>)
    ensures Subsequence(fes, repos)
    ensures forall a :: a in fes <==> a in repos && a.frontEnd != ""
  {
    if repos == [] then []
    else if repos[0].frontEnd != "" then
      assert ([repos[0]] + FrontEnds(repos[1..]))[1..] == FrontEnds(repos[1..]);
      [repos[0]] + FrontEnds(repos[1..])
    else
      SubsequenceSkip(FrontEnds(repos[1..]), repos[1..], repos[0]);
      assert [repos[0]] + repos[1..] == repos;
      FrontEnds(repos[1..])
  }

  // ---------------------------------------------------------------------
  // Specification of `yes_or_no`

  /** What `yes_or_no` answers: the default in batch mode, otherwise the first key in `yes` or `no`. */
  function Reply(batch: bool, keys: seq<char>, yes: string, no: string, default: bool): Result<bool, Error> {
    if batch then Success(default) else KeyReply(keys, yes, no)
  }

  /** The keys `yes_or_no` leaves unread. */
  function KeysLeft(batch: bool, keys: seq<char>, yes: string, no: string): seq<char> {
    if batch then keys else KeysAfterReply(keys, yes, no)
  }

  /**
   * In batch mode the reply is the default and no key is read; otherwise the
   * reply is True only after a key in `yes` and False only after a key in `no`,
   * every other key is skipped, and only the keys up to the deciding one are read.
   */
  lemma ReplyRule(batch: bool, keys: seq<char>, yes: string, no: string, default: bool)
    ensures batch ==> Reply(batch, keys, yes, no, default) == Success(default) && KeysLeft(batch, keys, yes, no) == keys
    ensures !batch && Reply(batch, keys, yes, no, default) == Success(true) ==>
      exists k :: 0 <= k < |keys| && keys[k] in yes && KeysLeft(batch, keys, yes, no) == keys[k + 1..]
        && forall i :: 0 <= i < k ==> keys[i] !in yes && keys[i] !in no
    ensures !batch && Reply(batch, keys, yes, no, default) == Success(false) ==>
      exists k :: 0 <= k < |keys| && keys[k] in no && keys[k] !in yes && KeysLeft(batch, keys, yes, no) == keys[k + 1..]
        && forall i :: 0 <= i < k ==> keys[i] !in yes && keys[i] !in no
    ensures !batch && Reply(batch, keys, yes, no, default).Failure? ==>
      KeysLeft(batch, keys, yes, no) == [] && forall i :: 0 <= i < |keys| ==> keys[i] !in yes && keys[i] !in no
  {
    if !batch {
      KeyReplyDecided(keys, yes, no);
      var k := FirstDecisive(keys, yes, no);
      if k < |keys| {
        assert KeysLeft(batch, keys, yes, no) == keys[k + 1..];
      }
    }
  }

  // ---------------------------------------------------------------------
  // Specification of `check_permissions`

  /** A node has the wanted group owner and exactly the wanted permission bits. */
  predicate Normalized(n: Node, usergroup: string, executable: bool) {
    n.group == usergroup && IMode(n.mode) == TargetMode(IsDir(n.mode), executable)
  }

  /** The node with the wanted group owner and permission bits and everything else kept. */
  function Normalize(n: Node, usergroup: string, executable: bool): (m: Node)
    ensures Normalized(m, usergroup, executable)
    ensures m.content == n.content && IsDir(m.mode) == IsDir(n.mode)
  {
    n.(group := usergroup, mode := Stat.Chmod(n.mode, TargetMode(IsDir(n.mode), executable)))
  }

  /** The node, the replies left and how `check_permissions` ended. */
  datatype Step = Step(node: Node, answers: seq<bool>, outcome: Outcome<Error>)

  /**
   * `check_permissions` on an existing node: if the group differs, ask and
   * maybe change it; then if the permission bits differ from the target, ask
   * and maybe change them. An abort at the second question keeps the first change.
   */
  function PermissionStep(n: Node, usergroup: string, executable: bool, batch: bool, answers: seq<bool>): Step {
    StepToward(n, usergroup, TargetMode(IsDir(n.mode), executable), batch, answers)
  }

  /** The two halves of `check_permissions`, towards the permission bits `target`. */
  function StepToward(n: Node, usergroup: string, target: Mode, batch: bool, answers: seq<bool>): Step {
    var first := GroupStep(n, usergroup, batch, answers);
    if first.outcome.Fail? then first
    else ModeStep(first.node, target, batch, first.answers)
  }

  /** The group half of `check_permissions`. */
  function GroupStep(n: Node, usergroup: string, batch: bool, answers: seq<bool>): Step {
    if n.group == usergroup then Step(n, answers, Pass)
    else match Gate(batch, answers)
      case Failure(e) => Step(n, answers, Fail(e))
      case Success(go) => Step(if go then n.(group := usergroup) else n, AfterGate(batch, answers), Pass)
  }

  /** The mode half of `check_permissions`, towards the permission bits `target`. */
  function ModeStep(n: Node, target: Mode, batch: bool, answers: seq<bool>): Step {
    if IMode(n.mode) == target then Step(n, answers, Pass)
    else match Gate(batch, answers)
      case Failure(e) => Step(n, answers, Fail(e))
      case Success(go) => Step(if go then n.(mode := Stat.Chmod(n.mode, target)) else n, AfterGate(batch, answers), Pass)
  }

  /** In batch mode nothing is asked and the node ends normalized, with its type and content kept. */
  lemma PermissionStepInBatch(n: Node, usergroup: string, executable: bool, answers: seq<bool>)
    ensures PermissionStep(n, usergroup, executable, true, answers) == Step(Normalize(n, usergroup, executable), answers, Pass)
  {
    var target := TargetMode(IsDir(n.mode), executable);
    if IMode(n.mode) == target {
      assert Stat.Chmod(n.mode, target) == n.mode;
    }
  }

  /** A node that is already normalized is left alone and no question is asked, in any mode. */
  lemma PermissionStepOnNormalized(n: Node, usergroup: string, executable: bool, batch: bool, answers: seq<bool>)
    requires Normalized(n, usergroup, executable)
    ensures PermissionStep(n, usergroup, executable, batch, answers) == Step(n, answers, Pass)
  {
  }

  /** A second call right after a batch call changes nothing and asks nothing. */
  lemma PermissionStepIdempotent(n: Node, usergroup: string, executable: bool, answers: seq<bool>, batch2: bool, answers2: seq<bool>)
    ensures var first := PermissionStep(n, usergroup, executable, true, answers);
      PermissionStep(first.node, usergroup, executable, batch2, answers2) == Step(first.node, answers2, Pass)
  {
    PermissionStepInBatch(n, usergroup, executable, answers);
    PermissionStepOnNormalized(Normalize(n, usergroup, executable), usergroup, executable, batch2, answers2);
  }

  /**
   * In any mode: the group changes only to `usergroup` and only when it differed,
   * the permission bits change only to the target and only when they differed,
   * the file type and the content never change, and at most one reply is read
   * per difference, from the front.
   */
  lemma PermissionStepChangesOnlyDifferences(n: Node, usergroup: string, executable: bool, batch: bool, answers: seq<bool>)
    ensures var s := PermissionStep(n, usergroup, executable, batch, answers);
      var target := TargetMode(IsDir(n.mode), executable);
      && (s.node.group != n.group ==> n.group != usergroup && s.node.group == usergroup)
      && (s.node.mode != n.mode ==> IMode(n.mode) != target && s.node.mode == Stat.Chmod(n.mode, target))
      && IsDir(s.node.mode) == IsDir(n.mode) && s.node.content == n.content
      && ReadAtMost(answers, s.answers, (if n.group != usergroup then 1 else 0) + (if IMode(n.mode) != target then 1 else 0))
  {
    StepTowardChangesOnlyDifferences(n, usergroup, TargetMode(IsDir(n.mode), executable), batch, answers);
    StepTowardReadsPerDifference(n, usergroup, TargetMode(IsDir(n.mode), executable), batch, answers);
  }

  lemma StepTowardChangesOnlyDifferences(n: Node, usergroup: string, target: Mode, batch: bool, answers: seq<bool>)
    ensures var s := StepToward(n, usergroup, target, batch, answers);
      && (s.node.group != n.group ==> n.group != usergroup && s.node.group == usergroup)
      && (s.node.mode != n.mode ==> IMode(n.mode) != target && s.node.mode == Stat.Chmod(n.mode, target))
      && IsDir(s.node.mode) == IsDir(n.mode) && s.node.content == n.content
  {
    GroupStepEffect(n, usergroup, batch, answers);
    var first := GroupStep(n, usergroup, batch, answers);
    if first.outcome.Pass? {
      ModeStepEffect(first.node, target, batch, first.answers);
    }
  }

  lemma StepTowardReadsPerDifference(n: Node, usergroup: string, target: Mode, batch: bool, answers: seq<bool>)
    ensures ReadAtMost(answers, StepToward(n, usergroup, target, batch, answers).answers,
      (if n.group != usergroup then 1 else 0) + (if IMode(n.mode) != target then 1 else 0))
  {
    var first := GroupStep(n, usergroup, batch, answers);
    GroupStepEffect(n, usergroup, batch, answers);
    if first.outcome.Pass? {
      var s := ModeStep(first.node, target, batch, first.answers);
      ModeStepEffect(first.node, target, batch, first.answers);
      ReadAtMostThen(answers, first.answers, s.answers, if n.group != usergroup then 1 else 0, if IMode(n.mode) != target then 1 else 0);
    }
  }

  /** The group half changes at most the group, to `usergroup` and only when it differed, and reads at most one reply for that. */
  lemma GroupStepEffect(n: Node, usergroup: string, batch: bool, answers: seq<bool>)
    ensures var s := GroupStep(n, usergroup, batch, answers);
      && s.node.mode == n.mode && s.node.content == n.content
      && (s.node.group != n.group ==> n.group != usergroup && s.node.group == usergroup)
      && ReadAtMost(answers, s.answers, if n.group != usergroup then 1 else 0)
  {
    assert answers[|answers| - |answers|..] == answers;
  }

  /** The mode half changes at most the permission bits, to `target` and only when they differed, and reads at most one reply for that. */
  lemma ModeStepEffect(n: Node, target: Mode, batch: bool, answers: seq<bool>)
    ensures var s := ModeStep(n, target, batch, answers);
      && s.node.group == n.group && s.node.content == n.content && IsDir(s.node.mode) == IsDir(n.mode)
      && (s.node.mode != n.mode ==> IMode(n.mode) != target && s.node.mode == Stat.Chmod(n.mode, target))
      && ReadAtMost(answers, s.answers, if IMode(n.mode) != target then 1 else 0)
  {
    assert answers[|answers| - |answers|..] == answers;
  }

  // ---------------------------------------------------------------------
  // Specification of `check_overwrite` and `write_file`

  /** The filesystem with `p` cleared, if it was there. */
  function Cleared(fs: map<string, Node>, p: string): (r: map<string, Node>)
    ensures p !in r
  {
    if p in fs then Removed(fs, p) else fs
  }

  /** The result, the filesystem and the keys left after `check_overwrite`. */
  datatype Overwrite = Overwrite(result: Result<bool, Error>, fs: map<string, Node>, keys: seq<char>)

  /** `check_overwrite(p)`: an absent path is fine; an existing one is removed if the answer is yes. */
  function OverwriteStep(batch: bool, fs: map<string, Node>, keys: seq<char>, p: string): Overwrite {
    if p !in fs then Overwrite(Success(true), fs, keys)
    else
      var reply := Reply(batch, keys, "yY", "nN", true);
      Overwrite(reply, if reply == Success(true) then Removed(fs, p) else fs, KeysLeft(batch, keys, "yY", "nN"))
  }

  /**
   * An absent path asks nothing and changes nothing; a refused or aborted
   * overwrite leaves the filesystem as it was; an accepted one removes exactly
   * the path (with everything below it if it is a directory) and nothing else.
   */
  lemma OverwriteStepEffect(batch: bool, fs: map<string, Node>, keys: seq<char>, p: string)
    ensures p !in fs ==> OverwriteStep(batch, fs, keys, p) == Overwrite(Success(true), fs, keys)
    ensures var o := OverwriteStep(batch, fs, keys, p);
      && (o.result != Success(true) ==> o.fs == fs)
      && (o.result == Success(true) ==> p !in o.fs && o.fs == Cleared(fs, p))
      && (forall q :: q in o.fs ==> q in fs && o.fs[q] == fs[q])
      && (forall q :: q in fs && !Under(q, p) ==> q in o.fs)
      && (o.result == Success(false) ==> p in fs && !batch)
  {
  }

  // ---------------------------------------------------------------------
  // Specification of the command sequences

  /** What `run_apt_install` runs for the packages listed in `order`: nothing when there are none, else one apt command. */
  function AptCommands(batch: bool, order: seq<string>): (cmds: seq<string>)
    ensures |cmds| <= 1
    ensures cmds == [] <==> order == []
  {
    if order == [] then [] else [AptCommand(batch, order)]
  }

  /**
   * `finish` with the apt commands and restart commands it would run: nothing
   * as non-root; as root the apt commands, then, unless they failed, the restarts.
   */
  function FinishRun(root: bool, batch: bool, answers: seq<bool>, exitCode: map<string, int>, aptCmds: seq<string>, restartCmds: seq<string>): Run {
    if !root then Run([], answers, Pass)
    else
      var apt := RunAll(true, batch, answers, exitCode, aptCmds);
      if apt.outcome.Fail? then apt
      else
        var rs := RestartRun(batch, apt.answers, exitCode, restartCmds);
        Run(apt.logged + rs.logged, rs.answers, rs.outcome)
  }

  /** The restart part of `finish`: if there are restarts, one question, then all of them in batch mode. */
  function RestartRun(batch: bool, answers: seq<bool>, exitCode: map<string, int>, restartCmds: seq<string>): Run {
    if restartCmds == [] then Run([], answers, Pass)
    else match Gate(batch, answers)
      case Failure(e) => Run([], answers, Fail(e))
      case Success(go) =>
        var left := AfterGate(batch, answers);
        if !go then Run([], left, Pass) else RunAll(true, true, left, exitCode, restartCmds)
  }

  /** The commands `install_repo` runs: a clone when the directory is absent, then the editable pip install. */
  function InstallCommands(repo: Repo, env: string, present: bool): (cmds: seq<string>)
    ensures |cmds| == if present then 1 else 2
    ensures cmds[|cmds| - 1] == Activate(env, PipEditable(repo.nickname))
    ensures CloneCommand(repo.gitRepo) in cmds <==> !present
  {
    var pip := Activate(env, PipEditable(repo.nickname));
    assert pip[0] == '.' && CloneCommand(repo.gitRepo)[0] == 'g';
    (if present then [] else [CloneCommand(repo.gitRepo)]) + [pip]
  }

  /** The position of the first statement that contains a double quote, or the number of statements. */
  function FirstQuoted(stmts: seq<string>): (k: nat)
    ensures k <= |stmts|
    ensures forall i :: 0 <= i < k ==> '"' !in stmts[i]
    ensures k < |stmts| ==> '"' in stmts[k]
  {
    if stmts == [] then 0 else if '"' in stmts[0] then 0 else 1 + FirstQuoted(stmts[1..])
  }

  /** The command the local `run` of `setup_database` builds for one statement. */
  function StatementCommand(postgres: bool, sql: string): string {
    if postgres then PsqlCommand(sql) else MysqlCommand(sql)
  }

  function StatementCommands(postgres: bool, stmts: seq<string>): (cmds: seq<string>)
    ensures cmds == if postgres then PsqlCommands(stmts) else MysqlCommands(stmts)
  {
    if stmts == [] then [] else [StatementCommand(postgres, stmts[0])] + StatementCommands(postgres, stmts[1..])
  }

  /**
   * The statements passed one by one to the local `run`: each becomes one
   * `runcmd`; for PostgreSQL a statement holding a double quote fails its
   * assertion before anything runs; the first failure ends the sequence.
   */
  function StatementsRun(checked: bool, postgres: bool, batch: bool, answers: seq<bool>, exitCode: map<string, int>, stmts: seq<string>): Run
    decreases |stmts|
  {
    if stmts == [] then Run([], answers, Pass)
    else if postgres && '"' in stmts[0] then Run([], answers, Fail(QuoteInStatement(stmts[0])))
    else
      var first := RunAll(checked, batch, answers, exitCode, [StatementCommand(postgres, stmts[0])]);
      if first.outcome.Fail? then first
      else
        var rest := StatementsRun(checked, postgres, batch, first.answers, exitCode, stmts[1..]);
        Run(first.logged + rest.logged, rest.answers, rest.outcome)
  }

  /** The sequence is its first statement on its own, then, if that passed, the rest. */
  lemma StatementsRunCons(checked: bool, postgres: bool, batch: bool, answers: seq<bool>, exitCode: map<string, int>, stmts: seq<string>)
    requires stmts != []
    ensures var first := StatementsRun(checked, postgres, batch, answers, exitCode, [stmts[0]]);
      var rest := StatementsRun(checked, postgres, batch, first.answers, exitCode, stmts[1..]);
      StatementsRun(checked, postgres, batch, answers, exitCode, stmts)
        == if first.outcome.Fail? then first else Run(first.logged + rest.logged, rest.answers, rest.outcome)
  {
    assert [stmts[0]][1..] == [];
    var one := RunAll(checked, batch, answers, exitCode, [StatementCommand(postgres, stmts[0])]);
    assert one.logged + [] == one.logged;
  }

  /** `setup_database`: three statements for MySQL, three quote-checked ones for PostgreSQL, nothing otherwise. */
  function SetupRun(batch: bool, answers: seq<bool>, exitCode: map<string, int>, database: string, user: string, pwd: string, dbEngine: string): Run {
    if dbEngine == "mysql" then StatementsRun(true, false, batch, answers, exitCode, MysqlStatements(database, user, pwd))
    else if dbEngine == "postgresql" then StatementsRun(true, true, batch, answers, exitCode, PostgresStatements(database, user, pwd))
    else Run([], answers, Pass)
  }

  /**
   * The statements run as one command sequence up to the first one that fails
   * the quote check (none for MySQL); reaching that one ends with
   * QuoteInStatement and nothing of it is run.
   */
  lemma {:induction false} StatementsRunUpToQuote(checked: bool, postgres: bool, batch: bool, answers: seq<bool>, exitCode: map<string, int>, stmts: seq<string>)
    ensures var k := if postgres then FirstQuoted(stmts) else |stmts|;
      var run := RunAll(checked, batch, answers, exitCode, StatementCommands(postgres, stmts[..k]));
      StatementsRun(checked, postgres, batch, answers, exitCode, stmts)
        == if run.outcome.Pass? && k < |stmts| then Run(run.logged, run.answers, Fail(QuoteInStatement(stmts[k]))) else run
    decreases |stmts|
  {
    if stmts != [] && !(postgres && '"' in stmts[0]) {
      var k := if postgres then FirstQuoted(stmts) else |stmts|;
      var t := stmts[1..];
      var c := StatementCommand(postgres, stmts[0]);
      var cs := StatementCommands(postgres, t[..k - 1]);
      assert stmts[..k][1..] == t[..k - 1];
      assert StatementCommands(postgres, stmts[..k]) == [c] + cs;
      RunAllAppend(checked, batch, answers, exitCode, [c], cs);
      var first := RunAll(checked, batch, answers, exitCode, [c]);
      if first.outcome.Pass? {
        StatementsRunUpToQuote(checked, postgres, batch, first.answers, exitCode, t);
        assert (if postgres then FirstQuoted(t) else |t|) == k - 1;
        var rest := RunAll(checked, batch, first.answers, exitCode, cs);
        assert RunAll(checked, batch, answers, exitCode, [c] + cs) == Run(first.logged + rest.logged, rest.answers, rest.outcome);
      } else {
        assert RunAll(checked, batch, answers, exitCode, [c] + cs) == first;
      }
    }
  }

  /** A PostgreSQL password that holds a double quote stops the setup before anything runs or is asked. */
  lemma QuotedPasswordRunsNothing(batch: bool, answers: seq<bool>, exitCode: map<string, int>, database: string, user: string, pwd: string)
    requires '"' in pwd
    ensures SetupRun(batch, answers, exitCode, database, user, pwd, "postgresql")
         == Run([], answers, Fail(QuoteInStatement(PostgresStatements(database, user, pwd)[0])))
  {
    var i :| 0 <= i < |pwd| && pwd[i] == '"';
    var s := PostgresStatements(database, user, pwd)[0];
    var n := |"CREATE USER " + user + " WITH PASSWORD '"|;
    assert s[n + i] == '"';
  }

  /** Statements without double quotes run as one command sequence. */
  lemma StatementsRunWithoutQuotes(checked: bool, postgres: bool, batch: bool, answers: seq<bool>, exitCode: map<string, int>, stmts: seq<string>)
    requires forall i :: 0 <= i < |stmts| ==> '"' !in stmts[i]
    ensures StatementsRun(checked, postgres, batch, answers, exitCode, stmts) == RunAll(checked, batch, answers, exitCode, StatementCommands(postgres, stmts))
  {
    StatementsRunUpToQuote(checked, postgres, batch, answers, exitCode, stmts);
    assert stmts[..|stmts|] == stmts;
  }

  /** Without double quotes in the names and the password, the MySQL setup runs its three statements as one command sequence. */
  lemma MysqlSetupRun(batch: bool, answers: seq<bool>, exitCode: map<string, int>, database: string, user: string, pwd: string)
    ensures SetupRun(batch, answers, exitCode, database, user, pwd, "mysql")
         == RunAll(true, batch, answers, exitCode, MysqlCommands(MysqlStatements(database, user, pwd)))
  {
    var my := MysqlStatements(database, user, pwd);
    StatementsRunUpToQuote(true, false, batch, answers, exitCode, my);
    assert my[..|my|] == my;
  }

  /** Without double quotes in the names and the password, the PostgreSQL setup runs its three statements as one command sequence. */
  lemma PostgresSetupRunWithoutQuotes(batch: bool, answers: seq<bool>, exitCode: map<string, int>, database: string, user: string, pwd: string)
    requires '"' !in database && '"' !in user && '"' !in pwd
    ensures SetupRun(batch, answers, exitCode, database, user, pwd, "postgresql")
         == RunAll(true, batch, answers, exitCode, PsqlCommands(PostgresStatements(database, user, pwd)))
  {
    PostgresStatementsWithoutQuotes(database, user, pwd);
    StatementsRunWithoutQuotes(true, true, batch, answers, exitCode, PostgresStatements(database, user, pwd));
  }

  /** The group check of `check_usergroup` for a non-root user, over the process's groups in order. */
  function GroupCheck(gids: seq<int>, groupNames: map<int, string>, usergroup: string): Outcome<Error> {
    if gids == [] then Fail(NotInGroup(usergroup))
    else if gids[0] !in groupNames then Fail(UnknownGid(gids[0]))
    else if groupNames[gids[0]] == usergroup then Pass
    else GroupCheck(gids[1..], groupNames, usergroup)
  }

  /**
   * The check passes exactly when some group of the process has the name and
   * every group before it is known; it fails naming the group exactly when every
   * group is known and none has the name.
   */
  lemma {:induction false} GroupCheckMeaning(gids: seq<int>, groupNames: map<int, string>, usergroup: string)
    ensures GroupCheck(gids, groupNames, usergroup) == Pass <==>
      exists i :: 0 <= i < |gids| && gids[i] in groupNames && groupNames[gids[i]] == usergroup
        && forall j :: 0 <= j < i ==> gids[j] in groupNames
    ensures GroupCheck(gids, groupNames, usergroup) == Fail(NotInGroup(usergroup)) <==>
      forall i :: 0 <= i < |gids| ==> gids[i] in groupNames && groupNames[gids[i]] != usergroup
    ensures GroupCheck(gids, groupNames, usergroup).Fail? ==>
      GroupCheck(gids, groupNames, usergroup).error == NotInGroup(usergroup)
      || exists i :: 0 <= i < |gids| && gids[i] !in groupNames && GroupCheck(gids, groupNames, usergroup).error == UnknownGid(gids[i])
  {
    if gids != [] {
      GroupCheckMeaning(gids[1..], groupNames, usergroup);
      var t := gids[1..];
      if gids[0] in groupNames && groupNames[gids[0]] != usergroup {
        if GroupCheck(t, groupNames, usergroup) == Pass {
          var i :| 0 <= i < |t| && t[i] in groupNames && groupNames[t[i]] == usergroup && forall j :: 0 <= j < i ==> t[j] in groupNames;
          assert gids[i + 1] == t[i];
          assert forall j :: 0 <= j < i + 1 ==> gids[j] in groupNames by {
            forall j | 0 <= j < i + 1 ensures gids[j] in groupNames {
              if j > 0 { assert gids[j] == t[j - 1]; }
            }
          }
        }
        if exists i :: 0 <= i < |gids| && gids[i] in groupNames && groupNames[gids[i]] == usergroup && forall j :: 0 <= j < i ==> gids[j] in groupNames {
          var i :| 0 <= i < |gids| && gids[i] in groupNames && groupNames[gids[i]] == usergroup && forall j :: 0 <= j < i ==> gids[j] in groupNames;
          assert i > 0;
          assert t[i - 1] == gids[i];
          assert forall j :: 0 <= j < i - 1 ==> t[j] in groupNames by {
            forall j | 0 <= j < i - 1 ensures t[j] in groupNames { assert t[j] == gids[j + 1]; }
          }
        }
        if forall i :: 0 <= i < |t| ==> t[i] in groupNames && groupNames[t[i]] != usergroup {
          forall i | 0 <= i < |gids| ensures gids[i] in groupNames && groupNames[gids[i]] != usergroup {
            if i > 0 { assert gids[i] == t[i - 1]; }
          }
        }
        if GroupCheck(t, groupNames, usergroup).Fail? && GroupCheck(t, groupNames, usergroup).error != NotInGroup(usergroup) {
          var i :| 0 <= i < |t| && t[i] !in groupNames && GroupCheck(t, groupNames, usergroup).error == UnknownGid(t[i]);
          assert gids[i + 1] == t[i];
        }
      }
    }
  }

  /** As non-root, `finish` runs nothing and asks nothing. */
  lemma FinishAsNonRoot(batch: bool, answers: seq<bool>, exitCode: map<string, int>, aptCmds: seq<string>, restartCmds: seq<string>)
    ensures FinishRun(false, batch, answers, exitCode, aptCmds, restartCmds) == Run([], answers, Pass)
  {
  }

  /** In batch mode `finish` as root asks nothing and, when every command succeeds, runs the apt commands and then every restart. */
  lemma FinishInBatch(exitCode: map<string, int>, answers: seq<bool>, aptCmds: seq<string>, restartCmds: seq<string>)
    requires forall c :: Code(exitCode, c) == 0
    ensures FinishRun(true, true, answers, exitCode, aptCmds, restartCmds) == Run(aptCmds + restartCmds, answers, Pass)
  {
    RunAllInBatch(true, answers, exitCode, aptCmds);
    RunAllInBatch(true, answers, exitCode, restartCmds);
    assert FirstFailing(exitCode, restartCmds) == |restartCmds|;
    assert FirstFailing(exitCode, aptCmds) == |aptCmds|;
    if restartCmds == [] {
      assert aptCmds + restartCmds == aptCmds;
    }
  }

  /**
   * In any mode `finish` as root reads at most one reply per apt command and
   * one for all restarts together, none per restart.
   */
  lemma FinishAsksOnceForRestarts(batch: bool, answers: seq<bool>, exitCode: map<string, int>, aptCmds: seq<string>, restartCmds: seq<string>)
    ensures ReadAtMost(answers, FinishRun(true, batch, answers, exitCode, aptCmds, restartCmds).answers,
      |aptCmds| + (if restartCmds == [] then 0 else 1))
  {
    var apt := RunAll(true, batch, answers, exitCode, aptCmds);
    RunAllReadsAtMostOnePerCommand(true, batch, answers, exitCode, aptCmds);
    var restarts := if restartCmds == [] then 0 else 1;
    if !apt.outcome.Fail? {
      RestartReadsAtMostOnce(batch, apt.answers, exitCode, restartCmds);
      ReadAtMostThen(answers, apt.answers, RestartRun(batch, apt.answers, exitCode, restartCmds).answers, |aptCmds|, restarts);
    } else {
      ReadAtMostThen(answers, apt.answers, apt.answers, |aptCmds|, restarts);
    }
  }

  /** The restart part of `finish` reads at most one reply, and none when nothing is queued. */
  lemma RestartReadsAtMostOnce(batch: bool, answers: seq<bool>, exitCode: map<string, int>, restartCmds: seq<string>)
    ensures ReadAtMost(answers, RestartRun(batch, answers, exitCode, restartCmds).answers, if restartCmds == [] then 0 else 1)
  {
    assert answers[|answers| - |answers|..] == answers;
    if restartCmds != [] && Gate(batch, answers).Success? {
      var left := AfterGate(batch, answers);
      assert ReadAtMost(answers, left, 1);
      RunAllInBatch(true, left, exitCode, restartCmds);
    }
  }

  /** In any mode `finish` as root logs some of its apt commands, then a prefix of the restarts. */
  lemma FinishLogShape(batch: bool, answers: seq<bool>, exitCode: map<string, int>, aptCmds: seq<string>, restartCmds: seq<string>)
    ensures var run := FinishRun(true, batch, answers, exitCode, aptCmds, restartCmds);
      exists a, k :: Subsequence(a, aptCmds) && 0 <= k <= |restartCmds| && run.logged == a + restartCmds[..k]
  {
    var run := FinishRun(true, batch, answers, exitCode, aptCmds, restartCmds);
    var apt := RunAll(true, batch, answers, exitCode, aptCmds);
    RunAllLogsSubsequence(true, batch, answers, exitCode, aptCmds);
    if !apt.outcome.Fail? && restartCmds != [] && Gate(batch, apt.answers).Success? && Gate(batch, apt.answers).value {
      var left := AfterGate(batch, apt.answers);
      RunAllInBatch(true, left, exitCode, restartCmds);
      var k := FirstFailing(exitCode, restartCmds);
      var j := if k < |restartCmds| then k + 1 else k;
      assert restartCmds[..|restartCmds|] == restartCmds;
      assert run.logged == apt.logged + restartCmds[..j];
    } else {
      assert run.logged == apt.logged + restartCmds[..0];
    }
  }

  /**
   * Naming the pending packages in any enumeration order gives a command that
   * splits into `apt-get install`, `-y` exactly in batch mode, and then each
   * pending package exactly once and nothing else.
   */
  lemma AptCommandNamesEachOnce(batch: bool, order: seq<string>, packages: set<string>)
    requires multiset(order) == multiset(packages)
    requires forall p :: p in packages ==> IsWord(p)
    ensures var words := Words(AptCommand(batch, order));
      var k := if batch then 3 else 2;
      && |words| >= k
      && words[..k] == (if batch then ["apt-get", "install", "-y"] else ["apt-get", "install"])
      && multiset(words[k..]) == multiset(packages)
  {
    assert AllWords(order) by {
      forall i | 0 <= i < |order| ensures IsWord(order[i]) {
        assert order[i] in multiset(order);
      }
    }
    AptCommandWords(batch, order);
    var words := Words(AptCommand(batch, order));
    var k := if batch then 3 else 2;
    assert words[k..] == order;
  }

  // ---------------------------------------------------------------------
  // The installer

  /** What `override_batch` encloses: a series of commands, or one `check_permissions` call. */
  datatype Body =
    | Commands(cmds: seq<string>)
    | CheckPermissionsOf(path: string, usergroup: string, executable: bool)

  /** The volatile session object that collects packages and services and asks before changing the system. */
  class Installer {
    const host: Host
    var batch: bool
    var services: set<string>
    var systemPackages: set<string>

    /** Every pending package is a single whitespace-free name. */
    ghost predicate Valid()
      reads this
    {
      forall p | p in systemPackages :: IsWord(p)
    }

    constructor (host: Host, batch: bool := false)
      ensures this.host == host && this.batch == batch
      ensures services == {} && systemPackages == {} && Valid()
    {
      this.host := host;
      this.batch := batch;
      services := {};
      systemPackages := {};
    }

    /** `yes_or_no`: the default in batch mode, otherwise read keys until one is in `yes` or `no`. */
    method YesOrNo(yes: string := "yY", no: string := "nN", default: bool := true) returns (r: Result<bool, Error>)
      modifies host`keys
      ensures r == Reply(batch, old(host.keys), yes, no, default)
      ensures host.keys == KeysLeft(batch, old(host.keys), yes, no)
    {
      if batch {
        return Success(default);
      }
      ghost var keys0 := host.keys;
      while true
        invariant |host.keys| <= |keys0| && host.keys == keys0[|keys0| - |host.keys|..]
        invariant FirstDecisive(keys0, yes, no) >= |keys0| - |host.keys|
        decreases |host.keys|
      {
        ghost var read := |keys0| - |host.keys|;
        var c := host.GetChar();
        if c.None? {
          return Failure(Aborted);
        }
        assert c.value == keys0[read];
        if c.value in yes {
          return Success(true);
        } else if c.value in no {
          return Success(false);
        }
        assert keys0[read + 1..] == host.keys;
      }
    }

    /** `self.batch or click.confirm(...)`. */
    method Confirm() returns (r: Result<bool, Error>)
      modifies host`answers
      ensures r == Gate(batch, old(host.answers)) && host.answers == AfterGate(batch, old(host.answers))
    {
      if batch {
        return Success(true);
      }
      r := host.Confirm();
    }

    /** `must_restart`: queue a service. */
    method MustRestart(service: string)
      modifies this`services
      ensures services == old(services) + {service}
    {
      services := services + {service};
    }

    /** `runcmd`: ask, run, and fail on a non-zero exit status. */
    method RunCmd(cmd: string) returns (r: Outcome<Error>)
      modifies host`answers, host`log
      ensures Did(host, RunAll(true, batch, old(host.answers), host.exitCode, [cmd]), r)
    {
      var go := Confirm();
      if go.Failure? {
        return Fail(go.error);
      }
      if go.value {
        var code := host.Shell(cmd);
        if code != 0 {
          return Fail(CommandFailed(cmd, code));
        }
      }
      return Pass;
    }

    /** `apt_install`: queue each whitespace-separated package name. */
    method AptInstall(packages: string)
      requires Valid()
      modifies this`systemPackages
      ensures Valid()
      ensures systemPackages == old(systemPackages) + WordSet(packages)
    {
      var names := Words(packages);
      for i := 0 to |names|
        invariant Valid()
        invariant systemPackages == old(systemPackages) + set j | 0 <= j < i :: names[j]
      {
        systemPackages := systemPackages + {names[i]};
      }
    }

    /** `run_in_env`: run a command with the virtualenv `env` activated. */
    method RunInEnv(env: string, cmd: string) returns (r: Outcome<Error>)
      modifies host`answers, host`log
      ensures Did(host, RunAll(true, batch, old(host.answers), host.exitCode, [Activate(env, cmd)]), r)
    {
      r := RunCmd(Activate(env, cmd));
    }

    /** `check_permissions`: bring the group owner and the permission bits of `pth` to the wanted ones. */
    method CheckPermissions(pth: string, usergroup: string, executable: bool := false) returns (r: Outcome<Error>)
      modifies host`fs, host`answers
      ensures pth !in old(host.fs) ==> r == Fail(NoSuchPath(pth)) && host.fs == old(host.fs) && host.answers == old(host.answers)
      ensures pth in old(host.fs) ==>
        var s := PermissionStep(old(host.fs)[pth], usergroup, executable, batch, old(host.answers));
        host.fs == old(host.fs)[pth := s.node] && host.answers == s.answers && r == s.outcome
    {
      if pth !in host.fs {
        return Fail(NoSuchPath(pth));
      }
      var n := host.fs[pth];
      r := ChangeGroup(pth, usergroup);
      if r.Fail? {
        return;
      }
      ghost var fs1 := host.fs;
      var mode := TargetMode(IsDir(n.mode), executable);
      r := ChangeMode(pth, mode);
      assert fs1[pth := host.fs[pth]] == old(host.fs)[pth := host.fs[pth]];
    }

    /** The group half of `check_permissions`: if the group differs, ask, and on a yes change it. */
    method ChangeGroup(pth: string, usergroup: string) returns (r: Outcome<Error>)
      requires pth in host.fs
      modifies host`fs, host`answers
      ensures var s := GroupStep(old(host.fs)[pth], usergroup, batch, old(host.answers));
        host.fs == old(host.fs)[pth := s.node] && host.answers == s.answers && r == s.outcome
    {
      if host.fs[pth].group != usergroup {
        var go := Confirm();
        if go.Failure? {
          return Fail(go.error);
        }
        if go.value {
          host.Chown(pth, usergroup);
          return Pass;
        }
      }
      assert host.fs == old(host.fs)[pth := old(host.fs)[pth]];
      return Pass;
    }

    /** The mode half of `check_permissions`: if the permission bits differ from `mode`, ask, and on a yes set them. */
    method ChangeMode(pth: string, mode: Mode) returns (r: Outcome<Error>)
      requires pth in host.fs
      modifies host`fs, host`answers
      ensures var s := ModeStep(old(host.fs)[pth], mode, batch, old(host.answers));
        host.fs == old(host.fs)[pth := s.node] && host.answers == s.answers && r == s.outcome
    {
      var imode := IMode(host.fs[pth].mode);
      XorNonZeroIffDiffer(imode, mode);
      if imode ^ mode != 0 {
        var go := Confirm();
        if go.Failure? {
          return Fail(go.error);
        }
        if go.value {
          host.Chmod(pth, mode);
          return Pass;
        }
      }
      assert host.fs == old(host.fs)[pth := old(host.fs)[pth]];
      return Pass;
    }

    /** `with self.override_batch(b): body`: the body runs with `batch` set to `b`, and the old value is back however it ends. */
    method OverrideBatch(b: bool, body: Body) returns (r: Outcome<Error>)
      modifies this`batch, host`fs, host`answers, host`log
      ensures batch == old(batch)
      ensures body.Commands? ==>
        host.fs == old(host.fs) && Did(host, RunAll(true, b, old(host.answers), host.exitCode, body.cmds), r)
      ensures body.CheckPermissionsOf? ==>
        && host.log == old(host.log)
        && if body.path !in old(host.fs) then r == Fail(NoSuchPath(body.path)) && host.fs == old(host.fs) && host.answers == old(host.answers)
           else
             var s := PermissionStep(old(host.fs)[body.path], body.usergroup, body.executable, b, old(host.answers));
             host.fs == old(host.fs)[body.path := s.node] && host.answers == s.answers && r == s.outcome
    {
      var saved := batch;
      batch := b;
      match body {
        case Commands(cmds) =>
          r := RunCmds(cmds);
        case CheckPermissionsOf(path, usergroup, executable) =>
          r := CheckPermissions(path, usergroup, executable);
      }
      batch := saved;
    }

    /** `for cmd in cmds: self.runcmd(cmd)`: the commands in order, up to the first one that raises. */
    method RunCmds(cmds: seq<string>) returns (r: Outcome<Error>)
      modifies host`answers, host`log
      ensures Did(host, RunAll(true, batch, old(host.answers), host.exitCode, cmds), r)
    {
      r := Pass;
      ghost var done: seq<string> := [];
      ghost var start := Run([], old(host.answers), Pass);
      assert RunAll(true, batch, old(host.answers), host.exitCode, cmds) == Then(true, batch, start, host.exitCode, cmds) by {
        assert start.logged + RunAll(true, batch, old(host.answers), host.exitCode, cmds).logged
            == RunAll(true, batch, old(host.answers), host.exitCode, cmds).logged;
      }
      for i := 0 to |cmds|
        invariant r == Pass && host.log == old(host.log) + done
        invariant Then(true, batch, Run(done, host.answers, Pass), host.exitCode, cmds[i..])
               == RunAll(true, batch, old(host.answers), host.exitCode, cmds)
      {
        ghost var now := Run(done, host.answers, Pass);
        assert cmds[i..] == [cmds[i]] + cmds[i + 1..];
        ThenAppend(true, batch, now, host.exitCode, [cmds[i]], cmds[i + 1..]);
        ghost var log0 := host.log;
        r := RunCmd(cmds[i]);
        ghost var step := RunAll(true, batch, now.answers, host.exitCode, [cmds[i]]);
        assert Then(true, batch, now, host.exitCode, [cmds[i]]) == Run(done + step.logged, step.answers, step.outcome);
        done := done + step.logged;
        if r.Fail? {
          return;
        }
      }
      assert cmds[|cmds|..] == [];
      assert RunAll(true, batch, host.answers, host.exitCode, []) == Run([], host.answers, Pass);
      assert done + [] == done;
    }

    /** `check_overwrite`: an existing path is removed after a yes, kept after a no. */
    method CheckOverwrite(pth: string) returns (r: Result<bool, Error>)
      modifies host`fs, host`keys
      ensures var o := OverwriteStep(batch, old(host.fs), old(host.keys), pth);
        r == o.result && host.fs == o.fs && host.keys == o.keys
    {
      if pth !in host.fs {
        return Success(true);
      }
      var ok := YesOrNo();
      if ok.Failure? {
        return ok;
      }
      if ok.value {
        host.Remove(pth);
        return Success(true);
      }
      return Success(false);
    }

    /**
     * `write_file`: after a cleared path, a new file with the content whose
     * group and permission bits are then normalized in batch mode. Returns
     * False (`None`) when the overwrite was refused.
     */
    method WriteFile(pth: string, content: string, usergroup: string, executable: bool := false) returns (r: Result<bool, Error>)
      modifies this`batch, host`fs, host`keys, host`answers, host`log
      ensures batch == old(batch) && host.answers == old(host.answers) && host.log == old(host.log)
      ensures var o := OverwriteStep(batch, old(host.fs), old(host.keys), pth);
        && r == o.result && host.keys == o.keys
        && host.fs == if r == Success(true) then o.fs[pth := Normalize(host.NewFile(content), usergroup, executable)] else o.fs
    {
      var ok := CheckOverwrite(pth);
      if ok.Failure? || !ok.value {
        return ok;
      }
      host.CreateFile(pth, content);
      PermissionStepInBatch(host.NewFile(content), usergroup, executable, host.answers);
      var p := OverrideBatch(true, CheckPermissionsOf(pth, usergroup, executable));
      assert p == Pass;
      return Success(true);
    }

    /** `write_supervisor_conf`: write the file into the supervisor directory and queue a supervisor restart unless the write raised. */
    method WriteSupervisorConf(filename: string, content: string, supervisorDir: string, usergroup: string) returns (r: Outcome<Error>)
      modifies this`batch, this`services, host`fs, host`keys, host`answers, host`log
      ensures batch == old(batch) && host.answers == old(host.answers) && host.log == old(host.log)
      ensures var pth := PathJoin(supervisorDir, filename);
        var o := OverwriteStep(batch, old(host.fs), old(host.keys), pth);
        && host.keys == o.keys
        && host.fs == (if o.result == Success(true) then o.fs[pth := Normalize(host.NewFile(content), usergroup, false)] else o.fs)
        && (o.result.Failure? ==> r == Fail(o.result.error) && services == old(services))
        && (o.result.Success? ==> r == Pass && services == old(services) + {"supervisor"})
    {
      var w := WriteFile(PathJoin(supervisorDir, filename), content, usergroup);
      if w.Failure? {
        return Fail(w.error);
      }
      MustRestart("supervisor");
      return Pass;
    }

    /** `setup_database`: create the user and the database and grant the rights. */
    method SetupDatabase(database: string, user: string, pwd: string, dbEngine: string) returns (r: Outcome<Error>)
      modifies host`answers, host`log
      ensures Did(host, SetupRun(batch, old(host.answers), host.exitCode, database, user, pwd, dbEngine), r)
    {
      if dbEngine == "sqlite3" {
        return Pass;
      } else if dbEngine == "mysql" || dbEngine == "postgresql" {
        var postgres := dbEngine == "postgresql";
        var stmts := if postgres then PostgresStatements(database, user, pwd) else MysqlStatements(database, user, pwd);
        r := RunStatements(postgres, stmts);
      } else {
        return Pass;
      }
    }

    /** The local `run` of `setup_database`: one statement through the engine's client; for PostgreSQL, only without double quotes. */
    method RunStatement(postgres: bool, sql: string) returns (r: Outcome<Error>)
      modifies host`answers, host`log
      ensures Did(host, StatementsRun(true, postgres, batch, old(host.answers), host.exitCode, [sql]), r)
    {
      if postgres && '"' in sql {
        return Fail(QuoteInStatement(sql));
      }
      r := RunCmd(StatementCommand(postgres, sql));
      assert host.log == old(host.log) + host.log[|old(host.log)|..];
    }

    /** The successive `run(...)` calls of `setup_database`, stopping at the first that raises. */
    method RunStatements(postgres: bool, stmts: seq<string>) returns (r: Outcome<Error>)
      modifies host`answers, host`log
      ensures Did(host, StatementsRun(true, postgres, batch, old(host.answers), host.exitCode, stmts), r)
      decreases |stmts|
    {
      if stmts == [] {
        return Pass;
      }
      StatementsRunCons(true, postgres, batch, host.answers, host.exitCode, stmts);
      ghost var first := StatementsRun(true, postgres, batch, host.answers, host.exitCode, [stmts[0]]);
      r := RunStatement(postgres, stmts[0]);
      if r.Fail? {
        return;
      }
      ghost var rest := StatementsRun(true, postgres, batch, first.answers, host.exitCode, stmts[1..]);
      r := RunStatements(postgres, stmts[1..]);
      assert host.log == old(host.log) + (first.logged + rest.logged);
    }

    /** `run_apt_install`: nothing when no package is pending, else one apt command naming them all. */
    method RunAptInstall() returns (r: Outcome<Error>, ghost order: seq<string>)
      modifies host`answers, host`log
      ensures multiset(order) == multiset(systemPackages)
      ensures Did(host, RunAll(true, batch, old(host.answers), host.exitCode, AptCommands(batch, order)), r)
    {
      if |systemPackages| == 0 {
        return Pass, [];
      }
      var names := Enumerate(systemPackages);
      order := names;
      r := RunCmd(AptCommand(batch, names));
    }

    /** `check_virtualenv`: an existing directory is fine; otherwise ask and create it. */
    method CheckVirtualenv(envdir: string) returns (r: Result<bool, Error>)
      modifies host`fs, host`answers
      ensures envdir in old(host.fs) ==> r == Success(true) && host.fs == old(host.fs) && host.answers == old(host.answers)
      ensures envdir !in old(host.fs) ==>
        && r == Gate(batch, old(host.answers)) && host.answers == AfterGate(batch, old(host.answers))
        && host.fs == if r == Success(true) then old(host.fs)[envdir := host.NewDir()] else old(host.fs)
    {
      if envdir in host.fs {
        return Success(true);
      }
      r := Confirm();
      if r == Success(true) {
        host.MakeDir(envdir);
      }
    }

    /** `install_repo`: clone the repository unless its directory exists, then install it in editable mode. */
    method InstallRepo(repo: Repo, env: string) returns (r: Outcome<Error>)
      modifies host`answers, host`log
      ensures Did(host, RunAll(true, batch, old(host.answers), host.exitCode, InstallCommands(repo, env, repo.nickname in host.fs)), r)
    {
      if repo.nickname in host.fs {
        assert InstallCommands(repo, env, true) == [Activate(env, PipEditable(repo.nickname))];
        r := RunInEnv(env, PipEditable(repo.nickname));
        return;
      }
      ghost var cmds := InstallCommands(repo, env, false);
      ghost var log0 := host.log;
      ghost var clone := RunAll(true, batch, host.answers, host.exitCode, [cmds[0]]);
      RunAllAppend(true, batch, host.answers, host.exitCode, [cmds[0]], [cmds[1]]);
      assert cmds == [cmds[0]] + [cmds[1]];
      r := RunCmd(CloneCommand(repo.gitRepo));
      if r.Fail? {
        return;
      }
      ghost var pip := RunAll(true, batch, clone.answers, host.exitCode, [cmds[1]]);
      r := RunInEnv(env, PipEditable(repo.nickname));
      assert host.log == log0 + (clone.logged + pip.logged);
    }

    /** `check_usergroup`: root passes; otherwise one of the process's groups must have the name. */
    method CheckUsergroup(usergroup: string) returns (r: Outcome<Error>)
      ensures r == if host.root then Pass else GroupCheck(host.gids, host.groupNames, usergroup)
    {
      if IfRoot(host.root, true, false) {
        return Pass;
      }
      var i := 0;
      while i < |host.gids|
        invariant 0 <= i <= |host.gids|
        invariant GroupCheck(host.gids, host.groupNames, usergroup) == GroupCheck(host.gids[i..], host.groupNames, usergroup)
      {
        var gid := host.gids[i];
        if gid !in host.groupNames {
          return Fail(UnknownGid(gid));
        }
        if host.groupNames[gid] == usergroup {
          return Pass;
        }
        assert host.gids[i..][1..] == host.gids[i + 1..];
        i := i + 1;
      }
      return Fail(NotInGroup(usergroup));
    }

    /** `finish`: as root, install the pending packages, then ask once and restart every queued service in batch mode. */
    method Finish() returns (r: Outcome<Error>, ghost order: seq<string>, ghost restarts: seq<string>)
      modifies this`batch, host`fs, host`answers, host`log
      ensures batch == old(batch) && host.fs == old(host.fs)
      ensures multiset(order) == multiset(systemPackages)
      ensures host.root && RunAll(true, batch, old(host.answers), host.exitCode, AptCommands(batch, order)).outcome.Pass? ==>
        multiset(restarts) == multiset(services)
      ensures Did(host, FinishRun(host.root, batch, old(host.answers), host.exitCode, AptCommands(batch, order), RestartCommands(restarts)), r)
    {
      order, restarts := [], [];
      if !IfRoot(host.root, true, false) {
        var shown := Enumerate(systemPackages);
        return Pass, shown, restarts;
      }
      r, order := RunAptInstall();
      if r.Fail? {
        return;
      }
      ghost var log1 := host.log;
      r, restarts := RestartServices();
      assert host.log == old(host.log) + log1[|old(host.log)|..] + host.log[|log1|..];
    }

    /** The restart part of `finish`: ask once, then restart every queued service in batch mode, in some enumeration order. */
    method RestartServices() returns (r: Outcome<Error>, ghost restarts: seq<string>)
      modifies this`batch, host`fs, host`answers, host`log
      ensures batch == old(batch) && host.fs == old(host.fs) && multiset(restarts) == multiset(services)
      ensures Did(host, RestartRun(batch, old(host.answers), host.exitCode, RestartCommands(restarts)), r)
    {
      var names := Enumerate(services);
      restarts := names;
      if |services| == 0 {
        return Pass, restarts;
      }
      var go := Confirm();
      if go.Failure? {
        return Fail(go.error), restarts;
      }
      if go.value {
        r := OverrideBatch(true, Commands(RestartCommands(names)));
      } else {
        r := Pass;
      }
    }
  }
}
