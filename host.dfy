/**
 * The machine the installer works on, as an explicit object instead of the
 * ambient `os`, `shutil`, `grp`, `subprocess` and `click` calls: a filesystem
 * (path to node), the privilege flag, the group database and the process's
 * groups, a scripted stream of keypresses (for `click.getchar`) and of
 * replies (for `click.confirm`), an exit-code oracle for shell commands and
 * the log of every command that was executed.
 */
module Host {
  import opened Wrappers
  import opened Stat

  /** A filesystem entry: the name of its group owner, its `st_mode`, and its text if it is a file. */
  datatype Node = Node(group: string, mode: Mode, content: string)

  /** The exceptions the installer raises or lets through. */
  datatype Error =
    | CommandFailed(command: string, returnCode: int)  // "{cmd} ended with return code {n}"
    | NotInGroup(group: string)                       // "You don't belong to the {group} user group ..."
    | Aborted                                         // click.Abort: a refusal, or the end of the input
    | NoSuchPath(path: string)                        // FileNotFoundError from os.stat
    | UnknownGid(gid: int)                            // KeyError from grp.getgrgid
    | QuoteInStatement(statement: string)             // AssertionError in setup_database
    | MissingAttribute(name: string)                  // AttributeError
    | NotABoolean(key: string, value: string)         // ValueError from ConfigParser.getboolean
    | CloneWithoutSharedEnv                           // "Cannot --clone without --shared-env"

  /** `q` is `p` or lies below it. */
  predicate Under(q: string, p: string) {
    q == p || p + "/" <= q
  }

  /** What `shutil.rmtree(p)` leaves: every path that is not `p` or below it. */
  function RemoveTree(fs: map<string, Node>, p: string): (r: map<string, Node>)
    ensures forall q :: q in r <==> q in fs && !Under(q, p)
    ensures forall q :: q in r ==> r[q] == fs[q]
  {
    map q | q in fs && !Under(q, p) :: fs[q]
  }

  /**
   * What `check_overwrite` leaves after an accepted overwrite: a directory goes
   * with everything below it (`shutil.rmtree`), anything else alone (`os.remove`).
   */
  function Removed(fs: map<string, Node>, p: string): (r: map<string, Node>)
    requires p in fs
    ensures p !in r
    ensures forall q :: q in r ==> q in fs && r[q] == fs[q]
    ensures forall q :: q in fs && !Under(q, p) ==> q in r
    ensures !IsDir(fs[p].mode) ==> forall q :: q in fs && q != p ==> q in r
  {
    if IsDir(fs[p].mode) then RemoveTree(fs, p) else fs - {p}
  }

  /** `batch or click.confirm(...)`: batch mode proceeds, otherwise the next reply decides; no reply left is click.Abort. */
  function Gate(batch: bool, answers: seq<bool>): Result<bool, Error> {
    if batch then Success(true)
    else if answers == [] then Failure(Aborted)
    else Success(answers[0])
  }

  /** The replies left after a `Gate`. */
  function AfterGate(batch: bool, answers: seq<bool>): seq<bool> {
    if batch || answers == [] then answers else answers[1..]
  }

  /** The position of the first key that is in `yes` or in `no`, or the length of `keys` if there is none. */
  function FirstDecisive(keys: seq<char>, yes: string, no: string): (k: nat)
    ensures k <= |keys|
    ensures forall i :: 0 <= i < k ==> keys[i] !in yes && keys[i] !in no
    ensures k < |keys| ==> keys[k] in yes || keys[k] in no
  {
    if keys == [] then 0
    else if keys[0] in yes || keys[0] in no then 0
    else 1 + FirstDecisive(keys[1..], yes, no)
  }

  /** The answer of an interactive yes/no question read key by key: the first key in `yes` or `no` decides, `yes` first. */
  function KeyReply(keys: seq<char>, yes: string, no: string): Result<bool, Error> {
    var k := FirstDecisive(keys, yes, no);
    if k < |keys| then Success(keys[k] in yes) else Failure(Aborted)
  }

  /** The keys left after `KeyReply`: everything after the deciding key, or nothing. */
  function KeysAfterReply(keys: seq<char>, yes: string, no: string): seq<char> {
    var k := FirstDecisive(keys, yes, no);
    if k < |keys| then keys[k + 1..] else []
  }

  /**
   * The reply is True exactly when some key in `yes` is preceded only by keys in
   * neither set, and False exactly when such a key is in `no` and not in `yes`.
   */
  lemma KeyReplyDecided(keys: seq<char>, yes: string, no: string)
    ensures KeyReply(keys, yes, no) == Success(true) <==>
      exists k :: 0 <= k < |keys| && keys[k] in yes && forall i :: 0 <= i < k ==> keys[i] !in yes && keys[i] !in no
    ensures KeyReply(keys, yes, no) == Success(false) <==>
      exists k :: 0 <= k < |keys| && keys[k] in no && keys[k] !in yes && forall i :: 0 <= i < k ==> keys[i] !in yes && keys[i] !in no
    ensures KeyReply(keys, yes, no) == Failure(Aborted) <==> forall i :: 0 <= i < |keys| ==> keys[i] !in yes && keys[i] !in no
  {
    var k := FirstDecisive(keys, yes, no);
    if k < |keys| {
      assert keys[k] in yes ==> exists j :: 0 <= j < |keys| && keys[j] in yes && forall i :: 0 <= i < j ==> keys[i] !in yes && keys[i] !in no;
      assert keys[k] !in yes ==> exists j :: 0 <= j < |keys| && keys[j] in no && keys[j] !in yes && forall i :: 0 <= i < j ==> keys[i] !in yes && keys[i] !in no;
    }
  }

  /** The exit status the host reports for a command: as listed, and 0 for a command not listed. */
  function Code(exitCode: map<string, int>, cmd: string): int {
    if cmd in exitCode then exitCode[cmd] else 0
  }

  /** How a finished command ends `runcmd`. */
  function ExitStatus(cmd: string, code: int): Outcome<Error> {
    if code == 0 then Pass else Fail(CommandFailed(cmd, code))
  }

  /** The effect of a sequence of gated shell commands: what ran, the replies left, how it ended. */
  datatype Run = Run(logged: seq<string>, answers: seq<bool>, outcome: Outcome<Error>)

  /**
   * Running `cmds` one after the other through `runcmd`: each one behind the
   * gate; a declined one is skipped; when `checked`, a non-zero exit status
   * stops the sequence with CommandFailed.
   */
  function RunAll(checked: bool, batch: bool, answers: seq<bool>, exitCode: map<string, int>, cmds: seq<string>): Run
    decreases |cmds|
  {
    if cmds == [] then Run([], answers, Pass)
    else match Gate(batch, answers)
      case Failure(e) => Run([], answers, Fail(e))
      case Success(go) =>
        var rest := AfterGate(batch, answers);
        if !go then RunAll(checked, batch, rest, exitCode, cmds[1..])
        else if checked && Code(exitCode, cmds[0]) != 0 then Run([cmds[0]], rest, ExitStatus(cmds[0], Code(exitCode, cmds[0])))
        else
          var more := RunAll(checked, batch, rest, exitCode, cmds[1..]);
          Run([cmds[0]] + more.logged, more.answers, more.outcome)
  }

  /** Running `xs` and then, if nothing stopped it, `ys` with the replies that are left. */
  function Then(checked: bool, batch: bool, first: Run, exitCode: map<string, int>, ys: seq<string>): Run {
    if first.outcome.Fail? then first
    else
      var second := RunAll(checked, batch, first.answers, exitCode, ys);
      Run(first.logged + second.logged, second.answers, second.outcome)
  }

  /** The position of the first command with a non-zero exit status, or the length of `cmds`. */
  function FirstFailing(exitCode: map<string, int>, cmds: seq<string>): (k: nat)
    ensures k <= |cmds|
    ensures forall i :: 0 <= i < k ==> Code(exitCode, cmds[i]) == 0
    ensures k < |cmds| ==> Code(exitCode, cmds[k]) != 0
  {
    if cmds == [] then 0
    else if Code(exitCode, cmds[0]) != 0 then 0
    else 1 + FirstFailing(exitCode, cmds[1..])
  }

  /** `after` is what is left of `before` once at most `k` elements were read from its front. */
  ghost predicate ReadAtMost<T>(before: seq<T>, after: seq<T>, k: int) {
    |after| <= |before| && after == before[|before| - |after|..] && |before| - |after| <= k
  }

  /** Reading at most `j` and then at most `k` reads at most `j + k`. */
  lemma ReadAtMostThen<T>(a: seq<T>, b: seq<T>, c: seq<T>, j: int, k: int)
    requires ReadAtMost(a, b, j) && ReadAtMost(b, c, k)
    ensures ReadAtMost(a, c, j + k)
  {
    assert a[|a| - |b|..][|b| - |c|..] == a[|a| - |c|..];
  }

  /** `a` is `b` with some elements left out. */
  ghost predicate Subsequence<T>(a: seq<T>, b: seq<T>)
    decreases |b|
  {
    if a == [] then true
    else if b == [] then false
    else if a[0] == b[0] then Subsequence(a[1..], b[1..])
    else Subsequence(a, b[1..])
  }

  lemma {:induction false} SubsequenceSkip<T>(a: seq<T>, b: seq<T>, x: T)
    requires Subsequence(a, b)
    ensures Subsequence(a, [x] + b)
    decreases |b|, 1
  {
    assert ([x] + b)[1..] == b;
    if a != [] && a[0] == x {
      SubsequenceTail(a, b);
    }
  }

  lemma {:induction false} SubsequenceTail<T>(a: seq<T>, b: seq<T>)
    requires a != [] && Subsequence(a, b)
    ensures Subsequence(a[1..], b)
    decreases |b|, 0
  {
    assert b != [];
    assert [b[0]] + b[1..] == b;
    if a[0] == b[0] {
      SubsequenceSkip(a[1..], b[1..], b[0]);
    } else {
      SubsequenceTail(a, b[1..]);
      SubsequenceSkip(a[1..], b[1..], b[0]);
    }
  }

  /**
   * In batch mode no reply is read, every command runs in order, and a checked
   * run stops right after the first command that fails.
   */
  lemma {:induction false} RunAllInBatch(checked: bool, answers: seq<bool>, exitCode: map<string, int>, cmds: seq<string>)
    ensures RunAll(checked, true, answers, exitCode, cmds).answers == answers
    ensures !checked ==> RunAll(checked, true, answers, exitCode, cmds) == Run(cmds, answers, Pass)
    ensures checked ==>
      var k := FirstFailing(exitCode, cmds);
      RunAll(checked, true, answers, exitCode, cmds)
        == if k < |cmds| then Run(cmds[..k + 1], answers, Fail(CommandFailed(cmds[k], Code(exitCode, cmds[k]))))
           else Run(cmds, answers, Pass)
    decreases |cmds|
  {
    if cmds != [] {
      RunAllInBatch(checked, answers, exitCode, cmds[1..]);
      if checked && Code(exitCode, cmds[0]) == 0 {
        var k := FirstFailing(exitCode, cmds[1..]);
        if k < |cmds| - 1 {
          assert [cmds[0]] + cmds[1..][..k + 1] == cmds[..k + 2];
        }
      }
      assert [cmds[0]] + cmds[1..] == cmds;
    }
  }

  /** Whatever the replies, a run executes a subsequence of its commands. */
  lemma {:induction false} RunAllLogsSubsequence(checked: bool, batch: bool, answers: seq<bool>, exitCode: map<string, int>, cmds: seq<string>)
    ensures Subsequence(RunAll(checked, batch, answers, exitCode, cmds).logged, cmds)
    decreases |cmds|
  {
    if cmds != [] && Gate(batch, answers).Success? {
      var rest := AfterGate(batch, answers);
      RunAllLogsSubsequence(checked, batch, rest, exitCode, cmds[1..]);
      var more := RunAll(checked, batch, rest, exitCode, cmds[1..]);
      assert [cmds[0]] + cmds[1..] == cmds;
      if !Gate(batch, answers).value {
        SubsequenceSkip(more.logged, cmds[1..], cmds[0]);
      } else if !(checked && Code(exitCode, cmds[0]) != 0) {
        assert ([cmds[0]] + more.logged)[1..] == more.logged;
      }
    }
  }

  /** A run reads at most one reply per command and leaves a suffix of the replies. */
  lemma {:induction false} RunAllReadsAtMostOnePerCommand(checked: bool, batch: bool, answers: seq<bool>, exitCode: map<string, int>, cmds: seq<string>)
    ensures ReadAtMost(answers, RunAll(checked, batch, answers, exitCode, cmds).answers, |cmds|)
    decreases |cmds|
  {
    if cmds != [] && Gate(batch, answers).Success? {
      var rest := AfterGate(batch, answers);
      RunAllReadsAtMostOnePerCommand(checked, batch, rest, exitCode, cmds[1..]);
      if rest != answers {
        assert rest == answers[1..];
      }
    }
  }

  /** Running `xs + ys` is running `xs`, then `ys` unless `xs` stopped. */
  lemma {:induction false} RunAllAppend(checked: bool, batch: bool, answers: seq<bool>, exitCode: map<string, int>, xs: seq<string>, ys: seq<string>)
    ensures RunAll(checked, batch, answers, exitCode, xs + ys)
         == Then(checked, batch, RunAll(checked, batch, answers, exitCode, xs), exitCode, ys)
    decreases |xs|
  {
    if xs == [] {
      assert xs + ys == ys;
    } else {
      assert (xs + ys)[0] == xs[0];
      assert (xs + ys)[1..] == xs[1..] + ys;
      RunAllAppend(checked, batch, AfterGate(batch, answers), exitCode, xs[1..], ys);
    }
  }

  /** Continuing a run with `xs + ys` is continuing it with `xs` and then with `ys`. */
  lemma ThenAppend(checked: bool, batch: bool, first: Run, exitCode: map<string, int>, xs: seq<string>, ys: seq<string>)
    ensures Then(checked, batch, first, exitCode, xs + ys)
         == Then(checked, batch, Then(checked, batch, first, exitCode, xs), exitCode, ys)
  {
    if first.outcome.Pass? {
      RunAllAppend(checked, batch, first.answers, exitCode, xs, ys);
      var a := RunAll(checked, batch, first.answers, exitCode, xs);
      if a.outcome.Pass? {
        var b := RunAll(checked, batch, a.answers, exitCode, ys);
        assert first.logged + (a.logged + b.logged) == (first.logged + a.logged) + b.logged;
      }
    }
  }

  /** The iteration order of a Python set: some enumeration of its elements, each exactly once. */
  method Enumerate(s: set<string>) returns (xs: seq<string>)
    ensures multiset(xs) == multiset(s) && |xs| == |s|
  {
    xs := [];
    var rest := s;
    while rest != {}
      invariant rest <= s
      invariant multiset(xs) + multiset(rest) == multiset(s)
      invariant |xs| + |rest| == |s|
      decreases rest
    {
      var x :| x in rest;
      assert multiset(rest) == multiset(rest - {x}) + multiset{x};
      xs := xs + [x];
      rest := rest - {x};
    }
  }

  /** Between two states, `h` executed exactly what `run` logged, has `run`'s replies left, and ended as `run` did. */
  twostate predicate Did(h: Host, new run: Run, new r: Outcome<Error>)
    reads h
  {
    h.log == old(h.log) + run.logged && h.answers == run.answers && r == run.outcome
  }

  class Host {
    var fs: map<string, Node>
    var keys: seq<char>
    var answers: seq<bool>
    var log: seq<string>
    /** The configuration file, as the key-value map `configure` writes into it. */
    var savedConfig: Option<map<string, string>>
    /** `os.geteuid() == 0`. */
    const root: bool
    /** `os.getgroups()`. */
    const gids: seq<int>
    /** The group database consulted by `grp.getgrgid`. */
    const groupNames: map<int, string>
    /** The group and the umask new files and directories get. */
    const primaryGroup: string
    const umask: Mode
    /** The exit status of the shell commands that would fail; every other command exits with 0. */
    const exitCode: map<string, int>

    constructor (fs: map<string, Node>, keys: seq<char>, answers: seq<bool>, root: bool,
                 gids: seq<int>, groupNames: map<int, string>, primaryGroup: string,
                 umask: Mode, exitCode: map<string, int>)
      ensures this.fs == fs && this.keys == keys && this.answers == answers
      ensures this.log == [] && this.savedConfig == None
      ensures this.root == root && this.gids == gids && this.groupNames == groupNames
      ensures this.primaryGroup == primaryGroup && this.umask == umask && this.exitCode == exitCode
    {
      this.fs := fs;
      this.keys := keys;
      this.answers := answers;
      this.log := [];
      this.savedConfig := None;
      this.root := root;
      this.gids := gids;
      this.groupNames := groupNames;
      this.primaryGroup := primaryGroup;
      this.umask := umask;
      this.exitCode := exitCode;
    }

    /** A file just created by `open(path, 'w')`. */
    function NewFile(content: string): (n: Node)
      ensures !IsDir(n.mode) && n.content == content
    {
      Node(primaryGroup, S_IFREG | (0x01B6 & !umask), content)    // 0o666 & ~umask
    }

    /** A directory just created by `os.makedirs` or by virtualenv. */
    function NewDir(): (n: Node)
      ensures IsDir(n.mode)
    {
      Node(primaryGroup, S_IFDIR | (0x01FF & !umask), "")        // 0o777 & ~umask
    }

    /** `click.confirm(...)`: the next scripted reply, or click.Abort when none is left. */
    method Confirm() returns (r: Result<bool, Error>)
      modifies this`answers
      ensures r == Gate(false, old(answers)) && answers == AfterGate(false, old(answers))
    {
      if answers == [] {
        r := Failure(Aborted);
      } else {
        r := Success(answers[0]);
        answers := answers[1..];
      }
    }

    /** `click.getchar()`: the next scripted key, or None when the input has ended. */
    method GetChar() returns (c: Option<char>)
      modifies this`keys
      ensures old(keys) == [] ==> c == None && keys == []
      ensures old(keys) != [] ==> c == Some(old(keys)[0]) && keys == old(keys)[1..]
    {
      if keys == [] {
        c := None;
      } else {
        c := Some(keys[0]);
        keys := keys[1..];
      }
    }

    /** `subprocess.run(cmd, shell=True)`: the command is recorded and ends with its exit status. */
    method Shell(cmd: string) returns (code: int)
      modifies this`log
      ensures log == old(log) + [cmd] && code == Code(exitCode, cmd)
    {
      log := log + [cmd];
      code := Code(exitCode, cmd);
    }

    /** `shutil.rmtree(p)` or `os.remove(p)`, as `Removed` says. */
    method Remove(p: string)
      requires p in fs
      modifies this`fs
      ensures fs == Removed(old(fs), p)
    {
      fs := Removed(fs, p);
    }

    /** `shutil.chown(p, group=g)`. */
    method Chown(p: string, g: string)
      requires p in fs
      modifies this`fs
      ensures fs == old(fs)[p := old(fs)[p].(group := g)]
    {
      fs := fs[p := fs[p].(group := g)];
    }

    /** `os.chmod(p, m)`. */
    method Chmod(p: string, m: Mode)
      requires p in fs
      modifies this`fs
      ensures fs == old(fs)[p := old(fs)[p].(mode := Stat.Chmod(old(fs)[p].mode, m))]
    {
      fs := fs[p := fs[p].(mode := Stat.Chmod(fs[p].mode, m))];
    }

    /** `open(p, 'w').write(content)` on a path that does not exist. */
    method CreateFile(p: string, content: string)
      modifies this`fs
      ensures fs == old(fs)[p := NewFile(content)]
    {
      fs := fs[p := NewFile(content)];
    }

    /** A new directory at `p`. */
    method MakeDir(p: string)
      modifies this`fs
      ensures fs == old(fs)[p := NewDir()]
    {
      fs := fs[p := NewDir()];
    }

    /** Writing the configuration file. */
    method SaveConfig(config: map<string, string>)
      modifies this`savedConfig
      ensures savedConfig == Some(config)
    {
      savedConfig := Some(config);
    }
  }
}
