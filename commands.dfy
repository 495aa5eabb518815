/**
 * The shell command lines the installer builds. Each is a plain string; what
 * the commands do on the machine is outside the model, only their text and
 * the exit status the host reports for it are seen.
 */
module Commands {
  import opened Text

  /** `run_in_env`: a command run with the virtualenv `env` activated. */
  function Activate(env: string, cmd: string): string {
    ". " + env + "/bin/activate && " + cmd
  }

  /** `apt-get install ` with `-y ` in batch mode, followed by the space-joined package names. */
  function AptCommand(batch: bool, packages: seq<string>): string {
    (if batch then "apt-get install -y " else "apt-get install ") + Join(packages)
  }

  function RestartCommand(service: string): string {
    "service " + service + " restart"
  }

  /** One restart command per service, in the given order. */
  function RestartCommands(services: seq<string>): (cmds: seq<string>)
    ensures |cmds| == |services|
    ensures forall i :: 0 <= i < |services| ==> cmds[i] == RestartCommand(services[i])
  {
    if services == [] then [] else [RestartCommand(services[0])] + RestartCommands(services[1..])
  }

  function CloneCommand(gitRepo: string): string {
    "git clone --depth 1 -b master " + gitRepo
  }

  function PipEditable(dir: string): string {
    "pip install -e " + dir
  }

  /** A statement passed to the MySQL client on the command line. */
  function MysqlCommand(sql: string): string {
    "mysql -u root -p -e \"" + sql + ";\""
  }

  /**
   * A statement passed to psql through `sudo -u postgres bash -c`. Python
   * turns each backslash-quote of the literal into a plain double quote, so
   * the shell sees unescaped inner quotes and the statement ends up outside
   * the quoted `bash -c` argument.
   */
  function PsqlCommand(sql: string): string {
    "sudo -u postgres bash -c \"psql -c \"" + sql + "\";\""
  }

  function MysqlStatements(database: string, user: string, pwd: string): seq<string> {
    [ "create user '" + user + "'@'localhost' identified by '" + pwd + "'",
      "create database " + database + " charset 'utf8'",
      "grant all PRIVILEGES on " + database + ".* to '" + user + "'@'localhost'" ]
  }

  function PostgresStatements(database: string, user: string, pwd: string): seq<string> {
    [ "CREATE USER " + user + " WITH PASSWORD '" + pwd + "';",
      "CREATE DATABASE " + database + ";",
      "GRANT ALL PRIVILEGES ON DATABASE " + database + " TO " + user + ";" ]
  }

  /** The PostgreSQL statements hold a double quote only where the names or the password do. */
  lemma PostgresStatementsWithoutQuotes(database: string, user: string, pwd: string)
    requires '"' !in database && '"' !in user && '"' !in pwd
    ensures forall i :: 0 <= i < |PostgresStatements(database, user, pwd)| ==> '"' !in PostgresStatements(database, user, pwd)[i]
  {
    assert '"' !in "CREATE USER " && '"' !in " WITH PASSWORD '" && '"' !in "';";
    assert '"' !in "CREATE DATABASE " && '"' !in ";";
    assert '"' !in "GRANT ALL PRIVILEGES ON DATABASE " && '"' !in " TO ";
  }

  function MysqlCommands(stmts: seq<string>): (cmds: seq<string>)
    ensures |cmds| == |stmts|
    ensures forall i :: 0 <= i < |stmts| ==> cmds[i] == MysqlCommand(stmts[i])
  {
    if stmts == [] then [] else [MysqlCommand(stmts[0])] + MysqlCommands(stmts[1..])
  }

  function PsqlCommands(stmts: seq<string>): (cmds: seq<string>)
    ensures |cmds| == |stmts|
    ensures forall i :: 0 <= i < |stmts| ==> cmds[i] == PsqlCommand(stmts[i])
  {
    if stmts == [] then [] else [PsqlCommand(stmts[0])] + PsqlCommands(stmts[1..])
  }

  /**
   * Splitting the apt command on whitespace gives `apt-get install`, `-y` exactly
   * in batch mode, and then exactly the listed packages, in order.
   */
  lemma AptCommandWords(batch: bool, packages: seq<string>)
    requires AllWords(packages)
    ensures Words(AptCommand(batch, packages))
         == ["apt-get", "install"] + (if batch then ["-y"] else []) + packages
  {
    var tail := if batch then "-y" + " " + Join(packages) else Join(packages);
    assert IsWord("apt-get") && IsWord("install");
    calc {
      Words(AptCommand(batch, packages));
      == { AptPrefixWords(batch, Join(packages)); }
      Words("apt-get" + " " + ("install" + " " + tail));
      == { TwoWordsThen("apt-get", "install", tail); }
      ["apt-get", "install"] + Words(tail);
      == { AptTailWords(batch, packages); }
      ["apt-get", "install"] + ((if batch then ["-y"] else []) + packages);
    }
  }

  lemma AptPrefixWords(batch: bool, j: string)
    ensures (if batch then "apt-get install -y " else "apt-get install ") + j
         == "apt-get" + " " + ("install" + " " + (if batch then "-y" + " " + j else j))
  {
  }

  lemma AptTailWords(batch: bool, packages: seq<string>)
    requires AllWords(packages)
    ensures Words(if batch then "-y" + " " + Join(packages) else Join(packages))
         == (if batch then ["-y"] else []) + packages
  {
    WordsOfJoin(packages);
    if batch {
      assert IsWord("-y");
      WordsOfWordThen("-y", Join(packages));
    }
  }

  lemma TwoWordsThen(a: string, b: string, tail: string)
    requires IsWord(a) && IsWord(b)
    ensures Words(a + " " + (b + " " + tail)) == [a, b] + Words(tail)
  {
    WordsOfWordThen(b, tail);
    WordsOfWordThen(a, b + " " + tail);
  }

  /** Different services get different restart commands. */
  lemma RestartCommandInjective(a: string, b: string)
    ensures RestartCommand(a) == RestartCommand(b) ==> a == b
  {
    if RestartCommand(a) == RestartCommand(b) {
      var n := |"service "|;
      assert |a| == |b|;
      assert a == RestartCommand(a)[n..n + |a|];
      assert b == RestartCommand(b)[n..n + |b|];
    }
  }

  /** Each occurrence of a service in the list gives one occurrence of its restart command, and no other element does. */
  lemma {:induction false} RestartCommandsCount(services: seq<string>, s: string)
    ensures multiset(RestartCommands(services))[RestartCommand(s)] == multiset(services)[s]
  {
    if services != [] {
      RestartCommandsCount(services[1..], s);
      RestartCommandInjective(services[0], s);
      assert services == [services[0]] + services[1..];
      assert multiset(services) == multiset{services[0]} + multiset(services[1..]);
      assert multiset(RestartCommands(services))
          == multiset{RestartCommand(services[0])} + multiset(RestartCommands(services[1..]));
    }
  }

  /** An enumeration of a set of services restarts each of them exactly once and nothing else. */
  lemma RestartsEachOnce(order: seq<string>, services: set<string>)
    requires multiset(order) == multiset(services)
    ensures forall s :: s in services ==> multiset(RestartCommands(order))[RestartCommand(s)] == 1
    ensures forall c :: c in RestartCommands(order) ==> exists s :: s in services && c == RestartCommand(s)
  {
    forall s | s in services
      ensures multiset(RestartCommands(order))[RestartCommand(s)] == 1
    {
      RestartCommandsCount(order, s);
    }
    forall c | c in RestartCommands(order)
      ensures exists s :: s in services && c == RestartCommand(s)
    {
      var i :| 0 <= i < |order| && RestartCommands(order)[i] == c;
      assert order[i] in multiset(order);
    }
  }
}
