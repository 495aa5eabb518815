/**
 * getlino/configure.py: the option registry, the privilege-dependent
 * defaults, the loop that resolves every option into the configuration map,
 * and the packages and services `configure` asks the installer for.
 *
 * The configuration file is the map `config` (the DEFAULT section); the
 * values click parsed from the command line are the map `cli`; the answers
 * typed at `click.prompt` are a scripted sequence.
 */
module Configure {
  import opened Wrappers
  import opened Text
  import opened Host
  import opened Commands
  import Utils

  // ---------------------------------------------------------------------
  // Options and their defaults

  /** A value click hands to `configure`: text (a path, a name or a choice) or a flag. */
  datatype Value = Str(s: string) | Flag(b: bool)

  /** Python's `str(v)`, which is what the configuration file stores. */
  function Show(v: Value): string {
    match v
      case Str(s) => s
      case Flag(b) => if b then "True" else "False"
  }

  /** What the defaults depend on: `os.geteuid() == 0`, `$HOME` and the process environment. */
  datatype Process = Process(root: bool, home: string, environ: map<string, string>)

  /** `os.path.expanduser("~" + rest)` when `$HOME` is set: the home directory without trailing slashes, then `rest`. */
  function ExpandUser(p: Process, rest: string): string {
    var h := RStrip(p.home, '/');
    if h + rest == "" then "/" else h + rest
  }

  /** `default_sites_base()`. */
  function DefaultSitesBase(p: Process): string {
    Utils.IfRoot(p.root, "/usr/local/lino", ExpandUser(p, "/lino"))
  }

  /** `default_shared_env()`: `$VIRTUAL_ENV`, or empty. */
  function DefaultSharedEnv(p: Process): string {
    if "VIRTUAL_ENV" in p.environ then p.environ["VIRTUAL_ENV"] else ""
  }

  /** `default_repos_base()`: a repositories directory only when there is a shared environment. */
  function DefaultReposBase(p: Process): string {
    if DefaultSharedEnv(p) != "" then Utils.IfRoot(p.root, "/usr/local/lino/repositories", ExpandUser(p, "/lino/repositories"))
    else ""
  }

  /** `default_db_engine()`. */
  function DefaultDbEngine(p: Process): string {
    Utils.IfRoot(p.root, "mysql", "sqlite3")
  }

  /**
   * The database engine is MySQL exactly for root and SQLite otherwise, and is
   * always one of the engines of the table (a valid `click.Choice`); the
   * repositories base is empty exactly when there is no shared environment;
   * a non-root user's sites live in `~/lino`.
   */
  lemma DefaultsByPrivilege(p: Process)
    ensures DefaultDbEngine(p) == (if p.root then "mysql" else "sqlite3")
    ensures exists e :: e in Utils.DbEngines && e.name == DefaultDbEngine(p)
    ensures DefaultReposBase(p) == "" <==> DefaultSharedEnv(p) == ""
    ensures p.root ==> DefaultSitesBase(p) == "/usr/local/lino"
    ensures !p.root ==> DefaultSitesBase(p) == RStrip(p.home, '/') + "/lino"
  {
    if p.root {
      assert Utils.DbEngines[1].name == "mysql";
    } else {
      assert Utils.DbEngines[2].name == "sqlite3";
    }
    if DefaultSharedEnv(p) != "" && !p.root {
      assert |ExpandUser(p, "/lino/repositories")| > 0;
    }
  }

  /** A default as declared: a value, or one of the functions click calls when it needs the value. */
  datatype Default =
    | Given(value: Value)
    | SitesBase         // default_sites_base
    | SharedEnv         // default_shared_env
    | ReposBase         // default_repos_base
    | DbEngineChoice    // default_db_engine
    | IfRoot            // ifroot
    | NotIfRoot         // lambda: not ifroot()

  function Evaluate(d: Default, p: Process): Value {
    match d
      case Given(v) => v
      case SitesBase => Str(DefaultSitesBase(p))
      case SharedEnv => Str(DefaultSharedEnv(p))
      case ReposBase => Str(DefaultReposBase(p))
      case DbEngineChoice => Str(DefaultDbEngine(p))
      case IfRoot => Flag(p.root)
      case NotIfRoot => Flag(!p.root)
  }

  /** An entry of `CONFIGURE_OPTIONS`. */
  datatype ConfOption = ConfOption(name: string, default: Default, help: string, rootOnly: bool)

  /** `'-'` replaced by `'_'`. */
  function Underscored(s: string): (r: string)
    ensures |r| == |s| && '-' !in r
    ensures forall i :: 0 <= i < |s| ==> r[i] == if s[i] == '-' then '_' else s[i]
  {
    if s == [] then [] else [if s[0] == '-' then '_' else s[0]] + Underscored(s[1..])
  }

  /** The parameter name click gives an option declared as `--some-name` or `--some-name/--no-some-name`. */
  function OptionName(spec: string): string {
    var first := BeforeFirst(spec, '/');
    Underscored(if |first| >= 2 && first[..2] == "--" then first[2..] else first)
  }

  /** Everything before the first separator of `a + [sep] + b`, when `a` has none, is `a`. */
  lemma BeforeFirstOf(a: string, sep: char, b: string)
    requires sep !in a
    ensures BeforeFirst(a + [sep] + b, sep) == a
  {
    var s := a + [sep] + b;
    var r := BeforeFirst(s, sep);
    assert s[|a|] == sep;
    assert r == s[..|r|] && a == s[..|a|];
  }

  /** A text without the separator is its own part before the first separator. */
  lemma BeforeFirstWhole(s: string, sep: char)
    requires sep !in s
    ensures BeforeFirst(s, sep) == s
  {
  }

  /** The long flag `--` + `w` of an option, when `w` has no slash, has none either. */
  lemma LongFlagWithoutSlash(w: string)
    requires '/' !in w
    ensures '/' !in "--" + w
  {
    var s := "--" + w;
    assert forall k :: 2 <= k < |s| ==> s[k] == w[k - 2];
  }

  /** A declaration that starts with the long flag `--` + `w` and goes on after a slash is named after `w`. */
  lemma OptionNameOfParts(s: string, t: string, w: string)
    requires s == "--" + w && '/' !in s
    ensures OptionName(s + ['/'] + t) == Underscored(w)
  {
    BeforeFirstOf(s, '/', t);
    assert s[..2] == "--" && s[2..] == w;
  }

  /** An option declared as `--some-name` is named after it, with dashes turned into underscores. */
  lemma OptionNameOfFlag(w: string)
    requires '/' !in w
    ensures OptionName("--" + w) == Underscored(w)
  {
    var s := "--" + w;
    LongFlagWithoutSlash(w);
    BeforeFirstWhole(s, '/');
    assert s[..2] == "--" && s[2..] == w;
  }

  /** An option declared as `--some-name/--no-some-name` is named after its first half. */
  lemma OptionNameOfSwitch(w: string)
    requires '/' !in w
    ensures OptionName("--" + w + "/--no-" + w) == Underscored(w)
  {
    var s := "--" + w;
    var t := "--no-" + w;
    LongFlagWithoutSlash(w);
    OptionNameOfParts(s, t, w);
    SwitchDeclaration(w, s, t);
  }

  lemma SwitchDeclaration(w: string, s: string, t: string)
    requires s == "--" + w && t == "--no-" + w
    ensures s + ['/'] + t == "--" + w + "/--no-" + w
  {
  }

  /** `CONFIGURE_OPTIONS`, filled by `add`. */
  class Registry {
    var options: seq<ConfOption>

    constructor ()
      ensures options == []
    {
      options := [];
    }

    /**
     * `add(spec, default, help, root_only=...)`: append the option; its
     * default is the value the configuration file already holds, if any.
     */
    method Add(spec: string, default: Default, help: string, existing: map<string, string>, rootOnly: bool := false)
      modifies this
      ensures var name := OptionName(spec);
        options == old(options) + [ConfOption(name, if name in existing then Given(Str(existing[name])) else default, help, rootOnly)]
    {
      var name := OptionName(spec);
      var d := if name in existing then Given(Str(existing[name])) else default;
      options := options + [ConfOption(name, d, help, rootOnly)];
    }
  }

  // ---------------------------------------------------------------------
  // Resolving the options

  /** A reply to `click.prompt`: a plain RETURN takes the default, or a typed value (already converted by the option's type). */
  datatype Answer = Enter | Typed(value: Value)

  /** The value click passes for an option: the one from the command line, else its evaluated default. */
  function ArgValue(o: ConfOption, cli: map<string, Value>, p: Process): Value {
    if o.name in cli then cli[o.name] else Evaluate(o.default, p)
  }

  /** What a prompted answer is stored as: a string loses its trailing slashes, a flag is `str(flag)`. */
  function Stored(a: Answer, v: Value): string {
    match (if a.Enter? then v else a.value)
      case Str(s) => RStrip(s, '/')
      case Flag(b) => Show(Flag(b))
  }

  /** The configuration, the prompt replies left, and how the loop ended. */
  datatype Resolution = Resolution(config: map<string, string>, answers: seq<Answer>, outcome: Outcome<Error>)

  /**
   * The loop over `CONFIGURE_OPTIONS`: in batch mode store `str(value)`;
   * otherwise skip root-only options for a non-root user and prompt for the
   * rest. Running out of replies is click.Abort.
   */
  function Resolve(options: seq<ConfOption>, cli: map<string, Value>, p: Process, batch: bool, answers: seq<Answer>, config: map<string, string>): Resolution
    decreases |options|
  {
    if options == [] then Resolution(config, answers, Pass)
    else
      var o := options[0];
      var v := ArgValue(o, cli, p);
      if batch then Resolve(options[1..], cli, p, batch, answers, config[o.name := Show(v)])
      else if o.rootOnly && !p.root then Resolve(options[1..], cli, p, batch, answers, config)
      else if answers == [] then Resolution(config, answers, Fail(Aborted))
      else Resolve(options[1..], cli, p, batch, answers[1..], config[o.name := Stored(answers[0], v)])
  }

  /** The names of the options. */
  function Names(options: seq<ConfOption>): set<string> {
    set o | o in options :: o.name
  }

  /** No two options share a name, as the parameters of `configure` cannot. */
  predicate DistinctNames(options: seq<ConfOption>) {
    forall i, j :: 0 <= i < j < |options| ==> options[i].name != options[j].name
  }

  /**
   * In batch mode no reply is read, every option is stored as `str(value)`
   * under its name, and every other entry is kept.
   */
  lemma {:induction false} ResolveInBatch(options: seq<ConfOption>, cli: map<string, Value>, p: Process, answers: seq<Answer>, config: map<string, string>)
    requires DistinctNames(options)
    ensures var res := Resolve(options, cli, p, true, answers, config);
      && res.outcome == Pass && res.answers == answers
      && (forall k :: k in res.config <==> k in config || k in Names(options))
      && (forall o :: o in options ==> res.config[o.name] == Show(ArgValue(o, cli, p)))
      && (forall k :: k in config && k !in Names(options) ==> res.config[k] == config[k])
    decreases |options|
  {
    if options != [] {
      var o := options[0];
      var next := config[o.name := Show(ArgValue(o, cli, p))];
      assert DistinctNames(options[1..]) by {
        forall i, j | 0 <= i < j < |options| - 1 ensures options[1..][i].name != options[1..][j].name {
          assert options[1..][i] == options[i + 1] && options[1..][j] == options[j + 1];
        }
      }
      ResolveInBatch(options[1..], cli, p, answers, next);
      assert Names(options) == {o.name} + Names(options[1..]) by {
        assert options == [o] + options[1..];
      }
      assert o.name !in Names(options[1..]) by {
        forall q | q in options[1..] ensures q.name != o.name {
          var j :| 0 <= j < |options[1..]| && options[1..][j] == q;
          assert options[j + 1] == q;
        }
      }
    }
  }

  /**
   * Interactively, a non-root user is not asked for root-only options: a name
   * that only root-only options carry keeps its entry, or its absence.
   */
  lemma {:induction false} ResolveSkipsRootOnly(options: seq<ConfOption>, cli: map<string, Value>, p: Process, answers: seq<Answer>, config: map<string, string>, k: string)
    requires !p.root
    requires forall o :: o in options && o.name == k ==> o.rootOnly
    ensures var res := Resolve(options, cli, p, false, answers, config);
      (k in res.config <==> k in config) && (k in config ==> res.config[k] == config[k])
    decreases |options|
  {
    if options != [] {
      var o := options[0];
      assert forall q :: q in options[1..] ==> q in options;
      if !(o.rootOnly && !p.root) && answers != [] {
        ResolveSkipsRootOnly(options[1..], cli, p, answers[1..], config[o.name := Stored(answers[0], ArgValue(o, cli, p))], k);
      } else if o.rootOnly {
        ResolveSkipsRootOnly(options[1..], cli, p, answers, config, k);
      }
    }
  }

  /** A text that does not end with a slash. */
  predicate NoTrailingSlash(s: string) {
    s == [] || s[|s| - 1] != '/'
  }

  /** A prompted answer is stored without trailing slashes. */
  lemma StoredHasNoTrailingSlash(a: Answer, v: Value)
    ensures NoTrailingSlash(Stored(a, v))
  {
    var u := if a.Enter? then v else a.value;
    if u.Flag? {
      assert Show(u)[|Show(u)| - 1] == 'e';
    }
  }

  /**
   * Interactively, every entry the loop writes is free of trailing slashes:
   * each entry is either kept from before or has none.
   */
  lemma {:induction false} ResolveStripsSlashes(options: seq<ConfOption>, cli: map<string, Value>, p: Process, answers: seq<Answer>, config: map<string, string>)
    ensures var res := Resolve(options, cli, p, false, answers, config);
      forall k :: k in res.config ==> (k in config && res.config[k] == config[k]) || NoTrailingSlash(res.config[k])
    decreases |options|
  {
    if options != [] {
      var o := options[0];
      if !(o.rootOnly && !p.root) && answers != [] {
        var next := config[o.name := Stored(answers[0], ArgValue(o, cli, p))];
        StoredHasNoTrailingSlash(answers[0], ArgValue(o, cli, p));
        ResolveStripsSlashes(options[1..], cli, p, answers[1..], next);
        var res := Resolve(options[1..], cli, p, false, answers[1..], next);
        assert res == Resolve(options, cli, p, false, answers, config);
        forall k | k in res.config && k in next && res.config[k] == next[k] && !(k in config && res.config[k] == config[k])
          ensures NoTrailingSlash(res.config[k])
        {
          assert k == o.name;
        }
      } else if o.rootOnly && !p.root {
        ResolveStripsSlashes(options[1..], cli, p, answers, config);
      }
    }
  }

  /** The loop of `configure` over the options, proved against `Resolve`. */
  method ResolveOptions(options: seq<ConfOption>, cli: map<string, Value>, p: Process, batch: bool, answers: seq<Answer>, config: map<string, string>)
    returns (res: Resolution)
    ensures res == Resolve(options, cli, p, batch, answers, config)
  {
    var cfg := config;
    var left := answers;
    for i := 0 to |options|
      invariant Resolve(options[i..], cli, p, batch, left, cfg) == Resolve(options, cli, p, batch, answers, config)
    {
      assert options[i..][1..] == options[i + 1..];
      var o := options[i];
      var v := ArgValue(o, cli, p);
      if batch {
        cfg := cfg[o.name := Show(v)];
      } else if o.rootOnly && !p.root {
        continue;
      } else {
        if left == [] {
          return Resolution(cfg, left, Fail(Aborted));
        }
        var answer := left[0];
        left := left[1..];
        cfg := cfg[o.name := Stored(answer, v)];
      }
    }
    assert options[|options|..] == [];
    return Resolution(cfg, left, Pass);
  }

  // ---------------------------------------------------------------------
  // Reading the configuration back

  /**
   * `DEFAULTSECTION.getboolean(key)`: a missing key is None (false); the
   * words configparser knows, in any case, map to their truth value; anything
   * else raises ValueError. (ASCII case folding agrees with Python's here:
   * no other character lower-cases into one of these words.)
   */
  function GetBoolean(config: map<string, string>, key: string): Result<bool, Error> {
    if key !in config then Success(false)
    else
      var w := Lower(config[key]);
      if w == "1" || w == "yes" || w == "true" || w == "on" then Success(true)
      else if w == "0" || w == "no" || w == "false" || w == "off" then Success(false)
      else Failure(NotABoolean(key, config[key]))
  }

  /** What the resolution loop stores for a flag reads back as that flag. */
  lemma GetBooleanOfStored(config: map<string, string>, key: string, b: bool)
    ensures GetBoolean(config[key := Show(Flag(b))], key) == Success(b)
  {
    assert Lower("True") == "true";
    assert Lower("False") == "false";
  }

  /** The switches that decide the extra packages, in the order `configure` reads them. */
  datatype Switches = Switches(devtools: bool, monit: bool, redis: bool, appy: bool, ldap: bool)

  function ReadSwitches(config: map<string, string>): Result<Switches, Error> {
    var devtools :- GetBoolean(config, "devtools");
    var monit :- GetBoolean(config, "monit");
    var redis :- GetBoolean(config, "redis");
    var appy :- GetBoolean(config, "appy");
    var ldap :- GetBoolean(config, "ldap");
    Success(Switches(devtools, monit, redis, appy, ldap))
  }

  /** The keys of the five switches, in the order `configure` reads them. */
  const SwitchKeys: seq<string> := ["devtools", "monit", "redis", "appy", "ldap"]

  /** The words of `ConfigParser.BOOLEAN_STATES`. */
  const TrueWords: set<string> := {"1", "yes", "true", "on"}
  const FalseWords: set<string> := {"0", "no", "false", "off"}

  /** The key is present with a value `getboolean` refuses. */
  predicate NotBoolean(config: map<string, string>, key: string) {
    key in config && Lower(config[key]) !in TrueWords + FalseWords
  }

  /** The key is present with a value `getboolean` reads as True. */
  predicate ReadsTrue(config: map<string, string>, key: string) {
    key in config && Lower(config[key]) in TrueWords
  }

  /** `getboolean` raises exactly on a present key whose lower-cased value is no boolean word, and reads True only from a true word. */
  lemma GetBooleanMeaning(config: map<string, string>, key: string)
    ensures GetBoolean(config, key).Failure? <==> NotBoolean(config, key)
    ensures GetBoolean(config, key).Failure? ==> GetBoolean(config, key).error == NotABoolean(key, config[key])
    ensures GetBoolean(config, key) == Success(true) <==> ReadsTrue(config, key)
  {
  }

  /**
   * The switches read back exactly when none of the five keys holds a
   * non-boolean value, each switch then being on exactly when its value is a
   * true word; otherwise the error names the first key that does.
   */
  lemma ReadSwitchesOf(config: map<string, string>)
    ensures ReadSwitches(config).Success? <==> forall i :: 0 <= i < |SwitchKeys| ==> !NotBoolean(config, SwitchKeys[i])
    ensures ReadSwitches(config).Success? ==>
      ReadSwitches(config).value == Switches(ReadsTrue(config, "devtools"), ReadsTrue(config, "monit"),
        ReadsTrue(config, "redis"), ReadsTrue(config, "appy"), ReadsTrue(config, "ldap"))
    ensures ReadSwitches(config).Failure? ==>
      exists i :: 0 <= i < |SwitchKeys| && NotBoolean(config, SwitchKeys[i])
        && ReadSwitches(config).error == NotABoolean(SwitchKeys[i], config[SwitchKeys[i]])
        && forall j :: 0 <= j < i ==> !NotBoolean(config, SwitchKeys[j])
  {
    GetBooleanMeaning(config, "devtools");
    GetBooleanMeaning(config, "monit");
    GetBooleanMeaning(config, "redis");
    GetBooleanMeaning(config, "appy");
    GetBooleanMeaning(config, "ldap");
    var r := ReadSwitches(config);
    if r.Failure? {
      ReadSwitchesError(config);
    }
  }
  /** The error of `ReadSwitches` is that of the first key holding a non-boolean value. */
  lemma ReadSwitchesError(config: map<string, string>)
    requires ReadSwitches(config).Failure?
    ensures exists i ::
      && 0 <= i < |SwitchKeys| && NotBoolean(config, SwitchKeys[i])
      && ReadSwitches(config).error == NotABoolean(SwitchKeys[i], config[SwitchKeys[i]])
      && forall j :: 0 <= j < i ==> !NotBoolean(config, SwitchKeys[j])
  {
    GetBooleanMeaning(config, "devtools");
    GetBooleanMeaning(config, "monit");
    GetBooleanMeaning(config, "redis");
    GetBooleanMeaning(config, "appy");
    GetBooleanMeaning(config, "ldap");
    var k: nat;
    if NotBoolean(config, "devtools") {
      k := 0;
    } else if NotBoolean(config, "monit") {
      k := 1;
    } else if NotBoolean(config, "redis") {
      k := 2;
    } else if NotBoolean(config, "appy") {
      k := 3;
    } else {
      k := 4;
    }
    assert forall j :: 0 <= j < k ==> !NotBoolean(config, SwitchKeys[j]);
    assert NotBoolean(config, SwitchKeys[k]) && ReadSwitches(config).error == NotABoolean(SwitchKeys[k], config[SwitchKeys[k]]);
  }



  // ---------------------------------------------------------------------
  // The packages and services `configure` requests

  /** The package lists `configure` hands to `apt_install`, in order. */
  const BaseApt := Join(["git", "subversion", "python3", "python3-dev", "python3-setuptools", "python3-pip", "supervisor"])
  const SslApt := Join(["libffi-dev", "libssl-dev"])
  const ServerApt := Join(["nginx", "uwsgi-plugin-python3"])
  const DevApt := Join(["swig", "graphviz", "sqlite3"])
  const AppyApt := Join(["libreoffice", "python3-uno"])
  const LdapApt := Join(["slapd", "ldap-utils"])

  /** The same requests as sets of names, one set per call. */
  const BasePackages: set<string> :=
    {"git", "subversion", "python3", "python3-dev", "python3-setuptools", "python3-pip", "supervisor"}
    + {"libffi-dev", "libssl-dev"} + {"build-essential"} + {"swig"}
  const ServerPackages: set<string> := {"nginx", "uwsgi-plugin-python3"} + {"logrotate"}
  const DevPackages: set<string> := {"swig", "graphviz", "sqlite3"}
  const AppyPackages: set<string> := {"libreoffice", "python3-uno"} + {"tidy"}
  const LdapPackages: set<string> := {"slapd", "ldap-utils"}

  /** The packages of those engines among `engines` whose name is the configured `db_engine`. */
  function EnginePackagesIn(engines: seq<Utils.DbEngine>, config: map<string, string>): set<string>
    decreases |engines|
  {
    if engines == [] then {} else EnginePackagesIn(engines[..|engines| - 1], config) + EngineMatch(engines[|engines| - 1], config)
  }

  /** The packages of one engine if it is the configured one, else none. */
  function EngineMatch(e: Utils.DbEngine, config: map<string, string>): set<string> {
    if "db_engine" in config && config["db_engine"] == e.name then WordSet(e.aptPackages) else {}
  }

  /** Over a table of three engines, the requests are the three engines' matches. */
  lemma EnginePackagesOfThree(es: seq<Utils.DbEngine>, config: map<string, string>)
    requires |es| == 3
    ensures EnginePackagesIn(es, config) == EngineMatch(es[0], config) + EngineMatch(es[1], config) + EngineMatch(es[2], config)
  {
    var e2 := es[..2];
    var e1 := es[..1];
    assert es[..|es| - 1] == e2 && e2[..|e2| - 1] == e1 && e1[..|e1| - 1] == [];
    assert EnginePackagesIn(e1, config) == EngineMatch(es[0], config);
    assert EnginePackagesIn(e2, config) == EngineMatch(es[0], config) + EngineMatch(es[1], config);
  }

  function EnginePackages(config: map<string, string>): set<string> {
    EnginePackagesIn(Utils.DbEngines, config)
  }

  /** The database packages by engine name, as the table lists them. */
  function DatabasePackages(config: map<string, string>): set<string> {
    var name := if "db_engine" in config then config["db_engine"] else "";
    if name == "postgresql" then {"postgresql", "postgresql-contrib", "libpq-dev"}
    else if name == "mysql" then {"mysql-server", "libmysqlclient-dev", "python-dev", "libffi-dev", "libssl-dev", "python-mysqldb"}
    else if name == "sqlite3" then {"sqlite3"}
    else {}
  }

  /** The names requested under a condition. */
  function When(condition: bool, names: set<string>): set<string> {
    if condition then names else {}
  }

  /** The union of all package requests of `configure`. */
  function RequestedPackages(root: bool, config: map<string, string>, s: Switches): set<string> {
    BasePackages + When(root, ServerPackages) + SwitchedRequests(config, s)
  }

  /** The requests that depend on the configuration rather than on the privilege. */
  function SwitchedRequests(config: map<string, string>, s: Switches): set<string> {
    ToolRequests(s.devtools, s.monit, s.redis) + DatabasePackages(config) + ExtraRequests(s.appy, s.ldap)
  }

  /** The requests of `--devtools`, `--monit` and `--redis`. */
  function ToolRequests(devtools: bool, monit: bool, redis: bool): set<string> {
    When(devtools, DevPackages) + When(monit, {"monit"}) + When(redis, {"redis-server"})
  }

  /** The requests of `--appy` and `--ldap`. */
  function ExtraRequests(appy: bool, ldap: bool): set<string> {
    When(appy, AppyPackages) + When(ldap, LdapPackages)
  }

  /** The restart requests of `configure`. */
  function RequestedServices(root: bool, s: Switches): set<string> {
    When(root, {"nginx"}) + When(s.appy, {"supervisor"})
  }

  /** A space-joined list of names splits back into those names. */
  lemma WordSetIs(ws: seq<string>, expected: set<string>)
    requires AllWords(ws)
    requires (set w | w in ws) == expected
    ensures WordSet(Join(ws)) == expected
  {
    WordSetOfJoin(ws);
  }

  /** Each package name is a single word. */
  lemma BaseNamesAreWords()
    ensures IsWord("git") && IsWord("subversion") && IsWord("python3") && IsWord("python3-dev")
  {
  }

  lemma PythonNamesAreWords()
    ensures IsWord("python3-setuptools") && IsWord("python3-pip") && IsWord("supervisor")
  {
  }

  lemma SslNamesAreWords()
    ensures IsWord("libffi-dev") && IsWord("libssl-dev")
  {
  }

  lemma ServerNamesAreWords()
    ensures IsWord("nginx") && IsWord("uwsgi-plugin-python3")
  {
  }

  lemma OptionalNamesAreWords()
    ensures IsWord("swig") && IsWord("graphviz") && IsWord("sqlite3")
    ensures IsWord("slapd") && IsWord("ldap-utils")
  {
  }

  lemma AppyNamesAreWords()
    ensures IsWord("libreoffice") && IsWord("python3-uno")
  {
  }

  lemma PostgresNamesAreWords()
    ensures IsWord("postgresql") && IsWord("postgresql-contrib") && IsWord("libpq-dev")
  {
  }

  lemma MysqlNamesAreWords()
    ensures IsWord("mysql-server") && IsWord("libmysqlclient-dev")
  {
  }

  lemma MysqlPythonNamesAreWords()
    ensures IsWord("python-dev") && IsWord("python-mysqldb")
  {
  }

  lemma SingleNamesAreWords()
    ensures IsWord("build-essential") && IsWord("logrotate") && IsWord("monit") && IsWord("redis-server") && IsWord("tidy")
  {
  }

  lemma BaseWordSets()
    ensures WordSet(BaseApt) == {"git", "subversion", "python3", "python3-dev", "python3-setuptools", "python3-pip", "supervisor"}
  {
    BaseNamesAreWords();
    PythonNamesAreWords();
    var ws := ["git", "subversion", "python3", "python3-dev", "python3-setuptools", "python3-pip", "supervisor"];
    WordSetIs(ws, {"git", "subversion", "python3", "python3-dev", "python3-setuptools", "python3-pip", "supervisor"});
  }

  lemma SslWordSets()
    ensures WordSet(SslApt) == {"libffi-dev", "libssl-dev"}
  {
    SslNamesAreWords();
    WordSetIs(["libffi-dev", "libssl-dev"], {"libffi-dev", "libssl-dev"});
  }

  lemma ServerWordSets()
    ensures WordSet(ServerApt) == {"nginx", "uwsgi-plugin-python3"}
  {
    ServerNamesAreWords();
    WordSetIs(["nginx", "uwsgi-plugin-python3"], {"nginx", "uwsgi-plugin-python3"});
  }

  lemma DevWordSets()
    ensures WordSet(DevApt) == DevPackages
  {
    OptionalNamesAreWords();
    WordSetIs(["swig", "graphviz", "sqlite3"], DevPackages);
  }

  lemma AppyWordSets()
    ensures WordSet(AppyApt) == {"libreoffice", "python3-uno"}
  {
    AppyNamesAreWords();
    WordSetIs(["libreoffice", "python3-uno"], {"libreoffice", "python3-uno"});
  }

  lemma LdapWordSets()
    ensures WordSet(LdapApt) == LdapPackages
  {
    OptionalNamesAreWords();
    WordSetIs(["slapd", "ldap-utils"], LdapPackages);
  }

  lemma PostgresWords()
    ensures WordSet(Utils.DbEngines[0].aptPackages) == {"postgresql", "postgresql-contrib", "libpq-dev"}
  {
    PostgresNamesAreWords();
    WordSetIs(["postgresql", "postgresql-contrib", "libpq-dev"], {"postgresql", "postgresql-contrib", "libpq-dev"});
  }

  lemma MysqlWords()
    ensures WordSet(Utils.DbEngines[1].aptPackages) == {"mysql-server", "libmysqlclient-dev", "python-dev", "libffi-dev", "libssl-dev", "python-mysqldb"}
  {
    MysqlNamesAreWords();
    MysqlPythonNamesAreWords();
    SslNamesAreWords();
    var ws := ["mysql-server", "libmysqlclient-dev", "python-dev", "libffi-dev", "libssl-dev", "python-mysqldb"];
    WordSetIs(ws, {"mysql-server", "libmysqlclient-dev", "python-dev", "libffi-dev", "libssl-dev", "python-mysqldb"});
  }

  /** A name without whitespace splits into itself. */
  lemma SingleWordSet(w: string)
    requires IsWord(w)
    ensures WordSet(w) == {w}
  {
    WordsOfWord(w);
  }

  /**
   * The packages requested for the database are exactly those of the
   * configured engine of the table, and none at all for an engine the table
   * does not know.
   */
  lemma EnginePackagesByName(config: map<string, string>)
    ensures EnginePackages(config) == DatabasePackages(config)
  {
    EnginePackagesOfThree(Utils.DbEngines, config);
    PostgresWords();
    MysqlWords();
    OptionalNamesAreWords();
    SingleWordSet("sqlite3");
  }

  lemma NginxNotInBase()
    ensures "nginx" !in BasePackages
  {
  }

  /** No request other than the root branch names nginx. */
  lemma NginxOnlyFromServer(config: map<string, string>, s: Switches)
    ensures "nginx" !in RequestedPackages(false, config, s)
  {
    NginxNotInBase();
    NginxNotSwitched(config, s);
  }

  /** No request that depends on the configuration names nginx. */
  lemma NginxNotSwitched(config: map<string, string>, s: Switches)
    ensures "nginx" !in SwitchedRequests(config, s)
  {
    assert "nginx" !in ToolRequests(s.devtools, s.monit, s.redis);
    assert "nginx" !in DatabasePackages(config);
    assert "nginx" !in ExtraRequests(s.appy, s.ldap);
  }

  /**
   * nginx, uwsgi-plugin-python3 and logrotate are requested, and nginx is
   * queued for restart, exactly when running as root; supervisor is queued
   * exactly when appy is on, which also requests libreoffice, python3-uno and
   * tidy; nothing else is ever queued, in particular no database service.
   */
  lemma RequestRules(root: bool, config: map<string, string>, s: Switches)
    ensures ServerPackages <= RequestedPackages(root, config, s) <==> root
    ensures root <==> "nginx" in RequestedServices(root, s)
    ensures "supervisor" in RequestedServices(root, s) <==> s.appy
    ensures s.appy ==> AppyPackages <= RequestedPackages(root, config, s)
    ensures RequestedServices(root, s) <= {"nginx", "supervisor"}
  {
    if !root {
      NginxOnlyFromServer(config, s);
    }
  }

  // ---------------------------------------------------------------------
  // The database engine loop as written

  /**
   * `for e in DB_ENGINES: if ... == e.name: apt_install(e.apt_packages); if e.service: ...`
   * as written: the table's entries have no `service` field, so reaching a
   * matching entry raises AttributeError; with no match the loop ends
   * normally.
   */
  function EngineLoopAsWritten(engines: seq<Utils.DbEngine>, config: map<string, string>): Outcome<Error>
    decreases |engines|
  {
    if engines == [] then Pass
    else if "db_engine" in config && config["db_engine"] == engines[0].name then Fail(MissingAttribute("service"))
    else EngineLoopAsWritten(engines[1..], config)
  }

  /** As written, the loop raises exactly when the configured engine is in the table. */
  lemma {:induction false} EngineLoopAsWrittenRaises(engines: seq<Utils.DbEngine>, config: map<string, string>)
    ensures EngineLoopAsWritten(engines, config) == Fail(MissingAttribute("service"))
      <==> exists e :: e in engines && "db_engine" in config && config["db_engine"] == e.name
    ensures EngineLoopAsWritten(engines, config) in {Pass, Fail(MissingAttribute("service"))}
    decreases |engines|
  {
    if engines != [] {
      EngineLoopAsWrittenRaises(engines[1..], config);
      assert engines == [engines[0]] + engines[1..];
      if exists e :: e in engines && "db_engine" in config && config["db_engine"] == e.name {
        var e :| e in engines && "db_engine" in config && config["db_engine"] == e.name;
        if e != engines[0] {
          assert e in engines[1..];
        }
      }
    }
  }

  /**
   * The counterexample: whatever else it holds, a configuration whose engine
   * is the default one (which is what a batch run stores) makes the loop raise.
   */
  lemma DefaultEngineRaisesAsWritten(p: Process, config: map<string, string>)
    ensures EngineLoopAsWritten(Utils.DbEngines, config["db_engine" := DefaultDbEngine(p)]) == Fail(MissingAttribute("service"))
  {
    DefaultsByPrivilege(p);
    EngineLoopAsWrittenRaises(Utils.DbEngines, config["db_engine" := DefaultDbEngine(p)]);
  }

  // ---------------------------------------------------------------------
  // The session

  /**
   * The request part of `configure`, with the engine loop corrected: the
   * engine's packages are requested and nothing is restarted for it. A
   * configuration value that is not a boolean raises ValueError.
   */
  method RequestPackages(i: Utils.Installer, root: bool, config: map<string, string>) returns (r: Outcome<Error>)
    requires i.Valid()
    modifies i`systemPackages, i`services
    ensures i.Valid()
    ensures ReadSwitches(config).Failure? ==> r == Fail(ReadSwitches(config).error)
    ensures ReadSwitches(config).Success? ==>
      && r == Pass
      && i.systemPackages == old(i.systemPackages) + RequestedPackages(root, config, ReadSwitches(config).value)
      && i.services == old(i.services) + RequestedServices(root, ReadSwitches(config).value)
  {
    ghost var before, queued := i.systemPackages, i.services;
    RequestCorePackages(i);
    if root {
      RequestServerPackages(i);
    }
    ghost var fixed, fixedServices := i.systemPackages, i.services;
    assert fixed == before + (BasePackages + When(root, ServerPackages));
    assert fixedServices == queued + When(root, {"nginx"});
    r := RequestSwitchedPackages(i, config);
    if r.Pass? {
      ghost var s := ReadSwitches(config).value;
      Chain(before, fixed, i.systemPackages, BasePackages + When(root, ServerPackages), SwitchedRequests(config, s));
      Chain(queued, fixedServices, i.services, When(root, {"nginx"}), When(s.appy, {"supervisor"}));
    }
  }

  /** Everything from the `--devtools` block to the `--ldap` block. */
  method RequestSwitchedPackages(i: Utils.Installer, config: map<string, string>) returns (r: Outcome<Error>)
    requires i.Valid()
    modifies i`systemPackages, i`services
    ensures i.Valid()
    ensures ReadSwitches(config).Failure? ==> r == Fail(ReadSwitches(config).error)
    ensures ReadSwitches(config).Success? ==>
      && r == Pass
      && i.systemPackages == old(i.systemPackages) + SwitchedRequests(config, ReadSwitches(config).value)
      && i.services == old(i.services) + When(ReadSwitches(config).value.appy, {"supervisor"})
  {
    ReadSwitchesOf(config);
    ghost var before, queued := i.systemPackages, i.services;
    r := RequestToolPackages(i, config);
    if r.Fail? {
      return;
    }
    ghost var devtools, monit, redis := GetBoolean(config, "devtools").value, GetBoolean(config, "monit").value, GetBoolean(config, "redis").value;
    ghost var tools := i.systemPackages;
    assert tools == before + ToolRequests(devtools, monit, redis);
    RequestEnginePackages(i, Utils.DbEngines, config);
    EnginePackagesByName(config);
    ghost var engine := i.systemPackages;
    assert engine == tools + DatabasePackages(config);
    assert i.services == queued;
    r := RequestExtraPackages(i, config);
    if r.Pass? {
      ghost var s := Switches(devtools, monit, redis, GetBoolean(config, "appy").value, GetBoolean(config, "ldap").value);
      assert ReadSwitches(config) == Success(s);
      assert i.systemPackages == engine + ExtraRequests(s.appy, s.ldap);
      assert i.services == queued + When(s.appy, {"supervisor"});
      GrowThree(before, ToolRequests(devtools, monit, redis), DatabasePackages(config), ExtraRequests(s.appy, s.ldap));
    }
  }

  /** Two steps of requests add their union. */
  lemma Chain(before: set<string>, middle: set<string>, after: set<string>, first: set<string>, second: set<string>)
    requires middle == before + first && after == middle + second
    ensures after == before + (first + second)
  {
  }

  /** Three requests in a row add their union. */
  lemma GrowThree(before: set<string>, a: set<string>, b: set<string>, c: set<string>)
    ensures before + a + b + c == before + (a + b + c)
  {
  }

  /** The `--devtools`, `--monit` and `--redis` blocks; the first value that is not a boolean raises. */
  method RequestToolPackages(i: Utils.Installer, config: map<string, string>) returns (r: Outcome<Error>)
    requires i.Valid()
    modifies i`systemPackages
    ensures i.Valid()
    ensures var devtools, monit, redis := GetBoolean(config, "devtools"), GetBoolean(config, "monit"), GetBoolean(config, "redis");
      && r == (if devtools.Failure? then Fail(devtools.error) else if monit.Failure? then Fail(monit.error)
               else if redis.Failure? then Fail(redis.error) else Pass)
      && (r.Pass? ==> i.systemPackages == old(i.systemPackages) + ToolRequests(devtools.value, monit.value, redis.value))
  {
    var devtools := GetBoolean(config, "devtools");
    if devtools.Failure? {
      return Fail(devtools.error);
    }
    if devtools.value {
      RequestDevPackages(i);
    }
    var monit := GetBoolean(config, "monit");
    if monit.Failure? {
      return Fail(monit.error);
    }
    SingleNamesAreWords();
    if monit.value {
      RequestSinglePackage(i, "monit");
    }
    var redis := GetBoolean(config, "redis");
    if redis.Failure? {
      return Fail(redis.error);
    }
    if redis.value {
      RequestSinglePackage(i, "redis-server");
    }
    return Pass;
  }

  /** The `--appy` and `--ldap` blocks. */
  method RequestExtraPackages(i: Utils.Installer, config: map<string, string>) returns (r: Outcome<Error>)
    requires i.Valid()
    modifies i`systemPackages, i`services
    ensures i.Valid()
    ensures var appy, ldap := GetBoolean(config, "appy"), GetBoolean(config, "ldap");
      && r == (if appy.Failure? then Fail(appy.error) else if ldap.Failure? then Fail(ldap.error) else Pass)
      && (r.Pass? ==> i.systemPackages == old(i.systemPackages) + ExtraRequests(appy.value, ldap.value))
      && (r.Pass? ==> i.services == old(i.services) + When(appy.value, {"supervisor"}))
  {
    var appy := GetBoolean(config, "appy");
    if appy.Failure? {
      return Fail(appy.error);
    }
    if appy.value {
      RequestAppyPackages(i);
    }
    var ldap := GetBoolean(config, "ldap");
    if ldap.Failure? {
      return Fail(ldap.error);
    }
    if ldap.value {
      RequestLdapPackages(i);
    }
    return Pass;
  }

  /** The unconditional requests: version control, Python, supervisor and build tools. */
  method RequestCorePackages(i: Utils.Installer)
    requires i.Valid()
    modifies i`systemPackages
    ensures i.Valid() && i.systemPackages == old(i.systemPackages) + BasePackages
  {
    i.AptInstall(BaseApt);
    i.AptInstall(SslApt);
    i.AptInstall("build-essential");
    i.AptInstall("swig");
    BaseWordSets();
    SslWordSets();
    SingleNamesAreWords();
    OptionalNamesAreWords();
    SingleWordSet("build-essential");
    SingleWordSet("swig");
  }

  /** Root only: the web server and log rotation; nginx must be restarted. */
  method RequestServerPackages(i: Utils.Installer)
    requires i.Valid()
    modifies i`systemPackages, i`services
    ensures i.Valid() && i.systemPackages == old(i.systemPackages) + ServerPackages
    ensures i.services == old(i.services) + {"nginx"}
  {
    i.AptInstall(ServerApt);
    i.AptInstall("logrotate");
    i.MustRestart("nginx");
    ServerWordSets();
    SingleNamesAreWords();
    SingleWordSet("logrotate");
  }

  /** `--devtools`. */
  method RequestDevPackages(i: Utils.Installer)
    requires i.Valid()
    modifies i`systemPackages
    ensures i.Valid() && i.systemPackages == old(i.systemPackages) + DevPackages
  {
    i.AptInstall(DevApt);
    DevWordSets();
  }

  /** `--monit` and `--redis`: one package each. */
  method RequestSinglePackage(i: Utils.Installer, name: string)
    requires i.Valid() && IsWord(name)
    modifies i`systemPackages
    ensures i.Valid() && i.systemPackages == old(i.systemPackages) + {name}
  {
    i.AptInstall(name);
    SingleWordSet(name);
  }

  /** `--appy`: LibreOffice with its Python bridge and tidy; supervisor must be restarted. */
  method RequestAppyPackages(i: Utils.Installer)
    requires i.Valid()
    modifies i`systemPackages, i`services
    ensures i.Valid() && i.systemPackages == old(i.systemPackages) + AppyPackages
    ensures i.services == old(i.services) + {"supervisor"}
  {
    i.AptInstall(AppyApt);
    i.AptInstall("tidy");
    i.MustRestart("supervisor");
    AppyWordSets();
    SingleNamesAreWords();
    SingleWordSet("tidy");
  }

  /** `--ldap`. */
  method RequestLdapPackages(i: Utils.Installer)
    requires i.Valid()
    modifies i`systemPackages
    ensures i.Valid() && i.systemPackages == old(i.systemPackages) + LdapPackages
  {
    i.AptInstall(LdapApt);
    LdapWordSets();
  }

  /** The loop over the engine table, corrected: request the configured engine's packages, restart nothing. */
  method RequestEnginePackages(i: Utils.Installer, engines: seq<Utils.DbEngine>, config: map<string, string>)
    requires i.Valid()
    modifies i`systemPackages
    ensures i.Valid()
    ensures i.systemPackages == old(i.systemPackages) + EnginePackagesIn(engines, config)
  {
    for k := 0 to |engines|
      invariant i.Valid()
      invariant i.systemPackages == old(i.systemPackages) + EnginePackagesIn(engines[..k], config)
    {
      if "db_engine" in config && config["db_engine"] == engines[k].name {
        i.AptInstall(engines[k].aptPackages);
      }
      assert engines[..k + 1][..k] == engines[..k];
    }
    assert engines[..|engines|] == engines;
  }

  /** `--clone` needs a shared environment. */
  function CloneCheck(clone: bool, config: map<string, string>): Outcome<Error> {
    if clone && ("shared_env" !in config || config["shared_env"] == "") then Fail(CloneWithoutSharedEnv) else Pass
  }

  /** The commands of the system upgrade, run in batch mode whatever the session's mode. */
  const UpgradeCommands: seq<string> := ["apt-get update -y", "apt-get upgrade -y"]

  // ---------------------------------------------------------------------
  // The log and backup directories

  /** The configuration keys of the directories `configure` prepares before `finish`, in order. */
  const BaseDirKeys: seq<string> := ["log_base", "backups_base"]

  /** The group `check_permissions` wants: the configured `usergroup`. */
  function UserGroup(config: map<string, string>): string {
    if "usergroup" in config then config["usergroup"] else ""
  }

  /** The filesystem, the keys and the replies the directory step leaves, and how it ended. */
  datatype DirsRun = DirsRun(fs: map<string, Node>, keys: seq<char>, answers: seq<bool>, outcome: Outcome<Error>)

  /**
   * One directory: if it is absent, ask (not in batch mode) and create it on
   * a yes; then `check_permissions` on it, which fails when it is still absent.
   */
  function BaseDirRun(batch: bool, fs: map<string, Node>, keys: seq<char>, answers: seq<bool>,
                      pth: string, usergroup: string, newDir: Node): DirsRun
  {
    var create := Utils.Reply(batch, keys, "yY", "nN", true);
    if pth !in fs && create.Failure? then DirsRun(fs, Utils.KeysLeft(batch, keys, "yY", "nN"), answers, Fail(create.error))
    else
      var made := if pth !in fs && create == Success(true) then fs[pth := newDir] else fs;
      var left := if pth in fs then keys else Utils.KeysLeft(batch, keys, "yY", "nN");
      if pth !in made then DirsRun(made, left, answers, Fail(NoSuchPath(pth)))
      else
        var s := Utils.PermissionStep(made[pth], usergroup, false, batch, answers);
        DirsRun(made[pth := s.node], left, s.answers, s.outcome)
  }

  /** The loop over the directory keys: an empty or missing entry is skipped, and the first failure ends the loop. */
  function BaseDirsRun(batch: bool, fs: map<string, Node>, keys: seq<char>, answers: seq<bool>,
                       config: map<string, string>, usergroup: string, newDir: Node, names: seq<string>): DirsRun
    decreases |names|
  {
    if names == [] then DirsRun(fs, keys, answers, Pass)
    else if names[0] !in config || config[names[0]] == "" then
      BaseDirsRun(batch, fs, keys, answers, config, usergroup, newDir, names[1..])
    else
      var first := BaseDirRun(batch, fs, keys, answers, config[names[0]], usergroup, newDir);
      if first.outcome.Fail? then first
      else BaseDirsRun(batch, first.fs, first.keys, first.answers, config, usergroup, newDir, names[1..])
  }

  /** Declining to create an absent directory still runs `check_permissions` on it, which fails on the missing path. */
  lemma DeclinedBaseDirFails(fs: map<string, Node>, keys: seq<char>, answers: seq<bool>, pth: string, usergroup: string, newDir: Node)
    requires pth !in fs && Utils.Reply(false, keys, "yY", "nN", true) == Success(false)
    ensures BaseDirRun(false, fs, keys, answers, pth, usergroup, newDir)
         == DirsRun(fs, Utils.KeysLeft(false, keys, "yY", "nN"), answers, Fail(NoSuchPath(pth)))
  {
  }

  /**
   * The step removes no entry, and when it passes every configured directory
   * exists.
   */
  lemma {:induction false} BaseDirsKeepPaths(batch: bool, fs: map<string, Node>, keys: seq<char>, answers: seq<bool>,
                                            config: map<string, string>, usergroup: string, newDir: Node, names: seq<string>)
    ensures var d := BaseDirsRun(batch, fs, keys, answers, config, usergroup, newDir, names);
      && (forall q :: q in fs ==> q in d.fs)
      && (d.outcome.Pass? ==> forall k :: k in names && k in config && config[k] != "" ==> config[k] in d.fs)
    decreases |names|
  {
    if names != [] {
      var rest := names[1..];
      assert forall k :: k in names ==> k == names[0] || k in rest;
      if names[0] in config && config[names[0]] != "" {
        var first := BaseDirRun(batch, fs, keys, answers, config[names[0]], usergroup, newDir);
        if first.outcome.Pass? {
          BaseDirsKeepPaths(batch, first.fs, first.keys, first.answers, config, usergroup, newDir, rest);
        }
      } else {
        BaseDirsKeepPaths(batch, fs, keys, answers, config, usergroup, newDir, rest);
      }
    }
  }

  /**
   * In batch mode the step asks nothing, passes, and leaves every configured
   * directory present with the wanted group and mode; an entry that already
   * had them keeps them.
   */
  lemma {:induction false} BaseDirsInBatch(fs: map<string, Node>, keys: seq<char>, answers: seq<bool>,
                                          config: map<string, string>, usergroup: string, newDir: Node, names: seq<string>)
    ensures var d := BaseDirsRun(true, fs, keys, answers, config, usergroup, newDir, names);
      && d.outcome == Pass && d.keys == keys && d.answers == answers
      && (forall q :: q in fs && Utils.Normalized(fs[q], usergroup, false) ==> q in d.fs && Utils.Normalized(d.fs[q], usergroup, false))
      && (forall k :: k in names && k in config && config[k] != "" ==> config[k] in d.fs && Utils.Normalized(d.fs[config[k]], usergroup, false))
    decreases |names|
  {
    if names != [] {
      var rest := names[1..];
      assert forall k :: k in names ==> k == names[0] || k in rest;
      if names[0] in config && config[names[0]] != "" {
        var pth := config[names[0]];
        Utils.ReplyRule(true, keys, "yY", "nN", true);
        var made := if pth !in fs then fs[pth := newDir] else fs;
        Utils.PermissionStepInBatch(made[pth], usergroup, false, answers);
        var first := BaseDirRun(true, fs, keys, answers, pth, usergroup, newDir);
        assert first == DirsRun(made[pth := Utils.Normalize(made[pth], usergroup, false)], keys, answers, Pass);
        BaseDirsInBatch(first.fs, keys, answers, config, usergroup, newDir, rest);
      } else {
        BaseDirsInBatch(fs, keys, answers, config, usergroup, newDir, rest);
      }
    }
  }

  /** One directory of the step at getlino/configure.py:274-282. */
  method PrepareBaseDir(i: Utils.Installer, pth: string, usergroup: string) returns (r: Outcome<Error>)
    modifies i.host`keys, i.host`fs, i.host`answers
    ensures var d := BaseDirRun(i.batch, old(i.host.fs), old(i.host.keys), old(i.host.answers), pth, usergroup, i.host.NewDir());
      i.host.fs == d.fs && i.host.keys == d.keys && i.host.answers == d.answers && r == d.outcome
  {
    if pth !in i.host.fs {
      var create := i.YesOrNo("yY", "nN", true);
      if create.Failure? {
        return Fail(create.error);
      }
      if create.value {
        i.host.MakeDir(pth);
      }
    }
    r := i.CheckPermissions(pth, usergroup);
  }

  /** The loop over the log and backup directories. */
  method PrepareBaseDirs(i: Utils.Installer, config: map<string, string>) returns (r: Outcome<Error>)
    modifies i.host`keys, i.host`fs, i.host`answers
    ensures var d := BaseDirsRun(i.batch, old(i.host.fs), old(i.host.keys), old(i.host.answers), config, UserGroup(config), i.host.NewDir(), BaseDirKeys);
      i.host.fs == d.fs && i.host.keys == d.keys && i.host.answers == d.answers && r == d.outcome
  {
    ghost var total := BaseDirsRun(i.batch, i.host.fs, i.host.keys, i.host.answers, config, UserGroup(config), i.host.NewDir(), BaseDirKeys);
    r := Pass;
    for j := 0 to |BaseDirKeys|
      invariant r.Pass?
      invariant total == BaseDirsRun(i.batch, i.host.fs, i.host.keys, i.host.answers, config, UserGroup(config), i.host.NewDir(), BaseDirKeys[j..])
    {
      assert BaseDirKeys[j..][1..] == BaseDirKeys[j + 1..];
      var k := BaseDirKeys[j];
      if k in config && config[k] != "" {
        r := PrepareBaseDir(i, config[k], UserGroup(config));
        if r.Fail? {
          return;
        }
      }
    }
  }

  /** How a non-root session ends once the configuration is written: the switches, then the directory step, then the `--clone` check. */
  function NonRootOutcome(batch: bool, fs: map<string, Node>, keys: seq<char>, answers: seq<bool>,
                          config: map<string, string>, newDir: Node, clone: bool): Outcome<Error>
  {
    if ReadSwitches(config).Failure? then Fail(ReadSwitches(config).error)
    else
      var d := BaseDirsRun(batch, fs, keys, answers, config, UserGroup(config), newDir, BaseDirKeys);
      if d.outcome.Fail? then d.outcome else CloneCheck(clone, config)
  }

  /**
   * The end of `configure` once the packages are requested: the directory
   * step, `finish`, and the `--clone` check.
   */
  method Conclude(i: Utils.Installer, root: bool, config: map<string, string>, clone: bool) returns (r: Outcome<Error>)
    requires root == i.host.root
    modifies i`batch, i.host`keys, i.host`fs, i.host`answers, i.host`log
    ensures i.batch == old(i.batch)
    ensures var d := BaseDirsRun(old(i.batch), old(i.host.fs), old(i.host.keys), old(i.host.answers), config, UserGroup(config), i.host.NewDir(), BaseDirKeys);
      && (!root ==> i.host.log == old(i.host.log) && r == (if d.outcome.Fail? then d.outcome else CloneCheck(clone, config)))
      && (r.Pass? ==> d.outcome.Pass? && CloneCheck(clone, config) == Pass)
    ensures r.Pass? ==> forall k :: k in BaseDirKeys && k in config && config[k] != "" ==> config[k] in i.host.fs
  {
    ghost var d := BaseDirsRun(i.batch, i.host.fs, i.host.keys, i.host.answers, config, UserGroup(config), i.host.NewDir(), BaseDirKeys);
    BaseDirsKeepPaths(i.batch, i.host.fs, i.host.keys, i.host.answers, config, UserGroup(config), i.host.NewDir(), BaseDirKeys);
    r := PrepareBaseDirs(i, config);
    if r.Fail? {
      return;
    }
    ghost var log0, fs0 := i.host.log, i.host.fs;
    ghost var order, restarts;
    r, order, restarts := i.Finish();
    assert i.host.fs == fs0;
    if !root {
      Utils.FinishAsNonRoot(i.batch, i.host.answers, i.host.exitCode, Utils.AptCommands(i.batch, order), RestartCommands(restarts));
      assert i.host.log == log0;
    }
    if r.Fail? {
      return;
    }
    r := CloneCheck(clone, config);
  }

  /**
   * `configure`: resolve the options, ask before going on, write the
   * configuration, upgrade the system (root only), request the packages and
   * services, `finish`, and refuse `--clone` without a shared environment.
   * A non-root session runs no command at all.
   */
  method ConfigureMachine(i: Utils.Installer, options: seq<ConfOption>, cli: map<string, Value>, p: Process,
                          prompts: seq<Answer>, existing: map<string, string>, clone: bool)
    returns (r: Outcome<Error>, res: Resolution)
    requires i.Valid() && p.root == i.host.root
    modifies i, i.host
    ensures i.batch == old(i.batch)
    ensures res == Resolve(options, cli, p, old(i.batch), prompts, existing)
    ensures res.outcome.Fail? ==>
      r == res.outcome && i.host.savedConfig == old(i.host.savedConfig) && i.host.log == old(i.host.log)
    ensures var go := Utils.Reply(old(i.batch), old(i.host.keys), "yY", "nN", true);
      && (res.outcome.Pass? && go != Success(true) ==>
            r == Fail(Aborted) && i.host.savedConfig == old(i.host.savedConfig) && i.host.log == old(i.host.log))
      && (res.outcome.Pass? && go == Success(true) ==> i.host.savedConfig == Some(res.config))
      && (res.outcome.Pass? && go == Success(true) && !p.root ==>
            r == NonRootOutcome(old(i.batch), old(i.host.fs), Utils.KeysLeft(old(i.batch), old(i.host.keys), "yY", "nN"),
                                old(i.host.answers), res.config, i.host.NewDir(), clone))
    ensures !p.root ==> i.host.log == old(i.host.log)
    ensures r.Pass? ==>
      && res.outcome.Pass?
      && i.host.savedConfig == Some(res.config)
      && ReadSwitches(res.config).Success?
      && CloneCheck(clone, res.config) == Pass
      && i.systemPackages == old(i.systemPackages) + RequestedPackages(p.root, res.config, ReadSwitches(res.config).value)
      && i.services == old(i.services) + RequestedServices(p.root, ReadSwitches(res.config).value)
      && forall k :: k in BaseDirKeys && k in res.config && res.config[k] != "" ==> res.config[k] in i.host.fs
  {
    res := ResolveOptions(options, cli, p, i.batch, prompts, existing);
    if res.outcome.Fail? {
      return res.outcome, res;
    }
    var go := i.YesOrNo("yY", "nN", true);
    if go != Success(true) {
      return Fail(Aborted), res;
    }
    i.host.SaveConfig(res.config);
    r := Install(i, p.root, res.config, clone);
  }

  /**
   * The system upgrade of a root session: one question (none in batch mode),
   * then `apt-get update` and `apt-get upgrade` in batch mode.
   */
  method UpgradeSystem(i: Utils.Installer) returns (r: Outcome<Error>)
    modifies i`batch, i.host`keys, i.host`fs, i.host`answers, i.host`log
    ensures i.batch == old(i.batch)
    ensures var ask := Utils.Reply(old(i.batch), old(i.host.keys), "yY", "nN", true);
      && (ask.Failure? ==> r == Fail(ask.error) && i.host.log == old(i.host.log))
      && (ask == Success(false) ==> r == Pass && i.host.log == old(i.host.log))
      && (ask == Success(true) ==> Did(i.host, RunAll(true, true, old(i.host.answers), i.host.exitCode, UpgradeCommands), r))
  {
    var upgrade := i.YesOrNo("yY", "nN", true);
    if upgrade.Failure? {
      return Fail(upgrade.error);
    }
    r := Pass;
    if upgrade.value {
      r := i.OverrideBatch(true, Utils.Body.Commands(UpgradeCommands));
    }
  }

  /**
   * What `configure` does once the configuration is written: upgrade the
   * system (root only), request the packages and services, prepare the log
   * and backup directories, `finish`, and check `--clone`. A non-root
   * session runs no command.
   */
  method Install(i: Utils.Installer, root: bool, config: map<string, string>, clone: bool) returns (r: Outcome<Error>)
    requires i.Valid() && root == i.host.root
    modifies i`batch, i`systemPackages, i`services, i.host`keys, i.host`fs, i.host`answers, i.host`log
    ensures i.batch == old(i.batch)
    ensures !root ==> i.host.log == old(i.host.log)
    ensures !root ==>
      r == NonRootOutcome(old(i.batch), old(i.host.fs), old(i.host.keys), old(i.host.answers), config, i.host.NewDir(), clone)
    ensures r.Pass? ==>
      && ReadSwitches(config).Success?
      && CloneCheck(clone, config) == Pass
      && i.systemPackages == old(i.systemPackages) + RequestedPackages(root, config, ReadSwitches(config).value)
      && i.services == old(i.services) + RequestedServices(root, ReadSwitches(config).value)
      && forall k :: k in BaseDirKeys && k in config && config[k] != "" ==> config[k] in i.host.fs
  {
    if root {
      r := UpgradeSystem(i);
      if r.Fail? {
        return;
      }
    }
    ghost var packages0, services0 := i.systemPackages, i.services;
    assert packages0 == old(i.systemPackages) && services0 == old(i.services);
    r := RequestPackages(i, root, config);
    if r.Fail? {
      return;
    }
    ghost var packages1, services1 := i.systemPackages, i.services;
    r := Conclude(i, root, config, clone);
    assert i.systemPackages == packages1 && i.services == services1;
  }
}
