# getlino installer core in Dafny

getlino sets up a machine as a Lino production server. This project models
the core of that work:

- the `Installer` session object of `getlino/utils.py`;
- the repository registry and `ifroot` of `getlino/utils.py`;
- the older standalone `Installer` of `getlino.py`, with its `check_usergroup`
  and the application-package and repository-nickname derivations of
  `startsite`;
- the option registry, the privilege-dependent defaults, the option-resolution
  loop and the package and service requests of `configure` in
  `getlino/configure.py`.

The ambient system is one explicit object, `Host.Host`. It holds:

- the filesystem, as a map from path to node (group name, `st_mode`, text);
- the privilege flag, the process's group ids and the group database;
- a scripted stream of keypresses for `click.getchar`;
- a scripted stream of replies for `click.confirm`;
- an exit-code oracle for shell commands;
- the log of the commands that ran;
- the configuration file written by `configure`.

Every installer method is proved against a specification function of the old
state. The main ones are:

- `Utils.Reply` for `yes_or_no`;
- `Host.Gate` for `batch or click.confirm(...)`;
- `Host.RunAll` for a series of `runcmd` calls;
- `Utils.PermissionStep` for `check_permissions`;
- `Utils.OverwriteStep` for `check_overwrite`;
- `Utils.FinishRun` for `finish`;
- `Configure.Resolve` for the option loop;
- `Configure.RequestedPackages` and `Configure.RequestedServices` for the
  requests.

Lemmas then state what the source promises about those functions.

Modules, one file each:

- `wrappers.dfy`: `Option`, `Result`, `Outcome`;
- `text.dfy`: `str.split()`, `' '.join`, `rstrip`, `split(sep)[0]` and
  `[-1]`, `os.path.join`;
- `stat.dfy`: the `stat` bit constants;
- `host.dfy`: the environment and the command-run semantics;
- `commands.dfy`: the command text;
- `utils.dfy`, `legacy.dfy` (`getlino.py`) and `configure.dfy`.

Facts of the code that the model keeps:

- `finish` restarts each queued service and clears neither pending set.
- `check_permissions` checks the group owner in every session, root or not.
- `check_virtualenv` only asks and creates the directory.
- The database engine table has no service field, although `configure` reads
  one (see Findings).

## Model

| member | source | states |
|---|---|---|
| Utils.Registry.constructor | getlino/utils.py:42-43 | the registry starts with no repository and an empty dictionary |
| Utils.Registry.Add | getlino/utils.py:45-51 | the repository is appended; the dictionary maps its nickname to it, and also its front end when it has one; every dictionary entry stays a registered repository under its nickname or front end |
| Utils.AppNames | getlino/utils.py:75 | a name is listed exactly when some registered repository with a settings module has it as nickname |
| Utils.FrontEnds | getlino/utils.py:76 | the result is a subsequence of the registry and holds exactly the repositories with a front end |
| Utils.ReplyRule | getlino/utils.py:114-126 | in batch mode the default comes back and no key is read; otherwise True only after a key in `yes`, False only after a key in `no`, every earlier key in neither set, and the keys after the deciding one stay unread; no deciding key is click.Abort with all keys read |
| Utils.Installer.YesOrNo | getlino/utils.py:114-126 | the key loop returns `Reply` and leaves `KeysLeft` unread |
| Utils.Installer.constructor | getlino/utils.py:92-96 | a session starts with the given batch flag and no pending package or service |
| Utils.Installer.Confirm | getlino/utils.py:145 | `batch or click.confirm(...)`: True in batch mode without reading, otherwise the next reply, and click.Abort when none is left |
| Utils.Installer.MustRestart | getlino/utils.py:128-129 | the service is added to the pending set |
| Utils.Installer.AptInstall | getlino/utils.py:152-154 | the pending set grows by exactly the whitespace-separated words of the argument, and every pending entry stays one word |
| Utils.Installer.RunCmd | getlino/utils.py:131-150 | a declined command runs nothing; a run command is logged, and a non-zero exit status fails with the command and its return code |
| Utils.Installer.RunCmds | getlino/utils.py:283-285 | successive `runcmd` calls log and answer exactly as `RunAll` says, stopping at the first failure |
| Utils.Installer.RunInEnv | getlino/utils.py:156-160 | exactly `. {env}/bin/activate && {cmd}` goes through `runcmd` |
| Utils.Installer.OverrideBatch | getlino/utils.py:188-195 | the body runs with `batch` set to the given value, and the old value is back afterwards whether the body passed or failed |
| Utils.Normalize | getlino/utils.py:162-186 | the node gets the wanted group and permission bits and keeps its type and content |
| Stat.TargetMode | getlino/utils.py:173-179 | the target has no file-type bits |
| Stat.TargetModeValues | getlino/utils.py:173-179 | the target is 0o2775 for a directory, 0o775 for an executable file and 0o664 for any other file |
| Stat.Chmod | getlino/utils.py:186 | `os.chmod` keeps the file type and replaces the permission bits |
| Stat.XorNonZeroIffDiffer | getlino/utils.py:181 | `imode ^ mode` is non-zero exactly when the modes differ |
| Utils.PermissionStepInBatch | getlino/utils.py:162-186 | in batch mode nothing is asked and the node ends with the wanted group and mode |
| Utils.PermissionStepOnNormalized | getlino/utils.py:162-186 | a node that already has the wanted group and mode is left alone and nothing is asked, in any mode |
| Utils.PermissionStepIdempotent | getlino/utils.py:162-186 | a second call right after a batch call changes nothing and asks nothing |
| Utils.PermissionStepChangesOnlyDifferences | getlino/utils.py:162-186 | the group changes only to `usergroup` and only when it differed; the mode changes only to the target and only when it differed; type and content never change; at most one reply is read per difference |
| Utils.GroupStepEffect | getlino/utils.py:165-170 | the group half changes only a differing group, to `usergroup`, reading at most one reply |
| Utils.ModeStepEffect | getlino/utils.py:172-186 | the mode half changes only differing permission bits, to the target, reading at most one reply |
| Utils.Installer.CheckPermissions | getlino/utils.py:162-186 | a missing path fails with no change; otherwise the filesystem, the replies and the outcome are those of `PermissionStep` on that one path |
| Utils.Installer.ChangeGroup | getlino/utils.py:165-170 | the group half changes exactly what `GroupStep` says |
| Utils.Installer.ChangeMode | getlino/utils.py:172-186 | the mode half changes exactly what `ModeStep` says |
| Utils.OverwriteStepEffect | getlino/utils.py:98-112 | an absent path returns True and asks nothing; a refusal or abort changes nothing; an acceptance removes the path, with its subtree for a directory, and nothing else; False only for an existing path outside batch mode |
| Utils.Cleared | getlino/utils.py:98-112 | the cleared filesystem no longer has the path |
| Host.Removed | getlino/utils.py:104-111 | the path is gone; a directory takes its subtree with it and a file only itself; every other entry is kept unchanged |
| Host.RemoveTree | getlino/utils.py:106 | `rmtree` removes the path and everything below it, and keeps every other entry unchanged |
| Utils.Installer.CheckOverwrite | getlino/utils.py:98-112 | the result, the filesystem and the unread keys are those of `OverwriteStep` |
| Utils.Installer.WriteFile | getlino/utils.py:197-203 | after a cleared path the file exists with the content and with the normalized group and mode; a refusal returns False and writes nothing; nothing is run or asked beyond the overwrite question |
| Utils.Installer.WriteSupervisorConf | getlino/utils.py:205-208 | the file is written into the supervisor directory and supervisor is queued; an abort queues nothing |
| Utils.AptCommands | getlino/utils.py:229-237 | at most one apt command, and none exactly when no package is pending |
| Utils.Installer.RunAptInstall | getlino/utils.py:229-237 | nothing runs when no package is pending; otherwise one apt command names an enumeration of the pending set |
| Commands.AptCommandWords | getlino/utils.py:234-237 | the apt command splits into `apt-get`, `install`, then `-y` exactly in batch mode, then the listed packages in order |
| Utils.AptCommandNamesEachOnce | getlino/utils.py:229-237 | for any enumeration order of the pending set, the apt command names each pending package exactly once and nothing else |
| Text.Words | getlino/utils.py:153 | `split()` yields only non-empty, whitespace-free words |
| Text.WordLength | getlino/utils.py:153 | the leading word ends at the first whitespace character or at the end of the text |
| Text.WordsOfJoin | getlino/utils.py:237 | splitting a space-joined list of words gives the list back |
| Text.WordSetOfJoin | getlino/utils.py:237 | splitting a space-joined list of words gives exactly its elements |
| Utils.InstallCommands | getlino/utils.py:250-257 | the editable pip install comes last; the clone command is there exactly when the directory is absent |
| Utils.Installer.InstallRepo | getlino/utils.py:250-257 | the run is the `RunAll` of those commands: clone (if absent) then pip, stopping at the first failure |
| Utils.Installer.CheckVirtualenv | getlino/utils.py:239-248 | an existing directory returns True and asks nothing; otherwise the answer decides, and the directory is created exactly on a yes |
| Host.Host.NewDir | getlino/utils.py:246 | a new directory has the directory type |
| Host.Host.NewFile | getlino/utils.py:199-200 | a new file is not a directory and holds the written text |
| Utils.StatementCommands | getlino/utils.py:214-222 | each statement becomes one client command, in order |
| Commands.MysqlCommands | getlino/utils.py:214-218 | one MySQL client command per statement, in order |
| Commands.PsqlCommands | getlino/utils.py:220-225 | one psql command per statement, in order |
| Commands.PostgresStatementsWithoutQuotes | getlino/utils.py:223-225 | the PostgreSQL statements contain a double quote only if a name or the password does |
| Utils.FirstQuoted | getlino/utils.py:221 | the position of the first statement holding a double quote |
| Utils.StatementsRunUpToQuote | getlino/utils.py:219-225 | the statements run as one command sequence up to the first one that fails the quote assertion; that one ends the setup and nothing of it runs |
| Utils.QuotedPasswordRunsNothing | getlino/utils.py:219-223 | a PostgreSQL password with a double quote stops the setup before anything runs or is asked |
| Utils.StatementsRunWithoutQuotes | getlino/utils.py:214-225 | statements without double quotes run as one command sequence |
| Utils.MysqlSetupRun | getlino/utils.py:213-218 | the MySQL setup runs its three client commands as one sequence |
| Utils.PostgresSetupRunWithoutQuotes | getlino/utils.py:219-225 | with quote-free names and password, the PostgreSQL setup runs its three psql commands as one sequence |
| Utils.Installer.SetupDatabase | getlino/utils.py:210-227 | the log, the replies and the outcome are those of `SetupRun`: MySQL and PostgreSQL run their statements; SQLite and unknown engines run nothing |
| Utils.Installer.RunStatement | getlino/utils.py:214-222 | one statement: the quote assertion for PostgreSQL, then one `runcmd` |
| Utils.Installer.RunStatements | getlino/utils.py:216-225 | the successive `run` calls stop at the first failure |
| Utils.GroupCheckMeaning | getlino/utils.py:259-268 | the check passes exactly when some group of the process has the name and every group before it is known; it fails naming the group exactly when every group is known and none has the name; any other failure is an unknown group id |
| Utils.Installer.CheckUsergroup | getlino/utils.py:259-268 | root passes; otherwise the loop over the process's groups gives `GroupCheck` |
| Utils.FinishAsNonRoot | getlino/utils.py:270-277 | as non-root `finish` runs nothing and asks nothing |
| Utils.FinishInBatch | getlino/utils.py:279-285 | in batch mode as root, with every command succeeding, `finish` runs the apt commands and then every restart and asks nothing |
| Utils.FinishAsksOnceForRestarts | getlino/utils.py:279-285 | `finish` reads at most one reply per apt command and one for all restarts together |
| Utils.RestartReadsAtMostOnce | getlino/utils.py:280-285 | the restart part reads at most one reply, and none when nothing is queued |
| Utils.FinishLogShape | getlino/utils.py:279-285 | what `finish` runs is a subsequence of its apt commands followed by a prefix of the restarts |
| Commands.RestartCommands | getlino/utils.py:284-285 | one `service {name} restart` per service, in order |
| Commands.RestartCommandInjective | getlino/utils.py:285 | different services get different restart commands |
| Commands.RestartCommandsCount | getlino/utils.py:284-285 | each occurrence of a service gives exactly one occurrence of its restart command |
| Commands.RestartsEachOnce | getlino/utils.py:284-285 | an enumeration of the queued set restarts each service exactly once and nothing else |
| Utils.Installer.Finish | getlino/utils.py:270-285 | the log, the replies and the outcome are `FinishRun` for some enumeration of the pending packages and services; batch mode and the filesystem are unchanged |
| Utils.Installer.RestartServices | getlino/utils.py:280-285 | one question, then every queued service in batch mode, each exactly once |
| Host.FirstDecisive | getlino/utils.py:119-126 | the first key in either set; every earlier key is in neither |
| Host.KeyReplyDecided | getlino/utils.py:119-126 | the key loop answers True exactly after a yes key, False exactly after a no key not in the yes set, and click.Abort exactly when no key decides |
| Host.FirstFailing | getlino/utils.py:148-150 | the first command with a non-zero exit status; every earlier one exits with 0 |
| Host.RunAllInBatch | getlino/utils.py:145-150 | in batch mode no reply is read, the commands run in order, and a checked run stops right after the first failing command |
| Host.RunAllLogsSubsequence | getlino/utils.py:145-150 | whatever the replies, what runs is a subsequence of the commands |
| Host.RunAllReadsAtMostOnePerCommand | getlino/utils.py:145 | a series of `runcmd` calls reads at most one reply per command |
| Host.RunAllAppend | getlino/utils.py:145-150 | running `xs + ys` is running `xs`, then `ys` unless `xs` stopped |
| Host.Enumerate | getlino/utils.py:284 | iterating a set visits each element exactly once |
| Host.Host.constructor | getlino/utils.py:83-86 | the environment starts with the given filesystem, inputs, privilege and groups, an empty log and no configuration file |
| Host.Host.Confirm | getlino/utils.py:145 | `click.confirm` takes the next reply, and click.Abort when none is left |
| Host.Host.GetChar | getlino/utils.py:120 | `click.getchar` takes the next key |
| Host.Host.Shell | getlino/utils.py:147 | the command is logged and returns the oracle's exit status |
| Host.Host.Remove | getlino/utils.py:104-111 | the filesystem becomes `Removed` |
| Host.Host.Chown | getlino/utils.py:170 | only the group of that path changes |
| Host.Host.Chmod | getlino/utils.py:186 | only the permission bits of that path change |
| Host.Host.CreateFile | getlino/utils.py:199-200 | the path now holds a new file with the content |
| Host.Host.MakeDir | getlino/utils.py:246 | the path now holds a new directory |
| Host.Host.SaveConfig | getlino/configure.py:228-229 | the configuration file now holds the map |
| Text.RStrip | getlino/configure.py:221 | the result is a prefix of the text without a trailing separator, and only separators were cut |
| Text.BeforeFirst | getlino.py:451 | the result is a prefix of the text, holds no separator, and is followed by one when it is shorter than the text |
| Text.AfterLast | getlino.py:452 | the result is a suffix of the text, holds no separator, and is preceded by one when it is shorter than the text |
| Text.PathJoin | getlino/utils.py:207 | an absolute second part wins; otherwise the parts are joined with exactly one slash added when the first part has none at its end |
| Text.Lower | getlino/configure.py:249 | ASCII case folding keeps the length, leaves no upper-case ASCII letter and keeps every other character |
| Legacy.Installer.constructor | getlino.py:112-115 | a session starts with the given batch flag and no pending package or service |
| Legacy.Installer.YesOrNo | getlino.py:130-142 | True in batch mode whatever the caller wants; otherwise the key loop as in the newer copy |
| Legacy.ClearOrAbortEffect | getlino.py:117-128 | a completed call leaves the path absent and keeps everything not below it; an aborted call changes nothing; it passes exactly where the newer `check_overwrite` returns True, aborts where that returns False or aborts, and leaves the same filesystem and keys |
| Legacy.ClearOrAbortInBatch | getlino.py:117-128 | in batch mode an existing path is removed without a question and the call never aborts |
| Legacy.Installer.CheckOverwrite | getlino.py:117-128 | the outcome, the filesystem and the keys are those of `ClearOrAbort` |
| Legacy.Installer.Confirm | getlino.py:154 | `batch or click.confirm(...)` |
| Legacy.Installer.MustRestart | getlino.py:144-145 | the service is added to the pending set |
| Legacy.UncheckedRunNeverFails | getlino.py:147-156 | the unchecked runner never fails on an exit status; it ends normally or on click.Abort |
| Legacy.RunCmdRunsIffConfirmed | getlino.py:154-156 | one command runs exactly when batch mode is on or the reply is yes, whatever its exit status |
| Legacy.Installer.RunCmd | getlino.py:147-156 | the log, the replies and the outcome are the unchecked `RunAll` of the one command |
| Legacy.Installer.RunCmds | getlino.py:233-234 | successive unchecked `runcmd` calls, each asking on its own |
| Legacy.Installer.AptInstall | getlino.py:158-160 | the pending set grows by exactly the whitespace-separated words of the argument |
| Legacy.Installer.RunInEnv | getlino.py:162-166 | exactly `. {env}/bin/activate && {cmd}` goes through `runcmd` |
| Legacy.Installer.CheckPermissions | getlino.py:168-192 | the same `PermissionStep` as the newer copy, on that one path |
| Legacy.Installer.ChangeGroup | getlino.py:171-176 | the group half changes exactly what `GroupStep` says |
| Legacy.Installer.ChangeMode | getlino.py:178-192 | the mode half changes exactly what `ModeStep` says |
| Legacy.Installer.WriteSupervisorConf | getlino.py:194-199 | the path is cleared (a refusal aborts), the file is written with no permission check, and supervisor is queued |
| Legacy.UncheckedStatementsNeverFail | getlino.py:201-214 | the unchecked statement sequence ends normally, on click.Abort or on the quote assertion, never on an exit status |
| Legacy.MysqlSetupInBatch | getlino.py:202-207 | in batch mode the MySQL setup runs its three commands in order whatever their exit status |
| Legacy.Installer.SetupDatabase | getlino.py:201-216 | the log, the replies and the outcome are those of `SetupRun` for `mysql`, `pgsql` and anything else |
| Legacy.Installer.RunStatement | getlino.py:203-211 | one statement: the quote assertion for PostgreSQL, then one unchecked `runcmd` |
| Legacy.Installer.RunStatements | getlino.py:205-214 | the successive `run` calls stop at the first failure |
| Legacy.Installer.RunAptInstall | getlino.py:218-226 | nothing runs when no package is pending; otherwise one apt command names an enumeration of the pending set |
| Legacy.FinishInBatch | getlino.py:228-234 | in batch mode `finish` runs the apt command and every restart whatever the exit statuses, with no root check |
| Legacy.FinishRestartsAreSubsequence | getlino.py:228-234 | what `finish` runs is a subsequence of the apt commands followed by a subsequence of the restarts |
| Legacy.Installer.Finish | getlino.py:228-234 | the log, the replies and the outcome are `FinishRun` for some enumeration of the pending packages and services |
| Legacy.Installer.RestartServices | getlino.py:230-234 | one common question, then each queued service once through `runcmd` |
| Legacy.CheckUsergroup | getlino.py:238-242 | True exactly when some group of the process has the name (every group before it known), False exactly when every group is known and none has it, and an unknown group id otherwise |
| Legacy.AppPackageOf | getlino.py:451 | a settings module `pkg.rest` with a dot-free `pkg` gives `pkg` |
| Legacy.RepoNicknameOf | getlino.py:452 | a URL `base/name` with a slash-free `name` gives `name` |
| Configure.DefaultsByPrivilege | getlino/configure.py:109-125 | the engine default is mysql exactly for root and sqlite3 otherwise, and is in the engine table; the repositories base is empty exactly when there is no shared environment; sites live in /usr/local/lino for root and in ~/lino otherwise |
| Configure.Underscored | getlino/configure.py:103 | dashes become underscores and nothing else changes |
| Configure.OptionNameOfFlag | getlino/configure.py:103 | `--some-name` is named `some_name` |
| Configure.OptionNameOfSwitch | getlino/configure.py:103 | `--some-name/--no-some-name` is named `some_name` |
| Configure.Registry.constructor | getlino/configure.py:91 | the option registry starts empty |
| Configure.Registry.Add | getlino/configure.py:94-106 | the option is appended under its click name, with its `root_only` flag, and its default is the configuration file's value when there is one |
| Configure.ResolveOptions | getlino/configure.py:205-223 | the loop computes `Resolve` |
| Configure.ResolveInBatch | getlino/configure.py:205-209 | in batch mode no reply is read and every option is stored as `str(value)` under its name, every other entry kept |
| Configure.ResolveSkipsRootOnly | getlino/configure.py:211-212 | interactively, a non-root user is never asked for a root-only option and its entry stays as it was, or absent |
| Configure.StoredHasNoTrailingSlash | getlino/configure.py:219-223 | a prompted answer is stored without trailing slashes |
| Configure.ResolveStripsSlashes | getlino/configure.py:214-223 | interactively, every entry is kept from before or has no trailing slash |
| Configure.GetBooleanOfStored | getlino/configure.py:209 | what the loop stores for a flag reads back as that flag |
| Configure.GetBooleanMeaning | getlino/configure.py:249 | `getboolean` fails exactly on a present value that is neither a true nor a false word, naming the key and the value, and gives True exactly on a present true word |
| Configure.ReadSwitchesOf | getlino/configure.py:249-269 | the switches read back exactly when none of the five keys holds a value `getboolean` refuses, each switch on exactly when its value is a true word; otherwise the error names the first such key in source order |
| Configure.ReadSwitchesError | getlino/configure.py:249-269 | a failed read names a refused key with no refused key before it |
| Configure.PrepareBaseDir | getlino/configure.py:274-282 | one directory: an absent path is created after a yes (or in batch mode), then `check_permissions` runs on it; the new filesystem, keys, replies and outcome are `BaseDirRun` |
| Configure.DeclinedBaseDirFails | getlino/configure.py:278-282 | an absent directory whose creation is declined makes `check_permissions` fail on the missing path, with nothing created |
| Configure.PrepareBaseDirs | getlino/configure.py:272-283 | `log_base` then `backups_base`, an empty or missing value skipped, the first failure ending the loop; the result is `BaseDirsRun` |
| Configure.BaseDirsKeepPaths | getlino/configure.py:272-283 | no path disappears, and after a passing loop every configured directory exists |
| Configure.BaseDirsInBatch | getlino/configure.py:272-283 | in batch mode the step always passes, reads no key and no reply, and leaves every configured directory present with the usergroup as group and the directory mode; entries already normalized stay so |
| Configure.Conclude | getlino/configure.py:272-292 | the directory step, then `finish`, then the clone check; a non-root session logs nothing; a pass needs the directory step and the clone check to pass and leaves every configured directory present |
| Configure.EnginePackagesOfThree | getlino/configure.py:258-260 | over the three-entry table the requests are the three matches |
| Configure.EnginePackagesByName | getlino/configure.py:258-260 | the database packages are exactly those the table lists for the configured engine, and none for an unknown engine |
| Configure.NginxNotInBase | getlino/configure.py:238-242 | the base packages do not include nginx |
| Configure.NginxNotSwitched | getlino/configure.py:249-270 | no request that depends on the configuration names nginx |
| Configure.NginxOnlyFromServer | getlino/configure.py:238-270 | no request outside the root branch names nginx |
| Configure.RequestRules | getlino/configure.py:238-270 | the server packages (nginx, uwsgi-plugin-python3, logrotate) are all requested exactly for root, and nginx is queued exactly for root; supervisor is queued exactly with appy, and appy requests libreoffice, python3-uno and tidy; nothing but nginx and supervisor is queued |
| Configure.RequestCorePackages | getlino/configure.py:238-242 | the base packages are requested |
| Configure.RequestServerPackages | getlino/configure.py:244-247 | nginx, uwsgi-plugin-python3 and logrotate are requested and nginx is queued |
| Configure.RequestDevPackages | getlino/configure.py:249-250 | swig, graphviz and sqlite3 are requested |
| Configure.RequestSinglePackage | getlino/configure.py:252-256 | the one package is requested |
| Configure.RequestToolPackages | getlino/configure.py:249-256 | the devtools, monit and redis blocks request their packages; the first value that is not a boolean raises |
| Configure.RequestEnginePackages | getlino/configure.py:258-260 | the loop over the table requests exactly the matching engines' packages |
| Configure.RequestAppyPackages | getlino/configure.py:264-267 | libreoffice, python3-uno and tidy are requested and supervisor is queued |
| Configure.RequestLdapPackages | getlino/configure.py:269-270 | slapd and ldap-utils are requested |
| Configure.RequestExtraPackages | getlino/configure.py:264-270 | the appy and ldap blocks request their packages and queue supervisor for appy; the first value that is not a boolean raises |
| Configure.RequestSwitchedPackages | getlino/configure.py:249-270 | the switch-dependent requests are `SwitchedRequests`, or the error of the first non-boolean value |
| Configure.RequestPackages | getlino/configure.py:238-270 | the pending sets grow by exactly `RequestedPackages` and `RequestedServices`, or a non-boolean value raises |
| Configure.EngineLoopAsWrittenRaises | getlino/configure.py:258-262 | as written, the loop raises AttributeError exactly when the configured engine is in the table |
| Configure.DefaultEngineRaisesAsWritten | getlino/configure.py:258-262 | as written, the default engine always makes the loop raise |
| Configure.UpgradeSystem | getlino/configure.py:232-236 | one question (none in batch mode); on a yes, `apt-get update -y` and `apt-get upgrade -y` in batch mode; batch mode is restored |
| Configure.Install | getlino/configure.py:232-292 | a non-root session runs nothing and ends as `NonRootOutcome`: the first non-boolean error, else the first failure of the directory step, else the clone check; a passing session has requested exactly `RequestedPackages` and `RequestedServices` and has every configured log and backup directory present |
| Configure.ConfigureMachine | getlino/configure.py:188-292 | the configuration is `Resolve`; a failed resolution or a declined start writes and runs nothing; an accepted start writes the resolved configuration; a non-root session runs no command and ends as `NonRootOutcome` on the keys left after the start question; a passing session has the configuration saved, the switches readable, the clone check passed, exactly the requested packages and services pending and every configured log and backup directory present |

## Left out

- Subprocesses, apt, git, pip, mysql and psql: a command is its text, logged, with an exit status from the oracle.
- Click's echo output. Click's prompt conversion is left out too: the replies are given already converted.
- The text of the exception messages. The errors are a datatype with the command and the return code, or the group name.
- `configparser` reading and writing: the configuration is a map, and `usergroup` and `supervisor_dir` are parameters.
- `os.geteuid`, `os.getgroups` and `grp`: they are fields of the host.
- The iteration order of Python sets: the methods use some enumeration, and the contracts speak of "each exactly once".
- `os.makedirs` creating parent directories: `Host.Host.MakeDir` adds one node.
- `virtualenv.create_environment` internals: a directory is created.
- `ifroot` and `DB_ENGINES` are data: `Utils.IfRoot` and `Utils.DbEngines`, with no contract of their own.
- The populated registry, the module-level `add(...)` calls: `Utils.Registry.Add` is modelled, not the table.
- `KNOWN_APPS` of `getlino.py`, the table itself.
- The option `add` of `getlino.py` (getlino.py:81-89) and its option table: it is the `add` of `getlino/configure.py` without `root_only`, which is modelled.
- `getlino.py` `configure` and `install`, and the rest of `startsite`: only the two derivations are modelled.
- The access checks of the configuration file in `configure` (getlino/configure.py:192-203). Their directory creation is left out too.
- Configure.PrepareBaseDir: `os.makedirs` is modelled as creating the one directory asked for; missing parent directories are not created as nodes of their own.
- Configure.PrepareBaseDirs: a missing `usergroup` setting is read as the empty group name, where `check_permissions` would pass None; the option loop always stores a `usergroup` value, so this does not arise from `configure` itself. The "Strange" message for an empty value is not modelled.
- Configure.Install: for a root session the contract does not list the commands run. `Configure.UpgradeSystem` and `Utils.Installer.Finish` state them for their parts.
- The `--clone` installation after the shared-environment check (getlino/configure.py:293-314): it calls `clone_repo`, which the installer does not define. `Configure.ConfigureMachine` ends with `Configure.CloneCheck`.
- Everything of `configure` after the clone part (getlino/configure.py:316-391). This covers site directories, settings, bash aliases, logrotate (`write_logrotate_conf` is not defined either), monit, certbot, `mysql_secure_installation` and slapd.
- Click's naming of options is modelled only for declarations of the forms `--name` and `--name/--no-name`, the only forms `configure` uses.
- Configure.OptionName: click also lower-cases the derived name (`.replace('-', '_').lower()`); every declaration of `configure` is already lower-case, so the name is the same, but the lower-casing itself is not modelled.
- Host.Host.Chown and Host.Host.Chmod never fail: the PermissionError of `shutil.chown`/`os.chmod` on a file the user does not own, and the LookupError of `shutil.chown` for an unknown group name, are not modelled.
- Host.Host.CreateFile and Host.Host.MakeDir never fail: the OSError of a missing parent directory or a directory without write permission is not modelled.
- Utils.Installer.CheckPermissions and Legacy.Installer.CheckPermissions: a node's group is held as a name, so the KeyError of `grp.getgrgid` for a group id with no group entry (getlino/utils.py:167, getlino.py:172) is not modelled.
- Host.KeyReply, Utils.Installer.YesOrNo and Legacy.Installer.YesOrNo: the keys '\x03' and '\x04' are read as ordinary keys, whereas `click.getchar` raises on them and click turns that into click.Abort.
- `Configure.ConfigureMachine`: the option values of the command line are the map `cli`; click's type conversion and choice validation are not modelled.
- `Commands.PsqlCommand`: the command text is modelled as written. Python turns `\"` into a plain `"`, so the statement ends up outside the quoted `bash -c` argument. The shell's word splitting is not modelled, so the model does not show what psql receives.

## Findings

| source | as written | input that shows it | evidently intended | confidence | as-written member | corrected member |
|---|---|---|---|---|---|---|
| getlino/configure.py:261 | `if e.service:` on an entry of `DB_ENGINES`, whose named tuple (getlino/utils.py:27-28) has no `service` field | any configuration whose `db_engine` is in the table, e.g. the default `sqlite3` for a non-root batch run: the loop requests the packages, then raises AttributeError | request the engine's packages and restart the engine's service only if it declares one; no entry declares one, so nothing is restarted | high, not executed | Configure.DefaultEngineRaisesAsWritten | Configure.RequestEnginePackages |
