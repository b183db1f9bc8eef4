# tool: the `aws` command tree, modelled in Dafny

`tool` is a Ruby command-line wrapper around the Amazon RDS and EC2 command-line tools and the
`mysql`/`mysqldump` clients. This project models the `aws` part of the tool. The model covers:

- the command dispatch in both revisions of class `AWS`: `lib/aws.rb`, the newer one, and
  `lib/tool.rb`, the older one;
- the database commands (connect, create, clone, delete, list, pull, push, status), including the
  create and delete wait loops;
- `instance hostname`, which parses the `ec2-describe-instances` listing;
- `role launch`;
- the `database parameter group` commands of `lib/aws_database_parameter_group.rb`;
- the settings lookups of `Tool::Constant` (`lib/constants.rb`).

A handler is a function from its inputs to a `Trace`. A trace records, in order, what the handler
writes to standard output (`puts`/`print`), the option parser's help it prints, the external
commands it runs, and how it ends: return, a returned value, `exit`, an exception, `exec` of a
command, or still polling when the scripted describes run out.

External programs are never modelled as behaviour. Each one is a `Command` value, and a `World`
value supplies everything they answer:

- the answer to `rds-describe-db-instances` for each instance, already reduced to a status and an
  address, or a failure with its output;
- the describes made while waiting, as a finite list;
- the status and output of every other command;
- the `Fault/faultstring` text of an error document;
- the option parser.

Modules and what they model:

| module | file | models |
|---|---|---|
| `Base` | base.dfy | `Option`, `Result` |
| `RubyText` | ruby_text.dfy | the Ruby built-ins the decisions depend on: `split`, `split("\n")`, `split(":", 2)`, `gsub`, `to_i`, `Integer#to_s` |
| `Constants` | constants.dfy | `Tool::Constant`: `method_missing` and `[]` |
| `Shell` | shell.dfy | errors, commands, events, traces, `puts`, and the `gsub!('aws:', '')` of `parse_aws_error` |
| `Credentials` | credentials.dfy | `option \|\| c.database && c.database.<field>` |
| `Polling` | polling.dfy | both wait loops, as a specification function plus a `while` loop proved equal to it; the shared delete command |
| `Ec2` | ec2.dfy | `find_ec2_instances_matching`, as a specification function plus a loop proved equal to it; `get_ec2_instance_hostname`; `aws instance hostname` |
| `Roles` | roles.dfy | `ROLES`, `aws role launch` |
| `Aws` | aws.dfy | `lib/aws.rb` |
| `Tool` | tool.dfy | `lib/tool.rb` |
| `ParameterGroup` | parameter_group.dfy | `lib/aws_database_parameter_group.rb` |

The delete, hostname and role-launch code is identical in the two revisions. Each is modelled once
(`Polling.DeleteInstance`, `Ec2.HostnameCommand`, `Roles.Launch`), and the two revisions differ
only where their code differs. The `Tool.RoutesAgree` lemma states that they route every command
line the same way except `database clone` and `database list`.

## Model

| member | source | states |
|---|---|---|
| `Constants.MethodMissing` | lib/constants.rb:14-21 | A present hash value comes back wrapped as a `Constant` holding the same entries. Any other present value comes back unchanged. An absent name gives nil and does not raise. |
| `Constants.Index` | lib/constants.rb:23-26 | `[]` gives exactly what `method_missing` gives for `key.to_s`, on every key, absent ones included. |
| `Constants.SymbolAndStringKeysAgree` | lib/constants.rb:24 | A symbol key and a string key of the same name find the same setting. |
| `Constants.IntegerKeyIsItsDecimal` | lib/constants.rb:24 | An integer key finds the setting stored under its decimal spelling. |
| `Constants.DefaultIsNilEverywhere` | lib/constants.rb:6-8 | A `Constant` built with the default empty hash answers nil to every lookup, through `[]` and through `method_missing`. |
| `Constants.ChainFollowsNesting` | lib/constants.rb:14-26 | Chained lookups `c.a.b...` go one level deeper into the nested hashes at each call. They give the value found at that path, wrapped when it is a hash. They fail once a step reaches a value that is not a hash. |
| `Constants.Dig` | lib/constants.rb:14-21 | No names give the value itself. A name applied to a value that is not a hash fails. One name applied to a hash gives its entry, or nil when absent. |
| `Constants.Chain` | lib/constants.rb:14-21 | One call gives exactly what `method_missing` gives. A longer chain fails when its first setting is not a hash. |
| `Credentials.Resolve` | lib/aws.rb:105-106 | A given option wins. Without `database` in the constants the result is nil, and a nil or false section gives that value. A hash section gives the field's value, or nil when the field is absent. NoMethodError is raised exactly when the section is truthy but not a hash. |
| `Credentials.ResolveAll` | lib/aws.rb:400-403 | Several credentials are resolved in order. The result succeeds exactly when every lookup succeeds, and then it holds each lookup's value. A failure is the error of the first lookup that fails, every earlier one having succeeded. |
| `Credentials.CommandLineWins` | lib/aws.rb:105 | A given option makes the constants irrelevant. |
| `RubyText.Fields` | lib/aws.rb:599 | `split` yields only non-empty, whitespace-free fields. |
| `RubyText.NoFieldsIffBlank` | lib/aws.rb:599 | `split` yields no field exactly for text made only of whitespace. |
| `RubyText.FieldsOfJoined` | lib/aws.rb:599 | Words joined by any non-empty runs of whitespace, with any whitespace before and after, split back into exactly those words. Tabs, as in the EC2 listing, count like spaces. |
| `RubyText.FieldsOfUnwords` | lib/aws.rb:599 | Splitting words joined by single spaces gives back the same words. |
| `RubyText.Lines` | lib/aws.rb:598 | `split("\n")` yields lines without newlines and drops trailing empty lines. |
| `RubyText.LinesOfUnlines` | lib/aws.rb:598 | Splitting lines joined by newlines gives back the same lines. |
| `RubyText.LinesOfTerminatedUnlines` | lib/aws.rb:598 | The same holds when the text ends with a newline, as command output does. |
| `RubyText.SplitOnce` | lib/aws.rb:247 | `split(":", 2)`: nothing for the empty string. With no colon, the string itself. Otherwise two parts, the first free of colons, which rejoin with a colon to the input. |
| `RubyText.SplitOnceAtFirst` | lib/aws.rb:247 | Splitting at the first separator undoes joining with it. |
| `RubyText.RemoveAll` | lib/aws.rb:536 | `gsub` with a literal pattern never lengthens the text. |
| `RubyText.RemoveAllWithout` | lib/aws.rb:536 | A text without the pattern is left unchanged. |
| `RubyText.RemoveAllFirst` | lib/aws.rb:536 | The first occurrence is removed, the text before it is kept, and removal carries on after it. |
| `RubyText.ToI` | lib/aws.rb:565 | `to_i` skips leading whitespace, an optional sign and an optional base-10 `0d`/`0D` prefix. It is negative only for text whose first non-blank character is `-`. |
| `RubyText.NatToS` | lib/aws.rb:588 | The decimal spelling of a count is a non-empty string of digits. |
| `RubyText.IntToS` | lib/constants.rb:24 | `Integer#to_s` is non-empty, starts with `-` exactly for a negative number, and is otherwise all digits. |
| `RubyText.ToIOfIntToS` | lib/aws.rb:565 | `n.to_s.to_i == n` for every integer. |
| `RubyText.ToIOfPrefixed` | lib/aws.rb:565 | The base-10 prefix is read as Ruby reads it: `("0d" + n.to_s).to_i == n` and `("-0D" + n.to_s).to_i == -n` for every count. |
| `Shell.OptionValue` | lib/aws.rb:350-351 | An absent option interpolates as nil, and a given one as exactly its string. |
| `Shell.PutsText` | lib/aws.rb:617 | `puts` writes the text unchanged exactly when it already ends with a newline, and otherwise the text followed by one newline. |
| `Shell.PutsEach` | lib/aws.rb:45-48 | One `puts` per line, in order. |
| `Shell.StripAws` | lib/aws.rb:536 | The prefix removal never lengthens the error document. |
| `Shell.StripAwsWithout` | lib/aws.rb:536 | A document without `aws:` is left unchanged. |
| `Shell.StripAwsFirst` | lib/aws.rb:536 | The first `aws:` is removed and the text before it is kept. |
| `Shell.StripAwsTwice` | lib/aws.rb:536 | Both prefixes of `<aws:X>...</aws:X>` are removed. |
| `Polling.Await` | lib/aws.rb:620-636 | The wait ends at the first describe that does not continue the loop, and `used` counts the describes made. The create wait fails exactly when that describe failed, with its output. It is pending exactly when every describe continued. |
| `Polling.AwaitStopsAt` | lib/aws.rb:620-636 | A describe that stops the loop after continuing ones decides the outcome. |
| `Polling.WaitFor` | lib/aws.rb:620-636 | The `while` loop, with its spinner counter advanced modulo 4 before each describe. Its outcome is `Await`, and its output is `WaitEvents`. |
| `Polling.WaitEvents` | lib/aws.rb:620-636 | A pending wait prints two events per describe. A stopped one prints two per continuing describe and ends with the run of the describe that stopped it. Every other event, from the first on, is that describe run. |
| `Polling.WaitingLine` | lib/aws.rb:634 | The line starts with a carriage return and the spinner character for the describe's position, and ends with the status in quotes and a full stop. |
| `Polling.AwaitIgnoresLaterPolls` | lib/aws.rb:620-636 | Describes after the one that ended the wait are never made. |
| `Polling.DeletionNeverFails` | lib/aws.rb:305-310 | The delete wait never fails. It ends only at a failed describe, which means the instance is deleted. |
| `Polling.AvailabilityStops` | lib/aws.rb:632 | The create wait reaches its goal only at a describe reporting `available`. |
| `Polling.CreatingThenAvailable` | lib/aws.rb:620-636 | The script creating, creating, available is consumed with exactly 3 describes. It prints two waiting lines, with the spinner at `\|` and then `/`. |
| `Polling.CreatingThenFault` | lib/aws.rb:625-629 | A failed describe while creating ends the wait with that describe's output. |
| `Polling.DeletingThenGone` | lib/aws.rb:300-314 | The script deleting, deleting, failure ends the delete wait after 3 describes. |
| `Polling.DeletionContinuesOnAnyStatus` | lib/aws.rb:305-313 | Any successful describe continues the delete wait, whatever status it reports. |
| `Polling.SpinnerPeriod` | lib/aws.rb:302-303 | The spinner character has period 4 and is `SPINNER[(k + 1) % 4]` at describe `k`. |
| `Polling.WaitingLineOfSpinner` | lib/aws.rb:312 | The waiting line printed with the chosen spinner character is `WaitingLine`. |
| `Polling.PollEventsStep` | lib/aws.rb:300-314 | Each continuing describe adds its run and its waiting line. |
| `Polling.WaitEventsStopped` | lib/aws.rb:300-314 | A wait that a describe stopped prints the continuing polls, then that describe. |
| `Polling.WaitEventsPending` | lib/aws.rb:300-314 | A wait in which every describe continued prints them all. |
| `Polling.PollEvents` | lib/aws.rb:312 | Each continuing describe contributes exactly two events. |
| `Polling.DeleteInstance` | lib/aws.rb:286-314 | Without exactly one argument it prints usage and exits. Otherwise it runs the delete command first. On a non-zero exit it prints only that command's output and returns. The wait runs only after a 0 exit, and its events follow the command's output. A pending wait leaves it still polling. When the wait ends it prints `\rDatabase has been deleted.` and returns. It never raises and never execs. The older revision, lib/tool.rb:211-244, is the same. |
| `Ec2.Token` | lib/aws.rb:600 | `tokens[i]` is nil exactly past the end. |
| `Ec2.Matching` | lib/aws.rb:594-604 | There are no more records than lines. |
| `Ec2.MatchingOne` | lib/aws.rb:600 | One line contributes its record exactly when its first token is `INSTANCE`. |
| `Ec2.MatchingAppend` | lib/aws.rb:598-601 | The records of a listing are those of its parts, in input order. |
| `Ec2.NoInstanceLines` | lib/aws.rb:600 | Lines that are not INSTANCE lines yield no record. |
| `Ec2.OnlyInstanceLine` | lib/aws.rb:598-601 | A listing with one INSTANCE line yields exactly that line's record, whatever surrounds it. |
| `Ec2.RecordOfInstanceLine` | lib/aws.rb:599-600 | A line of `INSTANCE` and at least three more words, separated and surrounded by any whitespace, is an INSTANCE line. Its record holds the second and fourth words as id and public DNS name. |
| `Ec2.MatchingStep` | lib/aws.rb:598-601 | One more line adds its record only if it is an INSTANCE line. |
| `Ec2.FindInstancesMatching` | lib/aws.rb:594-604 | The loop over the listing's lines gives exactly `Matching` of the lines of the describe command's output. |
| `Ec2.Hostname` | lib/aws.rb:586-591 | It succeeds exactly when one instance matched, with that instance's public DNS name unchanged. Otherwise it raises with the count and the name. |
| `Ec2.HostnameOfSingleListing` | lib/aws.rb:586-604 | A listing whose only INSTANCE line has at least four whitespace-separated words gives that line's fourth word, whatever lines surround it. |
| `Ec2.HostnameCommand` | lib/aws.rb:577-591 | Without a name it prints usage. Otherwise it runs only the describe, and returns the DNS name exactly when one instance matched. |
| `Roles.Launch` | lib/aws.rb:564-575 | It never runs a command. It raises exactly when both arguments are present, the count's `to_i` is non-negative and the role is unlisted. It prints only the notice exactly when the role is listed. Otherwise it prints exactly the usage line and returns. |
| `Roles.LaunchAcceptsListedRole` | lib/aws.rb:554-575 | Every listed role with any non-negative count prints the notice. |
| `Roles.LaunchRejectsNegativeCount` | lib/aws.rb:565 | A negative count prints usage, whether or not the role is listed. |
| `Roles.LaunchRejectsPrefixedNegativeCount` | lib/aws.rb:565 | A negative count written with the `0d` prefix, such as `-0d5`, prints usage too. |
| `Aws.Route` | lib/aws.rb:37-77 | A handler is reached exactly for `database` followed by one of the eight verbs, `instance hostname` and `role launch`, with the first two words dropped. Every other command line gets the usage of the level where it stopped. |
| `Aws.Handle` | lib/aws.rb:37-50 | `database` hands the remaining words to `Aws.Database`. `instance hostname` and `role launch` run their handlers on the words after the second. Any other line prints the usage of the level it reached: top, instance or role. |
| `Aws.Database` | lib/aws.rb:52-77 | Each of the eight verbs runs its handler on the words after it, clone with the corrected password field. No verb or any other word prints the database usage. |
| `Aws.DatabaseFollowsRoute` | lib/aws.rb:52-77 | On every database line, `Aws.Database` does what `Aws.DatabaseRoute` says: the usage lines printed, or the routed handler run. |
| `Aws.HandleFollowsRoute` | lib/aws.rb:37-77 | On every command line, `Aws.Handle` does what `Aws.Route` says. |
| `Aws.UsageRunsNothing` | lib/aws.rb:44-49 | A command line that reaches no handler runs no command. |
| `Aws.DatabaseVerbsReachHandlers` | lib/aws.rb:52-68 | Each of the eight database verbs reaches its handler with the words after it. |
| `Aws.ReportFault` | lib/aws.rb:534-541 | A describe fault prints two lines: the error document with `aws:` removed, then `Error: ` and the fault string. Neither runs a command. |
| `Aws.FaultDocumentAsItCame` | lib/aws.rb:536-538 | A document without `aws:` is printed as it came. |
| `Aws.UserAndPassword` | lib/aws.rb:105-106 | The user and then the password are resolved, the password from the given field. The result fails exactly when one of the lookups fails, and otherwise holds both values. |
| `Aws.Endpoint` | lib/aws.rb:247-253 | The result succeeds exactly when the argument holds a colon. The instance part has no colon, and the two parts rejoin to the argument. An empty argument raises the instance error, and one without a colon raises the database error. |
| `Aws.Connect` | lib/aws.rb:98-118 | Without a positional argument it prints usage. A credential error raises, and then a nil user raises, both before anything runs. A failed describe prints the stripped document and the fault string, then returns. It execs exactly when the credentials resolve, the user is not nil and the describe succeeds, after that one describe. The exec uses the resolved user and password, the address and the `-d` database. |
| `Aws.CreateDefaults` | lib/aws.rb:134-155 | Without options the instance is `db.m1.small` with 5 GB, and multi-AZ is `"false"`. |
| `Aws.Create` | lib/aws.rb:171-211 | Without exactly two arguments it prints usage. A missing admin user is reported before a missing admin password, both as raises. Otherwise the instance is described first. A found instance gets the database added, and a failed describe leads to the instance being created. It never execs. |
| `Aws.AddDatabase` | lib/aws.rb:193-208 | A listed database prints only that it exists. Otherwise it creates the database and sets its character set. Then it grants all privileges exactly when `--user` was given, identified by `--password` when that was given. |
| `Aws.CreateInstance` | lib/aws.rb:609-641 | The create command's output is printed, and a non-zero exit returns without waiting. After a 0 exit the wait's events follow. A failed describe during the wait prints the stripped document and the fault string, then returns. A pending wait leaves it still polling. After "available" it prints that line and looks up the address. A failed lookup raises with its output, and a found address goes on to the connection check with the master credentials. |
| `Aws.CheckConnection` | lib/aws.rb:644-654 | It prints the attempt and then runs the probe. It prints `OK` exactly when the probe exits 0, and otherwise `Failed` and the probe's output. |
| `Aws.CheckConnectionAsWritten` | lib/aws.rb:641 | As written, the call raises NameError for `user` and runs nothing. |
| `Aws.CheckConnectionAsWrittenNeverProbes` | lib/aws.rb:640-654 | As written, no probe ever runs. Corrected, the probe always runs and the command returns. |
| `Aws.Clone` | lib/aws.rb:236-267 | Without exactly two arguments it prints usage. Credential errors come first. Then the source is checked, instance before database, then the target. Identical endpoints are rejected, then a nil user raises. Otherwise it continues as `Aws.CloneTablesBetween`. It never execs. |
| `Aws.CloneTablesBetween` | lib/aws.rb:260-267 | The source's address is looked up, then the target's. A failed lookup prints the stripped document and the fault string and returns; a failed source lookup means the target is never looked up. With both addresses the tables are copied with the given user and password. |
| `Aws.DistinctEndpoints` | lib/aws.rb:247-254 | Two different `<INSTANCE>:<DATABASE>` arguments name different endpoints. |
| `Aws.CloneAsWrittenSendsUser` | lib/aws.rb:244-245 | With a configured user and password and no `-p`, the clone as written copies the tables with the user name as the password. Corrected, it uses the configured password. |
| `Aws.List` | lib/aws.rb:337-362 | The describe of all instances runs first, and it raises exactly when that describe exits non-zero, with its output. |
| `Aws.UnlessNil` | lib/aws.rb:416-417 | A local credential is passed exactly when it is not nil. |
| `Aws.IfTruthy` | lib/aws.rb:480-481 | A local credential is passed exactly when it is truthy. |
| `Aws.Pull` | lib/aws.rb:392-419 | Without exactly four arguments it prints usage. A credential error raises, then a nil user raises, both before anything runs. A failed describe prints the stripped document and the fault string, then returns. It execs exactly when the credentials resolve, the user is not nil and the describe succeeds. The exec dumps the remote table into the local database, passing each local credential unless it is nil. |
| `Aws.Push` | lib/aws.rb:450-482 | Without exactly three arguments it prints usage. A missing instance is reported before a missing database. Then a remote-credential error raises, then a nil remote user raises. Otherwise it continues as `Aws.PushTo`. It execs exactly when the target is well formed, both credential sets resolve, the remote user is not nil and the describe succeeds. |
| `Aws.PushTo` | lib/aws.rb:466-482 | A local-credential error raises. A failed describe prints the stripped document and the fault string, then returns. Otherwise, after that describe, it execs the load of the local table into the database after the colon, passing each local credential only if it is truthy. |
| `Aws.Status` | lib/aws.rb:491-502 | With one argument it runs one describe and prints the status, or the stripped error document and the fault string. |
| `Tool.Route` | lib/tool.rb:33-70 | A handler is reached exactly for the six database verbs, `instance hostname` and `role launch`, and never for clone or list. |
| `Tool.RoutesAgree` | lib/tool.rb:48-70 | The two revisions route alike except `database clone` and `database list`. The newer one routes those, and the older one prints the database usage. |
| `Tool.Handle` | lib/tool.rb:33-46 | `database` hands the remaining words to `Tool.Database`. `instance hostname` and `role launch` run their handlers. Any other line prints the usage of the level it reached. |
| `Tool.Database` | lib/tool.rb:48-70 | Each of the six verbs runs its handler on the words after it. No verb or any other word, clone and list included, prints the database usage. |
| `Tool.DatabaseFollowsRoute` | lib/tool.rb:48-70 | On every database line, `Tool.Database` does what `Tool.DatabaseRoute` says. |
| `Tool.HandleFollowsRoute` | lib/tool.rb:33-70 | On every command line, `Tool.Handle` does what `Tool.Route` says. |
| `Tool.ReportFault` | lib/tool.rb:382-389 | The older revision prints the fault line of the newer one, without the error document before it. |
| `Tool.CloneAndListUnknown` | lib/tool.rb:61-69 | In the older revision, `database clone` and `database list` print the database usage and run nothing. |
| `Tool.Connect` | lib/tool.rb:72-106 | Without exactly two arguments it prints usage. A credential error raises, then a nil user raises. A failed describe prints the fault string and returns. It execs exactly when the credentials resolve, the user is not nil and the describe succeeds, into the second argument's database. The password falls back to the given field. |
| `Tool.ConnectAsWrittenSendsUser` | lib/tool.rb:93-94 | With a configured user and password and no `-p`, the connect as written hands mysql the user name as the password. Corrected, it hands it the configured password. |
| `Tool.Create` | lib/tool.rb:109-165 | Without exactly two arguments it prints usage. `--user` is required before `--password`, and these are its only raises. With both it continues as `Tool.CreateInstance` with them as master credentials. It never execs. |
| `Tool.ConnectToDatabase` | lib/tool.rb:190-207 | After the wait, it prints the attempt, then runs the describe. A failed describe prints `Failed` and the fault string. Otherwise it probes the database with the master credentials and reports `OK` or the failure. |
| `Tool.CreateInstance` | lib/tool.rb:157-188 | The create command's output is printed, and a non-zero exit returns without waiting. After a 0 exit the wait's events follow. A failed describe during the wait prints the fault string and returns. A pending wait leaves it still polling. After "available" it prints that line and goes on to `Tool.ConnectToDatabase`. It only ever returns or is still polling. |
| `Tool.Pull` | lib/tool.rb:248-287 | Without exactly four arguments it prints usage. A credential error raises, then a nil user raises. A failed describe prints the fault string and returns. It execs exactly when the credentials resolve, the user is not nil and the describe succeeds. The exec dumps the remote table into the local database with no local credentials. |
| `Tool.Push` | lib/tool.rb:291-330 | Without exactly four arguments it prints the pull usage. A credential error raises, then a nil user raises. A failed describe prints the fault string and returns. It execs exactly when the credentials resolve, the user is not nil and the describe of the second argument succeeds. The exec loads the local table into that instance's third-argument database. |
| `Tool.Status` | lib/tool.rb:339-350 | With one argument it runs one describe and prints the status, or only the fault string. |
| `ParameterGroup.Route` | lib/aws_database_parameter_group.rb:2-11 | An action is chosen exactly for apply, create, display and modify. |
| `ParameterGroup.Handle` | lib/aws_database_parameter_group.rb:2-17 | Each of apply, create, display and modify runs on the words after it. No word or any other word prints the usage lines. |
| `ParameterGroup.UnknownActionRunsNothing` | lib/aws_database_parameter_group.rb:11-17 | An unknown action runs no command. |
| `ParameterGroup.Missing` | lib/aws_database_parameter_group.rb:32-37 | A missing argument prints its message, an empty line and the help, then exits with status 1. |
| `ParameterGroup.RunAndReport` | lib/aws_database_parameter_group.rb:53-58 | The command runs first, and it raises exactly when the command exits non-zero, with its output. Otherwise it prints the output. |
| `ParameterGroup.ApplyGroup` | lib/aws_database_parameter_group.rb:31-58 | A missing instance is reported before a missing group. It exits 1 exactly when one of them is missing, and otherwise modifies the instance. |
| `ParameterGroup.Create` | lib/aws_database_parameter_group.rb:81-115 | The name is checked first, then `--family`, then `--description`. Only the first one missing is reported, and it exits 1 exactly when one is missing. |
| `ParameterGroup.DisplayGroup` | lib/aws_database_parameter_group.rb:130-147 | A name is required, and it exits 1 exactly without one. |
| `ParameterGroup.ParameterSetting` | lib/aws_database_parameter_group.rb:194 | The setting is `name=P, value=V, method=immediate`, each part in place. |
| `ParameterGroup.ParameterSettingInjective` | lib/aws_database_parameter_group.rb:194 | For parameter names of one length, the setting determines the parameter and the value. |
| `ParameterGroup.ParameterSettingCollides` | lib/aws_database_parameter_group.rb:194 | Names of different lengths can give one setting: (`a, value=x`, `y`) and (`a`, `x, value=y`). |
| `ParameterGroup.ModifyChecks` | lib/aws_database_parameter_group.rb:171-190 | The name is checked first, then `--parameter`, then `--value`. Only the first one missing is reported. |
| `ParameterGroup.ModifyAsWritten` | lib/aws_database_parameter_group.rb:192-203 | As written, a complete modify runs the modify command and then `--show-xml` as a separate line. It always raises, with the modify command's output. |
| `ParameterGroup.ModifyGroup` | lib/aws_database_parameter_group.rb:192-203 | Corrected, one modify command with `--show-xml` is run and reported like the other actions. |
| `ParameterGroup.ModifyAsWrittenAlwaysRaises` | lib/aws_database_parameter_group.rb:192-203 | Even when the modify succeeds, the code as written raises, while the corrected one returns. |
| `ParameterGroup.MissingArgumentRunsNothing` | lib/aws_database_parameter_group.rb:32-44 | For every action, an exit with status 1 runs no command and prints exactly the message, an empty line and the help. |

## Left out

- Running the external programs is not modelled: `rds-*`, `mysql`, `mysqldump` and `ec2-describe-instances`, all run through backticks or `exec`. Each is a `Command` value, and its answer comes from the `World`.
- The exact command-line text of each command is not modelled. This covers flags, quoting, line continuations and the conditional `-u`/`-p` parameters that pull and push build; a `Command` records only the values interpolated into it.
- REXML parsing is not modelled. Extracting the status, the address and the fault string from the XML documents is given by the `World` (`describe`, `faultText`). Missing XML elements, which raise NoMethodError in Ruby, and a nil address are therefore not modelled.
- The constructors of both revisions are not modelled: the environment variables, the JAVA_HOME discovery and the checks for the key and certificate files. The tool directory is a given string.
- `Constant.read` is not modelled: reading the file and its ERB and YAML expansion.
- OptionParser is not modelled. Each handler receives the parsed options and the positional arguments from `World.parse`. This covers per-handler flags, `--help` (which prints and exits), `--size` validation and `--storage` conversion. One parse function serves all handlers.
- `Aws.Clone`: the per-table loop, with its `SHOW TABLES`, its messages and the temporary file, is one `CloneTables` command.
- `Aws.List`: the per-instance `SHOW DATABASES` loop and its messages are one `ListDatabases` command over the describe output. The fallback to each instance's master user is inside that command.
- `Polling.WaitFor`: `sleep 0.5` and the terminal's treatment of `\r` are not modelled. The program polls forever while the describes continue; here the describes are a finite list, and running out of them ends the trace in `StillPolling`.
- `Aws.CreateInstance`: the address lookup made when the wait ends is the single `afterWait` describe of the `World`.
- `Aws.CreateInstance`: creation goes on to the corrected probe (see Findings). The as-written NameError is modelled separately by `Aws.CheckConnectionAsWritten`.
- `Aws.Clone`, `Tool.Connect`, `Aws.Database`, `Aws.Handle`, `Tool.Database` and `Tool.Handle`: clone and the older connect take the password field as a parameter. The dispatchers `Aws.Database`/`Aws.Handle` and `Tool.Database`/`Tool.Handle` pass the corrected `password` field through their `Perform`. The as-written `user` field is run only by `Aws.CloneAsWrittenSendsUser` and `Tool.ConnectAsWrittenSendsUser`.
- `ParameterGroup.Handle`: the corrected `ParameterGroup.ModifyGroup` is the one used. The parameter-group dispatch is a separate entry point, because neither `aws_database` routes to it.
- `Ec2.Matching`: its own contract only bounds the record count. The lemmas beside it and `Ec2.FindInstancesMatching` state the rest.

## Findings

| source | as written | input that shows it | evidently intended | confidence | as-written member | corrected member |
|---|---|---|---|---|---|---|
| lib/aws.rb:245 | the clone password fallback reads `@constants.database.user` | constants `database: {user: app, password: secret}` and no `-p`: the password sent is `app` | read `@constants.database.password`, as connect, pull and push do | not executed | `Aws.Clone` with field `user` (`Aws.CloneAsWrittenSendsUser`) | `Aws.Clone` with field `password` (`Aws.CloneAsWrittenSendsUser`) |
| lib/tool.rb:94 | the older connect's password fallback reads `@constants.database.user` | the same constants and no `-p`: mysql gets `-papp` | read `@constants.database.password`, as the older pull and push do | not executed | `Tool.Connect` with field `user` (`Tool.ConnectAsWrittenSendsUser`) | `Tool.Connect` with field `password` (`Tool.ConnectAsWrittenSendsUser`) |
| lib/aws.rb:641 | `check_database_connection(host, user, password)` inside `create_database_instance`, which defines neither name | any create of a new instance whose wait reaches `available`: NameError for `user`, and no probe | probe with the credentials the instance was created with, the admin user and password, as the older revision probes with its master credentials | not executed | `Aws.CheckConnectionAsWritten` (`Aws.CheckConnectionAsWrittenNeverProbes`) | `Aws.CheckConnection` |
| lib/aws_database_parameter_group.rb:194 | the `--parameters` line of the modify heredoc has no trailing backslash | `modify g --parameter p --value v` with a modify that succeeds: the shell then runs `--show-xml` as a command, `$?` is 127, and the command raises | one command line ending in `--show-xml`, as in apply, create and display | not executed | `ParameterGroup.ModifyAsWritten` (`ParameterGroup.ModifyAsWrittenAlwaysRaises`) | `ParameterGroup.ModifyGroup` |
