/**
 * The newer revision of class `AWS` (lib/aws.rb): the `aws` command tree
 * with its database verbs connect, create, clone, delete, list, pull, push
 * and status, `instance hostname` and `role launch`.
 */
module Aws {
  import opened Base
  import opened RubyText
  import opened Constants
  import opened Shell
  import opened Credentials
  import opened Polling
  import opened Ec2
  import opened Roles

  /** The handler methods a command line can reach. */
  datatype Handler =
    | DatabaseConnect
    | DatabaseCreate
    | DatabaseClone
    | DatabaseDelete
    | DatabaseList
    | DatabasePull
    | DatabasePush
    | DatabaseStatus
    | InstanceHostname
    | RoleLaunch

  /** The first word that leads to the handler. */
  function Family(h: Handler): string {
    match h
    case InstanceHostname => "instance"
    case RoleLaunch => "role"
    case _ => "database"
  }

  /** The second word that leads to the handler. */
  function Verb(h: Handler): string {
    match h
    case DatabaseConnect => "connect"
    case DatabaseCreate => "create"
    case DatabaseClone => "clone"
    case DatabaseDelete => "delete"
    case DatabaseList => "list"
    case DatabasePull => "pull"
    case DatabasePush => "push"
    case DatabaseStatus => "status"
    case InstanceHostname => "hostname"
    case RoleLaunch => "launch"
  }

  const DATABASE_VERBS: set<string> := {"connect", "create", "clone", "delete", "list", "pull", "push", "status"}

  /** Where a command line goes: a handler with the words after the two that chose it, or a usage text. */
  datatype Destination = Call(handler: Handler, rest: seq<string>) | PrintUsage(lines: seq<string>)

  function TopUsage(script: string): seq<string> {
    ["Usage:",
     "\t" + script + " aws database ...",
     "\t" + script + " aws instance ...",
     "\t" + script + " aws role ..."]
  }

  /** The database usage lists six verbs; clone and list are reachable but not listed. */
  function DatabaseUsage(script: string): seq<string> {
    ["Usage:",
     "\t" + script + " aws database connect ...",
     "\t" + script + " aws database create ...",
     "\t" + script + " aws database delete ...",
     "\t" + script + " aws database pull ...",
     "\t" + script + " aws database push ...",
     "\t" + script + " aws database status ..."]
  }

  function InstanceUsage(script: string): seq<string> {
    ["Usage:", "\t" + script + " aws instance hostname ..."]
  }

  function RoleUsage(script: string): seq<string> {
    ["Usage: " + script + " aws role launch ..."]
  }

  /** `aws_database`, on the words after `database`. */
  function DatabaseRoute(script: string, args: seq<string>): Destination {
    if |args| == 0 then PrintUsage(DatabaseUsage(script))
    else if args[0] == "connect" then Call(DatabaseConnect, args[1..])
    else if args[0] == "create" then Call(DatabaseCreate, args[1..])
    else if args[0] == "clone" then Call(DatabaseClone, args[1..])
    else if args[0] == "delete" then Call(DatabaseDelete, args[1..])
    else if args[0] == "list" then Call(DatabaseList, args[1..])
    else if args[0] == "pull" then Call(DatabasePull, args[1..])
    else if args[0] == "push" then Call(DatabasePush, args[1..])
    else if args[0] == "status" then Call(DatabaseStatus, args[1..])
    else PrintUsage(DatabaseUsage(script))
  }

  /** `aws`, with `aws_instance` and `aws_role`: each level compares its first word and drops it. */
  function Route(script: string, args: seq<string>): (r: Destination)
    ensures r.Call? <==> |args| >= 2 && (
                           (args[0] == "database" && args[1] in DATABASE_VERBS)
                           || (args[0] == "instance" && args[1] == "hostname")
                           || (args[0] == "role" && args[1] == "launch"))
    ensures r.Call? ==> Family(r.handler) == args[0] && Verb(r.handler) == args[1] && r.rest == args[2..]
    ensures r.PrintUsage? ==>
              r.lines == if |args| == 0 then TopUsage(script)
                         else if args[0] == "database" then DatabaseUsage(script)
                         else if args[0] == "instance" then InstanceUsage(script)
                         else if args[0] == "role" then RoleUsage(script)
                         else TopUsage(script)
  {
    if |args| > 0 && args[0] == "database" then
      var r := DatabaseRoute(script, args[1..]);
      assert r.Call? ==> r.rest == args[2..];
      r
    else if |args| > 0 && args[0] == "instance" then
      if |args| > 1 && args[1] == "hostname" then Call(InstanceHostname, args[2..])
      else PrintUsage(InstanceUsage(script))
    else if |args| > 0 && args[0] == "role" then
      if |args| > 1 && args[1] == "launch" then Call(RoleLaunch, args[2..])
      else PrintUsage(RoleUsage(script))
    else PrintUsage(TopUsage(script))
  }

  /** What `parse_aws_error` prints and what its caller prints around it: the stripped document, then the fault string. */
  function ReportFault(w: World, output: string): (r: seq<Event>)
    ensures |r| == 2 && forall e | e in r :: e.Out?
    ensures r[0] == Puts(StripAws(output))
    ensures r[1] == Puts("Error: " + w.faultText(StripAws(output)))
    ensures r[1].text[..7] == "Error: "
  {
    var stripped := StripAws(output);
    [Puts(stripped), Puts("Error: " + w.faultText(stripped))]
  }

  /** An error document without the namespace prefix is printed as it came. */
  lemma FaultDocumentAsItCame(w: World, output: string)
    requires !Contains(output, "aws:")
    ensures ReportFault(w, output)[0] == Puts(output)
  {
    StripAwsWithout(output);
  }

  /**
   * A user from `-u` or the `database` section, then a password from `-p`
   * or the section's `passwordField` field: `password` where the code reads
   * the password, `user` where it reads the user name instead.
   */
  function UserAndPassword(w: World, o: Options, passwordField: string): (r: Result<seq<Fetched>, Error>)
    ensures r.Ok? ==> |r.value| == 2 && Resolve(o.user, w.constants, "user") == Ok(r.value[0])
                      && Resolve(o.password, w.constants, passwordField) == Ok(r.value[1])
    ensures r.Err? <==> Resolve(o.user, w.constants, "user").Err? || Resolve(o.password, w.constants, passwordField).Err?
  {
    ResolveAll([o.user, o.password], w.constants, ["user", passwordField])
  }

  function MissingUser(toolDir: string): Error {
    UserError("Please specify a user on the command line or in " + toolDir + "/constants.yml")
  }

  /** `<INSTANCE>:<DATABASE>` split at the first colon; a missing part raises that part's error. */
  function Endpoint(arg: string, noInstance: string, noDatabase: string): (r: Result<(string, string), Error>)
    ensures r.Ok? <==> ':' in arg
    ensures r.Ok? ==> ':' !in r.value.0 && r.value.0 + ":" + r.value.1 == arg
    ensures arg == [] ==> r == Err(UserError(noInstance))
    ensures arg != [] && ':' !in arg ==> r == Err(UserError(noDatabase))
  {
    var parts := SplitOnce(arg, ':');
    if |parts| == 0 then Err(UserError(noInstance))
    else if |parts| == 1 then Err(UserError(noDatabase))
    else Ok((parts[0], parts[1]))
  }

  const CONNECT_BANNER: string := "Usage: aws database connect <INSTANCE>"

  /** `aws database connect <INSTANCE>`: at least one positional argument, a user, the instance's address, then the mysql prompt. */
  function Connect(w: World, p: Parsed): (t: Trace)
    ensures |p.positional| < 1 ==> t == UsageExit(CONNECT_BANNER)
    ensures |p.positional| >= 1 && UserAndPassword(w, p.options, "password").Err? ==>
              t == Trace([], Raise(UserAndPassword(w, p.options, "password").error))
    ensures |p.positional| >= 1 && UserAndPassword(w, p.options, "password").Ok?
            && IsNil(UserAndPassword(w, p.options, "password").value[0]) ==>
              t == Trace([], Raise(MissingUser(w.toolDir)))
    ensures |p.positional| >= 1 && UserAndPassword(w, p.options, "password").Ok?
            && !IsNil(UserAndPassword(w, p.options, "password").value[0]) && w.describe(p.positional[0]).Fault? ==>
              t == Trace([Run(DescribeDbInstance(p.positional[0]))] + ReportFault(w, w.describe(p.positional[0]).output), Return)
    ensures t.end.Exec? <==>
              |p.positional| >= 1 && UserAndPassword(w, p.options, "password").Ok?
              && !IsNil(UserAndPassword(w, p.options, "password").value[0]) && w.describe(p.positional[0]).Found?
    ensures t.end.Exec? ==>
              var credentials := UserAndPassword(w, p.options, "password").value;
              t.events == [Run(DescribeDbInstance(p.positional[0]))]
              && t.end.command == MysqlPrompt(credentials[0], credentials[1], w.describe(p.positional[0]).address,
                                              p.options.database)
  {
    var args := p.positional;
    if |args| < 1 then UsageExit(CONNECT_BANNER)
    else
      var instance := args[0];
      match UserAndPassword(w, p.options, "password")
      case Err(e) => Trace([], Raise(e))
      case Ok(credentials) =>
        var user := credentials[0];
        if IsNil(user) then Trace([], Raise(MissingUser(w.toolDir)))
        else
          var lookup := [Run(DescribeDbInstance(instance))];
          match w.describe(instance)
          case Fault(output) => Trace(lookup + ReportFault(w, output), Return)
          case Found(_, address) => Trace(lookup, Exec(MysqlPrompt(user, credentials[1], address, p.options.database)))
  }

  const CREATE_BANNER: string := "Usage: aws database create <INSTANCE> <DATABASE> [options]"

  /** `db.m1.<size>`, small unless `--size` was given. */
  function InstanceClass(o: Options): string {
    "db.m1." + o.size.GetOr("small")
  }

  /** Allocated storage in GB, 5 unless `--storage` was given. */
  function Storage(o: Options): int {
    o.storage.GetOr(5)
  }

  /** `options[:multi_az].to_s`. */
  function MultiAz(o: Options): string {
    if o.multiAz then "true" else "false"
  }

  /** Without options the instance is a `db.m1.small` with 5 GB in one availability zone. */
  lemma CreateDefaults(o: Options)
    requires o.size.None? && o.storage.None? && !o.multiAz
    ensures InstanceClass(o) == "db.m1.small" && Storage(o) == 5 && MultiAz(o) == "false"
  {
  }

  /**
   * `aws database create <INSTANCE> <DATABASE>`: exactly two positional
   * arguments, then `--admin_user`, then `--admin_password`. An instance that
   * already answers a describe gets the database (and the grant) added; any
   * other is created.
   */
  function Create(w: World, p: Parsed): (t: Trace)
    ensures |p.positional| != 2 ==> t == UsageExit(CREATE_BANNER)
    ensures |p.positional| == 2 && p.options.adminUser.None? ==>
              t == Trace([], Raise(UserError("Please specify an admin user with --admin_user.")))
    ensures |p.positional| == 2 && p.options.adminUser.Some? && p.options.adminPassword.None? ==>
              t == Trace([], Raise(UserError("Please specify an admin password with --admin_password.")))
    ensures |p.positional| == 2 && p.options.adminUser.Some? && p.options.adminPassword.Some? ==>
              var instance := p.positional[0];
              var o := p.options;
              t.events != [] && t.events[0] == Run(DescribeDbInstance(instance))
              && (w.describe(instance).Found? ==>
                    t == Then([Run(DescribeDbInstance(instance))],
                              AddDatabase(w, w.describe(instance).address, o.adminUser.value, o.adminPassword.value,
                                          p.positional[1], o.user, o.password)))
              && (w.describe(instance).Fault? ==>
                    t == Then([Run(DescribeDbInstance(instance))],
                              CreateInstance(w, instance, Storage(o), InstanceClass(o), o.adminUser.value,
                                             o.adminPassword.value, p.positional[1], MultiAz(o))))
    ensures !t.end.Exec?
  {
    var args := p.positional;
    var o := p.options;
    if |args| != 2 then UsageExit(CREATE_BANNER)
    else
      var instance := args[0];
      var database := args[1];
      if o.adminUser.None? then Trace([], Raise(UserError("Please specify an admin user with --admin_user.")))
      else if o.adminPassword.None? then Trace([], Raise(UserError("Please specify an admin password with --admin_password.")))
      else
        var admin := o.adminUser.value;
        var adminPassword := o.adminPassword.value;
        var lookup := [Run(DescribeDbInstance(instance))];
        match w.describe(instance)
        case Found(_, host) => Then(lookup, AddDatabase(w, host, admin, adminPassword, database, o.user, o.password))
        case Fault(_) =>
          Then(lookup, CreateInstance(w, instance, Storage(o), InstanceClass(o), admin, adminPassword,
                                      database, MultiAz(o)))
  }

  /**
   * The existing-instance branch of create: nothing when the database is
   * already listed; otherwise create it, set its character set, and grant
   * the `--user` (identified by `--password` when given) all privileges.
   */
  function AddDatabase(w: World, host: string, admin: string, adminPassword: string, database: string,
                       user: Option<string>, password: Option<string>): (t: Trace)
    ensures var show := ShowDatabases(host, admin, adminPassword);
            database in Fields(w.run(show).output) ==>
              t == Trace([Run(show), Puts("Instance and database already exists.")], Return)
    ensures var show := ShowDatabases(host, admin, adminPassword);
            database !in Fields(w.run(show).output) ==>
              t.events == [Run(show), Puts("Instance already exists."), Puts("Creating database " + database + "."),
                           Run(CreateDatabase(host, admin, adminPassword, database)),
                           Run(SetCharset(host, admin, adminPassword, database))]
                          + if user.Some? then [Run(GrantAll(host, admin, adminPassword, database, user.value, password))] else []
    ensures t.end == Return
  {
    var show := ShowDatabases(host, admin, adminPassword);
    var databases := Fields(w.run(show).output);
    if database in databases then Trace([Run(show), Puts("Instance and database already exists.")], Return)
    else
      var grant := if user.Some? then [Run(GrantAll(host, admin, adminPassword, database, user.value, password))] else [];
      Trace([Run(show), Puts("Instance already exists."), Puts("Creating database " + database + "."),
             Run(CreateDatabase(host, admin, adminPassword, database)),
             Run(SetCharset(host, admin, adminPassword, database))] + grant,
            Return)
  }

  /**
   * `create_database_instance`: the create command; the wait only when it
   * exited 0; after "available", the address and a connection probe with
   * the master credentials the instance was created with (the call as
   * written is `CheckConnectionAsWritten`).
   */
  function CreateInstance(w: World, instance: string, storage: int, size: string, admin: string,
                          adminPassword: string, database: string, multiAz: string): (t: Trace)
    ensures var create := CreateDbInstance(instance, storage, size, admin, adminPassword, database, multiAz);
            |t.events| >= 2 && t.events[..2] == [Run(create), Puts(w.run(create).output)]
            && (w.run(create).status != 0 ==> t == Trace(t.events[..2], Return))
    ensures var created := w.run(CreateDbInstance(instance, storage, size, admin, adminPassword, database, multiAz));
            (t.end == StillPolling <==> created.status == 0 && Await(Availability, w.polls).Pending?)
            && (t.end.Raise? <==> created.status == 0 && Await(Availability, w.polls).Reached? && w.afterWait.Fault?)
            && (t.end.Raise? ==> t.end.error == AwsError(w.afterWait.output))
    ensures var create := CreateDbInstance(instance, storage, size, admin, adminPassword, database, multiAz);
            var polled := [Run(create), Puts(w.run(create).output)] + WaitEvents(Availability, instance, w.polls);
            w.run(create).status == 0 && Await(Availability, w.polls).Failed? ==>
              t == Trace(polled + ReportFault(w, Await(Availability, w.polls).output), Return)
    ensures var create := CreateDbInstance(instance, storage, size, admin, adminPassword, database, multiAz);
            var polled := [Run(create), Puts(w.run(create).output)] + WaitEvents(Availability, instance, w.polls);
            w.run(create).status == 0 && Await(Availability, w.polls).Pending? ==> t == Trace(polled, StillPolling)
    ensures var create := CreateDbInstance(instance, storage, size, admin, adminPassword, database, multiAz);
            var available := [Run(create), Puts(w.run(create).output)] + WaitEvents(Availability, instance, w.polls)
                             + [Puts("\rDatabase is now available."), Run(DescribeDbInstance(instance))];
            w.run(create).status == 0 && Await(Availability, w.polls).Reached? ==>
              (w.afterWait.Fault? ==> t == Trace(available, Raise(AwsError(w.afterWait.output))))
              && (w.afterWait.Found? ==> t == Then(available, CheckConnection(w, w.afterWait.address, admin, adminPassword)))
  {
    var create := CreateDbInstance(instance, storage, size, admin, adminPassword, database, multiAz);
    var answer := w.run(create);
    var started := [Run(create), Puts(answer.output)];
    if answer.status != 0 then Trace(started, Return)
    else
      var polled := started + WaitEvents(Availability, instance, w.polls);
      match Await(Availability, w.polls)
      case Pending => Trace(polled, StillPolling)
      case Failed(output, _) => Trace(polled + ReportFault(w, output), Return)
      case Reached(_) =>
        var available := polled + [Puts("\rDatabase is now available."), Run(DescribeDbInstance(instance))];
        match w.afterWait
        case Fault(output) => Trace(available, Raise(AwsError(output)))
        case Found(_, host) => Then(available, CheckConnection(w, host, admin, adminPassword))
  }

  /** `check_database_connection`: a `select 1` through mysql, reporting OK or the failure output. */
  function CheckConnection(w: World, host: string, admin: string, adminPassword: string): (t: Trace)
    ensures var answer := w.run(ProbeInstance(host, admin, adminPassword));
            |t.events| >= 3
            && t.events[..2] == [Out("\nAttempting to connect to the instance ... "), Run(ProbeInstance(host, admin, adminPassword))]
            && (answer.status == 0 <==> t.events[2..] == [Out("OK\n")])
            && (answer.status != 0 ==> t.events[2..] == [Out("Failed\n"), Out(answer.output)])
    ensures t.end == Return
  {
    var probe := ProbeInstance(host, admin, adminPassword);
    var answer := w.run(probe);
    var attempt := [Out("\nAttempting to connect to the instance ... "), Run(probe)];
    if answer.status == 0 then Trace(attempt + [Out("OK\n")], Return)
    else Trace(attempt + [Out("Failed\n"), Out(answer.output)], Return)
  }

  /**
   * The last line of `create_database_instance` as written: it passes `user`
   * and `password`, names that method does not define, so Ruby raises
   * NameError for `user` before any probe is made.
   */
  function CheckConnectionAsWritten(host: string): (t: Trace)
    ensures t.events == [] && t.end == Raise(NameError("user"))
  {
    Trace([], Raise(NameError("user")))
  }

  /** As written, a create that reaches "available" never probes the instance; corrected, it always does. */
  lemma CheckConnectionAsWrittenNeverProbes(w: World, host: string, admin: string, adminPassword: string)
    ensures Quiet(CheckConnectionAsWritten(host)) && CheckConnectionAsWritten(host).end.Raise?
    ensures Run(ProbeInstance(host, admin, adminPassword)) in CheckConnection(w, host, admin, adminPassword).events
    ensures CheckConnection(w, host, admin, adminPassword).end == Return
  {
    assert CheckConnection(w, host, admin, adminPassword).events[1] == Run(ProbeInstance(host, admin, adminPassword));
  }

  const CLONE_BANNER: string :=
    "Usage: aws database clone <SOURCE_INSTANCE>:<SOURCE_DATABASE> <TARGET_INSTANCE>:<TARGET_DATABASE> [options]"

  const SAME_ENDPOINTS: string := "Source and target cannot be the same."

  /**
   * The end of clone, once both endpoints are known and a user resolved:
   * the source address looked up, then the target's, then the tables
   * copied; a failed describe is reported and ends the command.
   */
  function CloneTablesBetween(w: World, user: Fetched, password: Fetched, from: (string, string), to: (string, string)): (t: Trace)
    ensures w.describe(from.0).Fault? ==>
              t == Trace([Run(DescribeDbInstance(from.0))] + ReportFault(w, w.describe(from.0).output), Return)
    ensures w.describe(from.0).Found? && w.describe(to.0).Fault? ==>
              t == Trace([Run(DescribeDbInstance(from.0)), Run(DescribeDbInstance(to.0))]
                         + ReportFault(w, w.describe(to.0).output), Return)
    ensures w.describe(from.0).Found? && w.describe(to.0).Found? ==>
              t == Trace([Run(DescribeDbInstance(from.0)), Run(DescribeDbInstance(to.0)),
                          Run(CloneTables(user, password, w.describe(from.0).address, from.1,
                                          w.describe(to.0).address, to.1))], Return)
  {
    var sourceLookup := [Run(DescribeDbInstance(from.0))];
    match w.describe(from.0)
    case Fault(output) => Trace(sourceLookup + ReportFault(w, output), Return)
    case Found(_, sourceAddress) =>
      var lookups := sourceLookup + [Run(DescribeDbInstance(to.0))];
      match w.describe(to.0)
      case Fault(output) => Trace(lookups + ReportFault(w, output), Return)
      case Found(_, targetAddress) =>
        Trace(lookups + [Run(CloneTables(user, password, sourceAddress, from.1, targetAddress, to.1))], Return)
  }

  function SourceEndpoint(arg: string): Result<(string, string), Error> {
    Endpoint(arg, "Please specify a source RDS instance.", "Please specify a source database.")
  }

  function TargetEndpoint(arg: string): Result<(string, string), Error> {
    Endpoint(arg, "Please specify a target RDS instance.", "Please specify a target database.")
  }

  /**
   * `aws database clone SOURCE TARGET`: exactly two arguments; the
   * credentials resolved; two `<INSTANCE>:<DATABASE>` arguments checked
   * source first, instance before database; identical endpoints rejected;
   * a user required; then `CloneTablesBetween`. The password falls back to
   * the `passwordField` field of the `database` section: the code as
   * written reads `user` there, the corrected code `password` (see the
   * findings).
   */
  function Clone(w: World, p: Parsed, passwordField: string): (t: Trace)
    ensures |p.positional| != 2 ==> t == UsageExit(CLONE_BANNER)
    ensures |p.positional| == 2 && UserAndPassword(w, p.options, passwordField).Err? ==>
              t == Trace([], Raise(UserAndPassword(w, p.options, passwordField).error))
    ensures |p.positional| == 2 && UserAndPassword(w, p.options, passwordField).Ok? && SourceEndpoint(p.positional[0]).Err? ==>
              t == Trace([], Raise(SourceEndpoint(p.positional[0]).error))
    ensures |p.positional| == 2 && UserAndPassword(w, p.options, passwordField).Ok? && SourceEndpoint(p.positional[0]).Ok?
            && TargetEndpoint(p.positional[1]).Err? ==>
              t == Trace([], Raise(TargetEndpoint(p.positional[1]).error))
    ensures |p.positional| == 2 && UserAndPassword(w, p.options, passwordField).Ok? && SourceEndpoint(p.positional[0]).Ok?
            && TargetEndpoint(p.positional[1]).Ok? ==>
              var credentials := UserAndPassword(w, p.options, passwordField).value;
              var from := SourceEndpoint(p.positional[0]).value;
              var to := TargetEndpoint(p.positional[1]).value;
              t == if from == to then Trace([], Raise(UserError(SAME_ENDPOINTS)))
                   else if IsNil(credentials[0]) then Trace([], Raise(MissingUser(w.toolDir)))
                   else CloneTablesBetween(w, credentials[0], credentials[1], from, to)
    ensures !t.end.Exec?
  {
    var args := p.positional;
    if |args| != 2 then UsageExit(CLONE_BANNER)
    else
      match UserAndPassword(w, p.options, passwordField)
      case Err(e) => Trace([], Raise(e))
      case Ok(credentials) =>
        match SourceEndpoint(args[0])
        case Err(e) => Trace([], Raise(e))
        case Ok(from) =>
          match TargetEndpoint(args[1])
          case Err(e) => Trace([], Raise(e))
          case Ok(to) =>
            if from == to then Trace([], Raise(UserError(SAME_ENDPOINTS)))
            else if IsNil(credentials[0]) then Trace([], Raise(MissingUser(w.toolDir)))
            else CloneTablesBetween(w, credentials[0], credentials[1], from, to)
  }

  /** Two arguments that differ as strings name different endpoints. */
  lemma DistinctEndpoints(source: string, target: string)
    requires ':' in source && ':' in target && source != target
    ensures SourceEndpoint(source).value != TargetEndpoint(target).value
  {
  }

  /**
   * As written, clone without `-p` copies the tables with the configured
   * user name as the password; corrected, with the configured password.
   */
  lemma CloneAsWrittenSendsUser(w: World, p: Parsed, user: string, password: string)
    requires |p.positional| == 2 && p.options.user.None? && p.options.password.None?
    requires w.constants == Constant(map["database" := Hash(map["user" := Str(user), "password" := Str(password)])])
    requires ':' in p.positional[0] && ':' in p.positional[1] && p.positional[0] != p.positional[1]
    ensures Clone(w, p, "user") == CloneTablesBetween(w, Plain(Str(user)), Plain(Str(user)),
                                                      SourceEndpoint(p.positional[0]).value, TargetEndpoint(p.positional[1]).value)
    ensures Clone(w, p, "password") == CloneTablesBetween(w, Plain(Str(user)), Plain(Str(password)),
                                                          SourceEndpoint(p.positional[0]).value, TargetEndpoint(p.positional[1]).value)
  {
    assert Resolve(None, w.constants, "user") == Ok(Plain(Str(user)));
    assert Resolve(None, w.constants, "password") == Ok(Plain(Str(password)));
    DistinctEndpoints(p.positional[0], p.positional[1]);
  }

  /**
   * `aws database list`: the describe of every instance; a non-zero exit
   * raises with its output, otherwise each instance's databases are listed.
   */
  function List(w: World, p: Parsed): (t: Trace)
    ensures t.events != [] && t.events[0] == Run(DescribeDbInstances)
    ensures t.end.Raise? <==> w.run(DescribeDbInstances).status != 0
    ensures t.end.Raise? ==> t.end.error == AwsError(w.run(DescribeDbInstances).output) && |t.events| == 1
    ensures !t.end.Raise? ==> t.end == Return
  {
    var listing := w.run(DescribeDbInstances);
    if listing.status != 0 then Trace([Run(DescribeDbInstances)], Raise(AwsError(listing.output)))
    else
      Trace([Run(DescribeDbInstances),
             Run(ListDatabases(OptionValue(p.options.user), OptionValue(p.options.password), listing.output))],
            Return)
  }

  const PULL_BANNER: string := "Usage: aws database pull <INSTANCE> <REMOTE DATABASE> <LOCAL DATABASE> <TABLE> [options]"

  /** A local credential is passed to the local mysql only when it is not nil. */
  function UnlessNil(f: Fetched): (r: Option<Fetched>)
    ensures r.None? <==> IsNil(f)
  {
    if IsNil(f) then None else Some(f)
  }

  /** A local credential is passed to the local mysqldump only when it is truthy. */
  function IfTruthy(f: Fetched): (r: Option<Fetched>)
    ensures r.Some? <==> Truthy(f)
  {
    if Truthy(f) then Some(f) else None
  }

  /** Pull's four credentials, in the order `pull` reads them. */
  function PullCredentials(w: World, o: Options): Result<seq<Fetched>, Error> {
    ResolveAll([o.user, o.password, o.localUser, o.localPassword], w.constants,
               ["user", "password", "local_user", "local_password"])
  }

  /**
   * `aws database pull INSTANCE REMOTE LOCAL TABLE`: one remote table dumped
   * into a local database, after the credentials, a non-nil user and the
   * instance's address.
   */
  function Pull(w: World, p: Parsed): (t: Trace)
    ensures |p.positional| != 4 ==> t == UsageExit(PULL_BANNER)
    ensures |p.positional| == 4 && PullCredentials(w, p.options).Err? ==>
              t == Trace([], Raise(PullCredentials(w, p.options).error))
    ensures |p.positional| == 4 && PullCredentials(w, p.options).Ok? && IsNil(PullCredentials(w, p.options).value[0]) ==>
              t == Trace([], Raise(MissingUser(w.toolDir)))
    ensures |p.positional| == 4 && PullCredentials(w, p.options).Ok? && !IsNil(PullCredentials(w, p.options).value[0])
            && w.describe(p.positional[0]).Fault? ==>
              t == Trace([Run(DescribeDbInstance(p.positional[0]))] + ReportFault(w, w.describe(p.positional[0]).output), Return)
    ensures t.end.Exec? <==>
              |p.positional| == 4 && PullCredentials(w, p.options).Ok? && !IsNil(PullCredentials(w, p.options).value[0])
              && w.describe(p.positional[0]).Found?
    ensures t.end.Exec? ==>
              var args := p.positional;
              var credentials := PullCredentials(w, p.options).value;
              t.events == [Run(DescribeDbInstance(args[0]))]
              && t.end.command == PullTable(credentials[0], credentials[1], w.describe(args[0]).address, args[1], args[3],
                                            UnlessNil(credentials[2]), UnlessNil(credentials[3]), args[2])
  {
    var args := p.positional;
    if |args| != 4 then UsageExit(PULL_BANNER)
    else
      var instance := args[0];
      var sourceDatabase := args[1];
      var targetDatabase := args[2];
      var table := args[3];
      match PullCredentials(w, p.options)
      case Err(e) => Trace([], Raise(e))
      case Ok(credentials) =>
        var user := credentials[0];
        if IsNil(user) then Trace([], Raise(MissingUser(w.toolDir)))
        else
          var lookup := [Run(DescribeDbInstance(instance))];
          match w.describe(instance)
          case Fault(output) => Trace(lookup + ReportFault(w, output), Return)
          case Found(_, address) =>
            Trace(lookup, Exec(PullTable(user, credentials[1], address, sourceDatabase, table,
                                         UnlessNil(credentials[2]), UnlessNil(credentials[3]), targetDatabase)))
  }

  const PUSH_BANNER: string := "Usage: aws database push <LOCAL DATABASE> <INSTANCE>:<REMOTE DATABASE> <TABLE> [options]"

  function MissingRemoteUser(toolDir: string): Error {
    UserError("Please specify a remote user on the command line or in " + toolDir + "/constants.yml")
  }

  /** Push's target, split at its colon. */
  function PushTarget(args: seq<string>): Result<(string, string), Error>
    requires |args| == 3
  {
    Endpoint(args[1], "Please specify an RDS instance.", "Please specify an target database.")
  }

  /** Push's local credentials: `--local-user` and `--local-password` or their settings. */
  function LocalCredentials(w: World, o: Options): Result<seq<Fetched>, Error> {
    ResolveAll([o.localUser, o.localPassword], w.constants, ["local_user", "local_password"])
  }

  /** Push once target and remote user are settled: the local credentials, the address, then the load. */
  function PushTo(w: World, p: Parsed, instance: string, targetDatabase: string, remote: seq<Fetched>): (t: Trace)
    requires |p.positional| == 3 && |remote| == 2
    ensures LocalCredentials(w, p.options).Err? ==> t == Trace([], Raise(LocalCredentials(w, p.options).error))
    ensures LocalCredentials(w, p.options).Ok? && w.describe(instance).Fault? ==>
              t == Trace([Run(DescribeDbInstance(instance))] + ReportFault(w, w.describe(instance).output), Return)
    ensures t.end.Exec? <==> LocalCredentials(w, p.options).Ok? && w.describe(instance).Found?
    ensures t.end.Exec? ==>
              var local := LocalCredentials(w, p.options).value;
              t.events == [Run(DescribeDbInstance(instance))]
              && t.end.command == PushTable(IfTruthy(local[0]), IfTruthy(local[1]), p.positional[0], p.positional[2],
                                            remote[0], remote[1], w.describe(instance).address, targetDatabase)
  {
    match LocalCredentials(w, p.options)
    case Err(e) => Trace([], Raise(e))
    case Ok(local) =>
      var lookup := [Run(DescribeDbInstance(instance))];
      match w.describe(instance)
      case Fault(output) => Trace(lookup + ReportFault(w, output), Return)
      case Found(_, address) =>
        Trace(lookup, Exec(PushTable(IfTruthy(local[0]), IfTruthy(local[1]), p.positional[0], p.positional[2],
                                     remote[0], remote[1], address, targetDatabase)))
  }

  /**
   * `aws database push LOCAL INSTANCE:REMOTE TABLE`: the target split
   * first, then the remote user required, then one local table loaded into
   * the remote database.
   */
  function Push(w: World, p: Parsed): (t: Trace)
    ensures |p.positional| != 3 ==> t == UsageExit(PUSH_BANNER)
    ensures |p.positional| == 3 && p.positional[1] == [] ==>
              t == Trace([], Raise(UserError("Please specify an RDS instance.")))
    ensures |p.positional| == 3 && p.positional[1] != [] && ':' !in p.positional[1] ==>
              t == Trace([], Raise(UserError("Please specify an target database.")))
    ensures |p.positional| == 3 && ':' in p.positional[1] && UserAndPassword(w, p.options, "password").Err? ==>
              t == Trace([], Raise(UserAndPassword(w, p.options, "password").error))
    ensures |p.positional| == 3 && ':' in p.positional[1] && UserAndPassword(w, p.options, "password").Ok?
            && IsNil(UserAndPassword(w, p.options, "password").value[0]) ==>
              t == Trace([], Raise(MissingRemoteUser(w.toolDir)))
    ensures |p.positional| == 3 && ':' in p.positional[1] && UserAndPassword(w, p.options, "password").Ok?
            && !IsNil(UserAndPassword(w, p.options, "password").value[0]) ==>
              var (instance, database) := PushTarget(p.positional).value;
              t == PushTo(w, p, instance, database, UserAndPassword(w, p.options, "password").value)
    ensures t.end.Exec? <==>
              |p.positional| == 3 && ':' in p.positional[1] && UserAndPassword(w, p.options, "password").Ok?
              && !IsNil(UserAndPassword(w, p.options, "password").value[0]) && LocalCredentials(w, p.options).Ok?
              && w.describe(PushTarget(p.positional).value.0).Found?
  {
    var args := p.positional;
    if |args| != 3 then UsageExit(PUSH_BANNER)
    else
      match PushTarget(args)
      case Err(e) => Trace([], Raise(e))
      case Ok(target) =>
        var (instance, targetDatabase) := target;
        match UserAndPassword(w, p.options, "password")
        case Err(e) => Trace([], Raise(e))
        case Ok(remote) =>
          if IsNil(remote[0]) then Trace([], Raise(MissingRemoteUser(w.toolDir)))
          else PushTo(w, p, instance, targetDatabase, remote)
  }

  const STATUS_BANNER: string := "Usage: aws database status <INSTANCE>"

  /** `aws database status <INSTANCE>`: the status a describe reports, or the parsed error. */
  function Status(w: World, p: Parsed): (t: Trace)
    ensures |p.positional| != 1 ==> t == UsageExit(STATUS_BANNER)
    ensures |p.positional| == 1 ==>
              var d := w.describe(p.positional[0]);
              t.end == Return
              && t.events == [Run(DescribeDbInstance(p.positional[0]))]
                             + if d.Found? then [Puts(d.status)] else ReportFault(w, d.output)
  {
    var args := p.positional;
    if |args| != 1 then UsageExit(STATUS_BANNER)
    else
      var instance := args[0];
      match w.describe(instance)
      case Found(status, _) => Trace([Run(DescribeDbInstance(instance)), Puts(status)], Return)
      case Fault(output) => Trace([Run(DescribeDbInstance(instance))] + ReportFault(w, output), Return)
  }

  /** The handler reached by a route, on the words after its two. */
  function Perform(w: World, h: Handler, rest: seq<string>): Trace {
    match h
    case DatabaseConnect => Connect(w, w.parse(rest))
    case DatabaseCreate => Create(w, w.parse(rest))
    case DatabaseClone => Clone(w, w.parse(rest), "password")
    case DatabaseDelete => DeleteInstance(w, w.parse(rest).positional)
    case DatabaseList => List(w, w.parse(rest))
    case DatabasePull => Pull(w, w.parse(rest))
    case DatabasePush => Push(w, w.parse(rest))
    case DatabaseStatus => Status(w, w.parse(rest))
    case InstanceHostname => HostnameCommand(w, rest)
    case RoleLaunch => Launch(w.script, rest)
  }

  /** `aws_database` on the words after `database`: each verb runs its handler on the words after it. */
  function Database(w: World, args: seq<string>): (t: Trace)
    ensures |args| >= 1 && args[0] == "connect" ==> t == Connect(w, w.parse(args[1..]))
    ensures |args| >= 1 && args[0] == "create" ==> t == Create(w, w.parse(args[1..]))
    ensures |args| >= 1 && args[0] == "clone" ==> t == Clone(w, w.parse(args[1..]), "password")
    ensures |args| >= 1 && args[0] == "delete" ==> t == DeleteInstance(w, w.parse(args[1..]).positional)
    ensures |args| >= 1 && args[0] == "list" ==> t == List(w, w.parse(args[1..]))
    ensures |args| >= 1 && args[0] == "pull" ==> t == Pull(w, w.parse(args[1..]))
    ensures |args| >= 1 && args[0] == "push" ==> t == Push(w, w.parse(args[1..]))
    ensures |args| >= 1 && args[0] == "status" ==> t == Status(w, w.parse(args[1..]))
    ensures args == [] || args[0] !in DATABASE_VERBS ==> t == Trace(PutsEach(DatabaseUsage(w.script)), Return)
  {
    if args == [] then Trace(PutsEach(DatabaseUsage(w.script)), Return)
    else
      var verb, rest := args[0], args[1..];
      if verb == "connect" then Connect(w, w.parse(rest))
      else if verb == "create" then Create(w, w.parse(rest))
      else if verb == "clone" then Clone(w, w.parse(rest), "password")
      else if verb == "delete" then DeleteInstance(w, w.parse(rest).positional)
      else if verb == "list" then List(w, w.parse(rest))
      else if verb == "pull" then Pull(w, w.parse(rest))
      else if verb == "push" then Push(w, w.parse(rest))
      else if verb == "status" then Status(w, w.parse(rest))
      else Trace(PutsEach(DatabaseUsage(w.script)), Return)
  }

  /**
   * `AWS#aws` on the command line's words after `aws`: `database` goes to
   * `Database`, `instance hostname` and `role launch` to their handlers on
   * the words after the second; any other line prints the usage of the
   * level it reached.
   */
  function Handle(w: World, args: seq<string>): (t: Trace)
    ensures |args| >= 1 && args[0] == "database" ==> t == Database(w, args[1..])
    ensures |args| >= 2 && args[0] == "instance" && args[1] == "hostname" ==> t == HostnameCommand(w, args[2..])
    ensures |args| >= 2 && args[0] == "role" && args[1] == "launch" ==> t == Launch(w.script, args[2..])
    ensures args == [] || args[0] !in {"database", "instance", "role"} ==> t == Trace(PutsEach(TopUsage(w.script)), Return)
    ensures |args| >= 1 && args[0] == "instance" && (|args| == 1 || args[1] != "hostname") ==>
              t == Trace(PutsEach(InstanceUsage(w.script)), Return)
    ensures |args| >= 1 && args[0] == "role" && (|args| == 1 || args[1] != "launch") ==>
              t == Trace(PutsEach(RoleUsage(w.script)), Return)
  {
    if |args| > 0 && args[0] == "database" then Database(w, args[1..])
    else if |args| > 0 && args[0] == "instance" then
      if |args| > 1 && args[1] == "hostname" then HostnameCommand(w, args[2..])
      else Trace(PutsEach(InstanceUsage(w.script)), Return)
    else if |args| > 0 && args[0] == "role" then
      if |args| > 1 && args[1] == "launch" then Launch(w.script, args[2..])
      else Trace(PutsEach(RoleUsage(w.script)), Return)
    else Trace(PutsEach(TopUsage(w.script)), Return)
  }

  /** Every database line does what its route says. */
  lemma DatabaseFollowsRoute(w: World, args: seq<string>)
    ensures Database(w, args) == match DatabaseRoute(w.script, args) {
              case PrintUsage(lines) => Trace(PutsEach(lines), Return)
              case Call(h, rest) => Perform(w, h, rest)
            }
  {
    if args != [] && args[0] in DATABASE_VERBS {
      var r := DatabaseRoute(w.script, args);
      assert r.Call? && r.rest == args[1..] && Verb(r.handler) == args[0];
      assert Perform(w, r.handler, args[1..]) == Database(w, args);
    }
  }

  /** Every command line does what its route says: the usage lines printed, or the handler run on the remaining words. */
  lemma HandleFollowsRoute(w: World, args: seq<string>)
    ensures Handle(w, args) == match Route(w.script, args) {
              case PrintUsage(lines) => Trace(PutsEach(lines), Return)
              case Call(h, rest) => Perform(w, h, rest)
            }
  {
    if |args| > 0 && args[0] == "database" {
      DatabaseFollowsRoute(w, args[1..]);
      if |args| > 1 {
        assert args[1..][1..] == args[2..];
      }
    }
  }

  /** A command line that reaches no handler prints usage and runs nothing. */
  lemma UsageRunsNothing(w: World, args: seq<string>)
    requires Route(w.script, args).PrintUsage?
    ensures Quiet(Handle(w, args))
  {
    HandleFollowsRoute(w, args);
  }

  /** Each database verb reaches its handler, on the words after it. */
  lemma DatabaseVerbsReachHandlers(w: World, verb: string, rest: seq<string>)
    requires verb in DATABASE_VERBS
    ensures var r := Route(w.script, ["database", verb] + rest);
            r.Call? && Family(r.handler) == "database" && Verb(r.handler) == verb && r.rest == rest
  {
    assert (["database", verb] + rest)[2..] == rest;
  }
}
