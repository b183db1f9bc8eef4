/**
 * The older revision of class `AWS` (lib/tool.rb): the same command tree
 * without `database clone` and `database list`, with `--user`/`--password`
 * as the master credentials of a new instance, and a `parse_aws_error`
 * that prints nothing itself.
 */
module Tool {
  import opened Base
  import opened Constants
  import opened Shell
  import opened Credentials
  import opened Polling
  import opened Ec2
  import opened Roles
  import Aws

  const DATABASE_VERBS: set<string> := {"connect", "create", "delete", "pull", "push", "status"}

  /** `aws_database`: six verbs; `clone` and `list` print the usage like any unknown verb. */
  function DatabaseRoute(script: string, args: seq<string>): Aws.Destination {
    if |args| == 0 then Aws.PrintUsage(Aws.DatabaseUsage(script))
    else if args[0] == "connect" then Aws.Call(Aws.DatabaseConnect, args[1..])
    else if args[0] == "create" then Aws.Call(Aws.DatabaseCreate, args[1..])
    else if args[0] == "delete" then Aws.Call(Aws.DatabaseDelete, args[1..])
    else if args[0] == "pull" then Aws.Call(Aws.DatabasePull, args[1..])
    else if args[0] == "push" then Aws.Call(Aws.DatabasePush, args[1..])
    else if args[0] == "status" then Aws.Call(Aws.DatabaseStatus, args[1..])
    else Aws.PrintUsage(Aws.DatabaseUsage(script))
  }

  /** `aws`, with `aws_instance` and `aws_role`. */
  function Route(script: string, args: seq<string>): (r: Aws.Destination)
    ensures r.Call? <==> |args| >= 2 && (
                           (args[0] == "database" && args[1] in DATABASE_VERBS)
                           || (args[0] == "instance" && args[1] == "hostname")
                           || (args[0] == "role" && args[1] == "launch"))
    ensures r.Call? ==>
              Aws.Family(r.handler) == args[0] && Aws.Verb(r.handler) == args[1] && r.rest == args[2..]
              && r.handler != Aws.DatabaseClone && r.handler != Aws.DatabaseList
    ensures r.PrintUsage? ==>
              r.lines == if |args| == 0 then Aws.TopUsage(script)
                         else if args[0] == "database" then Aws.DatabaseUsage(script)
                         else if args[0] == "instance" then Aws.InstanceUsage(script)
                         else if args[0] == "role" then Aws.RoleUsage(script)
                         else Aws.TopUsage(script)
  {
    if |args| > 0 && args[0] == "database" then
      var r := DatabaseRoute(script, args[1..]);
      assert r.Call? ==> r.rest == args[2..];
      r
    else if |args| > 0 && args[0] == "instance" then
      if |args| > 1 && args[1] == "hostname" then Aws.Call(Aws.InstanceHostname, args[2..])
      else Aws.PrintUsage(Aws.InstanceUsage(script))
    else if |args| > 0 && args[0] == "role" then
      if |args| > 1 && args[1] == "launch" then Aws.Call(Aws.RoleLaunch, args[2..])
      else Aws.PrintUsage(Aws.RoleUsage(script))
    else Aws.PrintUsage(Aws.TopUsage(script))
  }

  /**
   * The two revisions route every command line alike, except `database
   * clone` and `database list`, which the older one answers with the
   * database usage.
   */
  lemma RoutesAgree(script: string, args: seq<string>)
    ensures !(|args| >= 2 && args[0] == "database" && args[1] in {"clone", "list"}) ==>
              Route(script, args) == Aws.Route(script, args)
    ensures |args| >= 2 && args[0] == "database" && args[1] in {"clone", "list"} ==>
              Route(script, args) == Aws.PrintUsage(Aws.DatabaseUsage(script))
              && Aws.Route(script, args).Call?
  {
  }

  /** What the older revision prints for an error document: only the fault string. */
  function ReportFault(w: World, output: string): (r: seq<Event>)
    ensures r == Aws.ReportFault(w, output)[1..]
  {
    [Puts("Error: " + w.faultText(StripAws(output)))]
  }

  const MISSING_USER: string := "Please specify a user on the command line or in ~/.tools/constants.yml"

  const CONNECT_BANNER: string := "Usage: aws database connect <INSTANCE> <DATABASE>"

  /**
   * `aws database connect <INSTANCE> <DATABASE>`: exactly two positional
   * arguments, a user, the address, then the mysql prompt on the database.
   * The password falls back to the `passwordField` field of the `database`
   * section: the code as written reads `user` there, the corrected code
   * `password` (see the findings).
   */
  function Connect(w: World, p: Parsed, passwordField: string): (t: Trace)
    ensures |p.positional| != 2 ==> t == UsageExit(CONNECT_BANNER)
    ensures |p.positional| == 2 && Aws.UserAndPassword(w, p.options, passwordField).Err? ==>
              t == Trace([], Raise(Aws.UserAndPassword(w, p.options, passwordField).error))
    ensures |p.positional| == 2 && Aws.UserAndPassword(w, p.options, passwordField).Ok?
            && IsNil(Aws.UserAndPassword(w, p.options, passwordField).value[0]) ==>
              t == Trace([], Raise(UserError(MISSING_USER)))
    ensures |p.positional| == 2 && Aws.UserAndPassword(w, p.options, passwordField).Ok?
            && !IsNil(Aws.UserAndPassword(w, p.options, passwordField).value[0]) && w.describe(p.positional[0]).Fault? ==>
              t == Trace([Run(DescribeDbInstance(p.positional[0]))] + ReportFault(w, w.describe(p.positional[0]).output), Return)
    ensures t.end.Exec? <==>
              |p.positional| == 2 && Aws.UserAndPassword(w, p.options, passwordField).Ok?
              && !IsNil(Aws.UserAndPassword(w, p.options, passwordField).value[0]) && w.describe(p.positional[0]).Found?
    ensures t.end.Exec? ==>
              var credentials := Aws.UserAndPassword(w, p.options, passwordField).value;
              t.events == [Run(DescribeDbInstance(p.positional[0]))]
              && t.end.command == MysqlPrompt(credentials[0], credentials[1], w.describe(p.positional[0]).address,
                                              Some(p.positional[1]))
  {
    var args := p.positional;
    if |args| != 2 then UsageExit(CONNECT_BANNER)
    else
      var instance := args[0];
      var database := args[1];
      match Aws.UserAndPassword(w, p.options, passwordField)
      case Err(e) => Trace([], Raise(e))
      case Ok(credentials) =>
        var user := credentials[0];
        if IsNil(user) then Trace([], Raise(UserError(MISSING_USER)))
        else
          var lookup := [Run(DescribeDbInstance(instance))];
          match w.describe(instance)
          case Fault(output) => Trace(lookup + ReportFault(w, output), Return)
          case Found(_, address) => Trace(lookup, Exec(MysqlPrompt(user, credentials[1], address, Some(database))))
  }

  /**
   * As written, connect without `-p` hands the configured user name to the
   * mysql prompt as the password; corrected, the configured password.
   */
  lemma ConnectAsWrittenSendsUser(w: World, p: Parsed, user: string, password: string)
    requires |p.positional| == 2 && p.options.user.None? && p.options.password.None?
    requires w.constants == Constant(map["database" := Hash(map["user" := Str(user), "password" := Str(password)])])
    requires w.describe(p.positional[0]).Found?
    ensures Connect(w, p, "user").end.Exec? && Connect(w, p, "user").end.command.password == Plain(Str(user))
    ensures Connect(w, p, "password").end.Exec? && Connect(w, p, "password").end.command.password == Plain(Str(password))
  {
    assert Resolve(None, w.constants, "user") == Ok(Plain(Str(user)));
    assert Resolve(None, w.constants, "password") == Ok(Plain(Str(password)));
  }

  /**
   * `aws database create <INSTANCE> <DATABASE>`: exactly two positional
   * arguments, then `--user`, then `--password`, which become the new
   * instance's master credentials; then `CreateInstance`.
   */
  function Create(w: World, p: Parsed): (t: Trace)
    ensures |p.positional| != 2 ==> t == UsageExit(Aws.CREATE_BANNER)
    ensures |p.positional| == 2 && p.options.user.None? ==>
              t == Trace([], Raise(UserError("Please specify a database user using -u or --user.")))
    ensures |p.positional| == 2 && p.options.user.Some? && p.options.password.None? ==>
              t == Trace([], Raise(UserError("Please specify a database password using -p or --password.")))
    ensures |p.positional| == 2 && p.options.user.Some? && p.options.password.Some? ==>
              t == CreateInstance(w, p.positional[0], p.positional[1], p.options.user.value, p.options.password.value, p.options)
    ensures t.end.Raise? ==> t.events == [] && t.end.error.UserError?
    ensures !t.end.Exec?
  {
    var args := p.positional;
    var o := p.options;
    if |args| != 2 then UsageExit(Aws.CREATE_BANNER)
    else if o.user.None? then Trace([], Raise(UserError("Please specify a database user using -u or --user.")))
    else if o.password.None? then Trace([], Raise(UserError("Please specify a database password using -p or --password.")))
    else CreateInstance(w, args[0], args[1], o.user.value, o.password.value, o)
  }

  /**
   * The older create once its arguments are checked: the create command,
   * and the wait and the connection check only when it exited 0; a failed
   * describe during the wait is reported and ends the command.
   */
  function CreateInstance(w: World, instance: string, database: string, user: string, password: string, o: Options): (t: Trace)
    ensures var create := CreateDbInstance(instance, Aws.Storage(o), Aws.InstanceClass(o), user, password, database, Aws.MultiAz(o));
            |t.events| >= 2 && t.events[..2] == [Run(create), Puts(w.run(create).output)]
            && (w.run(create).status != 0 ==> t == Trace(t.events[..2], Return))
    ensures var create := CreateDbInstance(instance, Aws.Storage(o), Aws.InstanceClass(o), user, password, database, Aws.MultiAz(o));
            var polled := [Run(create), Puts(w.run(create).output)] + WaitEvents(Availability, instance, w.polls);
            w.run(create).status == 0 ==>
              (Await(Availability, w.polls).Pending? ==> t == Trace(polled, StillPolling))
              && (Await(Availability, w.polls).Failed? ==>
                    t == Trace(polled + ReportFault(w, Await(Availability, w.polls).output), Return))
              && (Await(Availability, w.polls).Reached? ==>
                    t == Then(polled + [Puts("\rDatabase is now available.")], ConnectToDatabase(w, instance, user, password, database)))
    ensures t.end in {Return, StillPolling}
  {
    var create := CreateDbInstance(instance, Aws.Storage(o), Aws.InstanceClass(o), user, password, database, Aws.MultiAz(o));
    var answer := w.run(create);
    var started := [Run(create), Puts(answer.output)];
    if answer.status != 0 then Trace(started, Return)
    else
      var polled := started + WaitEvents(Availability, instance, w.polls);
      match Await(Availability, w.polls)
      case Pending => Trace(polled, StillPolling)
      case Failed(output, _) => Trace(polled + ReportFault(w, output), Return)
      case Reached(_) =>
        Then(polled + [Puts("\rDatabase is now available.")], ConnectToDatabase(w, instance, user, password, database))
  }

  /**
   * The end of the older create: the address looked up, then a `select 1`
   * on the new database with the master credentials. A failed describe is
   * reported, not raised.
   */
  function ConnectToDatabase(w: World, instance: string, user: string, password: string, database: string): (t: Trace)
    ensures |t.events| >= 3
    ensures t.events[..2] == [Out("\nAttempting to connect to the database ... "), Run(DescribeDbInstance(instance))]
    ensures w.afterWait.Fault? ==>
              t.events[2..] == [Out("Failed\n"), Puts(w.faultText(StripAws(w.afterWait.output)))]
    ensures w.afterWait.Found? ==>
              var probe := ProbeDatabase(w.afterWait.address, user, password, database);
              t.events[2] == Run(probe)
              && (w.run(probe).status == 0 <==> t.events[3..] == [Out("OK\n")])
              && (w.run(probe).status != 0 ==> t.events[3..] == [Out("Failed\n"), Out(w.run(probe).output)])
    ensures t.end == Return
  {
    var attempt := [Out("\nAttempting to connect to the database ... "), Run(DescribeDbInstance(instance))];
    match w.afterWait
    case Fault(output) => Trace(attempt + [Out("Failed\n"), Puts(w.faultText(StripAws(output)))], Return)
    case Found(_, address) =>
      var probe := ProbeDatabase(address, user, password, database);
      var answer := w.run(probe);
      if answer.status == 0 then Trace(attempt + [Run(probe), Out("OK\n")], Return)
      else Trace(attempt + [Run(probe), Out("Failed\n"), Out(answer.output)], Return)
  }

  /** `aws database pull INSTANCE REMOTE LOCAL TABLE`: the table dumped into the local database with no local credentials. */
  function Pull(w: World, p: Parsed): (t: Trace)
    ensures |p.positional| != 4 ==> t == UsageExit(Aws.PULL_BANNER)
    ensures |p.positional| == 4 && Aws.UserAndPassword(w, p.options, "password").Err? ==>
              t == Trace([], Raise(Aws.UserAndPassword(w, p.options, "password").error))
    ensures |p.positional| == 4 && Aws.UserAndPassword(w, p.options, "password").Ok?
            && IsNil(Aws.UserAndPassword(w, p.options, "password").value[0]) ==>
              t == Trace([], Raise(UserError(MISSING_USER)))
    ensures |p.positional| == 4 && Aws.UserAndPassword(w, p.options, "password").Ok?
            && !IsNil(Aws.UserAndPassword(w, p.options, "password").value[0]) && w.describe(p.positional[0]).Fault? ==>
              t == Trace([Run(DescribeDbInstance(p.positional[0]))] + ReportFault(w, w.describe(p.positional[0]).output), Return)
    ensures t.end.Exec? <==>
              |p.positional| == 4 && Aws.UserAndPassword(w, p.options, "password").Ok?
              && !IsNil(Aws.UserAndPassword(w, p.options, "password").value[0]) && w.describe(p.positional[0]).Found?
    ensures t.end.Exec? ==>
              var credentials := Aws.UserAndPassword(w, p.options, "password").value;
              var args := p.positional;
              t.events == [Run(DescribeDbInstance(args[0]))]
              && t.end.command == PullTable(credentials[0], credentials[1], w.describe(args[0]).address,
                                            args[1], args[3], None, None, args[2])
  {
    var args := p.positional;
    if |args| != 4 then UsageExit(Aws.PULL_BANNER)
    else
      var instance := args[0];
      match Aws.UserAndPassword(w, p.options, "password")
      case Err(e) => Trace([], Raise(e))
      case Ok(credentials) =>
        if IsNil(credentials[0]) then Trace([], Raise(UserError(MISSING_USER)))
        else
          var lookup := [Run(DescribeDbInstance(instance))];
          match w.describe(instance)
          case Fault(output) => Trace(lookup + ReportFault(w, output), Return)
          case Found(_, address) =>
            Trace(lookup, Exec(PullTable(credentials[0], credentials[1], address, args[1], args[3], None, None, args[2])))
  }

  /**
   * `aws database push LOCAL INSTANCE REMOTE TABLE`: four positional
   * arguments, with the usage banner of pull; one local table loaded into
   * the remote database.
   */
  function Push(w: World, p: Parsed): (t: Trace)
    ensures |p.positional| != 4 ==> t == UsageExit(Aws.PULL_BANNER)
    ensures |p.positional| == 4 && Aws.UserAndPassword(w, p.options, "password").Err? ==>
              t == Trace([], Raise(Aws.UserAndPassword(w, p.options, "password").error))
    ensures |p.positional| == 4 && Aws.UserAndPassword(w, p.options, "password").Ok?
            && IsNil(Aws.UserAndPassword(w, p.options, "password").value[0]) ==>
              t == Trace([], Raise(UserError(MISSING_USER)))
    ensures |p.positional| == 4 && Aws.UserAndPassword(w, p.options, "password").Ok?
            && !IsNil(Aws.UserAndPassword(w, p.options, "password").value[0]) && w.describe(p.positional[1]).Fault? ==>
              t == Trace([Run(DescribeDbInstance(p.positional[1]))] + ReportFault(w, w.describe(p.positional[1]).output), Return)
    ensures t.end.Exec? <==>
              |p.positional| == 4 && Aws.UserAndPassword(w, p.options, "password").Ok?
              && !IsNil(Aws.UserAndPassword(w, p.options, "password").value[0]) && w.describe(p.positional[1]).Found?
    ensures t.end.Exec? ==>
              var credentials := Aws.UserAndPassword(w, p.options, "password").value;
              var args := p.positional;
              t.events == [Run(DescribeDbInstance(args[1]))]
              && t.end.command == PushTable(None, None, args[0], args[3], credentials[0], credentials[1],
                                            w.describe(args[1]).address, args[2])
  {
    var args := p.positional;
    if |args| != 4 then UsageExit(Aws.PULL_BANNER)
    else
      var instance := args[1];
      match Aws.UserAndPassword(w, p.options, "password")
      case Err(e) => Trace([], Raise(e))
      case Ok(credentials) =>
        if IsNil(credentials[0]) then Trace([], Raise(UserError(MISSING_USER)))
        else
          var lookup := [Run(DescribeDbInstance(instance))];
          match w.describe(instance)
          case Fault(output) => Trace(lookup + ReportFault(w, output), Return)
          case Found(_, address) =>
            Trace(lookup, Exec(PushTable(None, None, args[0], args[3], credentials[0], credentials[1], address, args[2])))
  }

  /** `aws database status <INSTANCE>`: the status, or only the fault string. */
  function Status(w: World, p: Parsed): (t: Trace)
    ensures |p.positional| != 1 ==> t == UsageExit(Aws.STATUS_BANNER)
    ensures |p.positional| == 1 ==>
              var d := w.describe(p.positional[0]);
              t.end == Return
              && t.events == [Run(DescribeDbInstance(p.positional[0]))]
                             + if d.Found? then [Puts(d.status)] else [Puts("Error: " + w.faultText(StripAws(d.output)))]
  {
    var args := p.positional;
    if |args| != 1 then UsageExit(Aws.STATUS_BANNER)
    else
      var instance := args[0];
      match w.describe(instance)
      case Found(status, _) => Trace([Run(DescribeDbInstance(instance)), Puts(status)], Return)
      case Fault(output) => Trace([Run(DescribeDbInstance(instance))] + ReportFault(w, output), Return)
  }

  /** The handler reached by a route of the older revision. */
  function Perform(w: World, h: Aws.Handler, rest: seq<string>): Trace
    requires h != Aws.DatabaseClone && h != Aws.DatabaseList
  {
    match h
    case DatabaseConnect => Connect(w, w.parse(rest), "password")
    case DatabaseCreate => Create(w, w.parse(rest))
    case DatabaseDelete => DeleteInstance(w, w.parse(rest).positional)
    case DatabasePull => Pull(w, w.parse(rest))
    case DatabasePush => Push(w, w.parse(rest))
    case DatabaseStatus => Status(w, w.parse(rest))
    case InstanceHostname => HostnameCommand(w, rest)
    case RoleLaunch => Launch(w.script, rest)
  }

  /** `aws_database` of the older revision: six verbs, each on the words after it. */
  function Database(w: World, args: seq<string>): (t: Trace)
    ensures |args| >= 1 && args[0] == "connect" ==> t == Connect(w, w.parse(args[1..]), "password")
    ensures |args| >= 1 && args[0] == "create" ==> t == Create(w, w.parse(args[1..]))
    ensures |args| >= 1 && args[0] == "delete" ==> t == DeleteInstance(w, w.parse(args[1..]).positional)
    ensures |args| >= 1 && args[0] == "pull" ==> t == Pull(w, w.parse(args[1..]))
    ensures |args| >= 1 && args[0] == "push" ==> t == Push(w, w.parse(args[1..]))
    ensures |args| >= 1 && args[0] == "status" ==> t == Status(w, w.parse(args[1..]))
    ensures args == [] || args[0] !in DATABASE_VERBS ==> t == Trace(PutsEach(Aws.DatabaseUsage(w.script)), Return)
  {
    if args == [] then Trace(PutsEach(Aws.DatabaseUsage(w.script)), Return)
    else
      var verb, rest := args[0], args[1..];
      if verb == "connect" then Connect(w, w.parse(rest), "password")
      else if verb == "create" then Create(w, w.parse(rest))
      else if verb == "delete" then DeleteInstance(w, w.parse(rest).positional)
      else if verb == "pull" then Pull(w, w.parse(rest))
      else if verb == "push" then Push(w, w.parse(rest))
      else if verb == "status" then Status(w, w.parse(rest))
      else Trace(PutsEach(Aws.DatabaseUsage(w.script)), Return)
  }

  /**
   * `AWS#aws` of the older revision: `database` goes to `Database`,
   * `instance hostname` and `role launch` to their handlers; any other line
   * prints the usage of the level it reached.
   */
  function Handle(w: World, args: seq<string>): (t: Trace)
    ensures |args| >= 1 && args[0] == "database" ==> t == Database(w, args[1..])
    ensures |args| >= 2 && args[0] == "instance" && args[1] == "hostname" ==> t == HostnameCommand(w, args[2..])
    ensures |args| >= 2 && args[0] == "role" && args[1] == "launch" ==> t == Launch(w.script, args[2..])
    ensures args == [] || args[0] !in {"database", "instance", "role"} ==> t == Trace(PutsEach(Aws.TopUsage(w.script)), Return)
    ensures |args| >= 1 && args[0] == "instance" && (|args| == 1 || args[1] != "hostname") ==>
              t == Trace(PutsEach(Aws.InstanceUsage(w.script)), Return)
    ensures |args| >= 1 && args[0] == "role" && (|args| == 1 || args[1] != "launch") ==>
              t == Trace(PutsEach(Aws.RoleUsage(w.script)), Return)
  {
    if |args| > 0 && args[0] == "database" then Database(w, args[1..])
    else if |args| > 0 && args[0] == "instance" then
      if |args| > 1 && args[1] == "hostname" then HostnameCommand(w, args[2..])
      else Trace(PutsEach(Aws.InstanceUsage(w.script)), Return)
    else if |args| > 0 && args[0] == "role" then
      if |args| > 1 && args[1] == "launch" then Launch(w.script, args[2..])
      else Trace(PutsEach(Aws.RoleUsage(w.script)), Return)
    else Trace(PutsEach(Aws.TopUsage(w.script)), Return)
  }

  /** Every database line of the older revision does what its route says. */
  lemma DatabaseFollowsRoute(w: World, args: seq<string>)
    ensures Database(w, args) == match DatabaseRoute(w.script, args) {
              case PrintUsage(lines) => Trace(PutsEach(lines), Return)
              case Call(h, rest) => Perform(w, h, rest)
            }
  {
    if args != [] && args[0] in DATABASE_VERBS {
      var r := DatabaseRoute(w.script, args);
      assert r.Call? && r.rest == args[1..] && Aws.Verb(r.handler) == args[0];
      assert Perform(w, r.handler, args[1..]) == Database(w, args);
    }
  }

  /** Every command line of the older revision does what its route says. */
  lemma HandleFollowsRoute(w: World, args: seq<string>)
    ensures Handle(w, args) == match Route(w.script, args) {
              case PrintUsage(lines) => Trace(PutsEach(lines), Return)
              case Call(h, rest) => Perform(w, h, rest)
            }
  {
    if |args| > 0 && args[0] == "database" {
      DatabaseFollowsRoute(w, args[1..]);
      if |args| > 1 {
        assert args[1..][1..] == args[2..];
      }
    }
  }

  /** `database clone` and `database list` print the database usage and run nothing. */
  lemma CloneAndListUnknown(w: World, verb: string, rest: seq<string>)
    requires verb in {"clone", "list"}
    ensures Handle(w, ["database", verb] + rest) == Trace(PutsEach(Aws.DatabaseUsage(w.script)), Return)
    ensures Quiet(Handle(w, ["database", verb] + rest))
  {
    var lines := Aws.DatabaseUsage(w.script);
    forall e | e in PutsEach(lines)
      ensures !e.Run?
    {
      var k :| 0 <= k < |PutsEach(lines)| && PutsEach(lines)[k] == e;
    }
  }
}
