/**
 * The vocabulary shared by both revisions of the `AWS` class and by the
 * parameter-group commands: the errors they raise, the external commands
 * they issue, the answers those commands give, and the trace of what a
 * command-line invocation prints, runs and how it ends.
 *
 * External programs (rds-*, mysql, mysqldump, ec2-describe-instances) are
 * never modelled as behaviour: each is a `Command` value, and what it
 * answers comes from a `World` given to every handler.
 */
module Shell {
  import opened Base
  import opened RubyText
  import opened Constants

  /** The exceptions the handlers raise (`raise "..."` raises a RuntimeError). */
  datatype Error =
    | UserError(message: string)
    | RuntimeError(message: string)
    | AwsError(output: string)
    | NoMethodError(name: string)
    | NameError(name: string)

  /**
   * The answer to `rds-describe-db-instances <instance> --show-xml`: a
   * non-zero exit with its output, or the instance's status and endpoint
   * address as extracted from the XML document.
   */
  datatype Describe = Fault(output: string) | Found(status: string, address: string)

  /** `$?.to_i` (zero on success) and the standard output of a backtick command. */
  datatype Captured = Captured(status: int, output: string)

  /** The status the shell gives a line whose first word is not a command. */
  const COMMAND_NOT_FOUND: int := 127

  /**
   * The external commands. Credentials that come from the constants file
   * are `Fetched` values, because Ruby interpolates whatever the lookup
   * returned (nil interpolates as the empty string).
   */
  datatype Command =
    | DescribeDbInstance(instance: string)
    | DescribeDbInstances
    | CreateDbInstance(instance: string, storage: int, size: string, admin: string,
                       adminPassword: string, database: string, multiAz: string)
    | DeleteDbInstance(instance: string)
    | MysqlPrompt(user: Fetched, password: Fetched, host: string, selected: Option<string>)
    | ShowDatabases(host: string, admin: string, adminPassword: string)
    | CreateDatabase(host: string, admin: string, adminPassword: string, database: string)
    | SetCharset(host: string, admin: string, adminPassword: string, database: string)
    | GrantAll(host: string, admin: string, adminPassword: string, database: string,
               grantee: string, identifiedBy: Option<string>)
    | CloneTables(user: Fetched, password: Fetched, sourceHost: string, sourceDatabase: string,
                  targetHost: string, targetDatabase: string)
    | ListDatabases(user: Fetched, password: Fetched, document: string)
    | PullTable(user: Fetched, password: Fetched, host: string, database: string, table: string,
                localUser: Option<Fetched>, localPassword: Option<Fetched>, localDatabase: string)
    | PushTable(localUser: Option<Fetched>, localPassword: Option<Fetched>, localDatabase: string,
                table: string, user: Fetched, password: Fetched, host: string, database: string)
    | ProbeInstance(host: string, admin: string, adminPassword: string)
    | ProbeDatabase(host: string, admin: string, adminPassword: string, database: string)
    | DescribeEc2Instances(name: string)
    | ModifyDbInstance(instance: string, parameterGroup: string)
    | CreateDbParameterGroup(name: string, family: string, description: string)
    | DescribeDbParameterGroups(name: string)
    | ModifyDbParameterGroup(name: string, parameters: string, showXml: bool)
    | StrayWord(word: string)

  /** A command-line option as Ruby interpolates it: the given string, or nil. */
  function OptionValue(o: Option<string>): (r: Fetched)
    ensures r.Plain? && (r.value == Nil <==> o.None?)
    ensures o.Some? ==> r == Plain(Str(o.value))
  {
    match o
    case Some(s) => Plain(Str(s))
    case None => Plain(Nil)
  }

  /** What an invocation does, in order: text written to standard output, the option parser's help, a command run. */
  datatype Event = Out(text: string) | Usage(banner: string) | Run(command: Command)

  /**
   * How an invocation ends. `StillPolling` is where the finite script of
   * describe answers runs out while the program would go on polling.
   */
  datatype End =
    | Return
    | Value(value: Option<string>)
    | Exit(status: int)
    | Raise(error: Error)
    | Exec(command: Command)
    | StillPolling

  datatype Trace = Trace(events: seq<Event>, end: End)

  /** The options the handlers' option parsers collect; a flag that was not given is None. */
  datatype Options = Options(
    database: Option<string>,
    user: Option<string>,
    password: Option<string>,
    adminUser: Option<string>,
    adminPassword: Option<string>,
    localUser: Option<string>,
    localPassword: Option<string>,
    size: Option<string>,
    storage: Option<int>,
    multiAz: bool,
    family: Option<string>,
    description: Option<string>,
    parameter: Option<string>,
    value: Option<string>)

  /** The result of `parse!`: the options, and the positional arguments left in `args`. */
  datatype Parsed = Parsed(options: Options, positional: seq<string>)

  /**
   * Everything a handler reads from outside: `$script`, the tool directory,
   * the constants, the option parser, the first describe of each instance,
   * the describes made while waiting and the one after a wait ends, every
   * other command's answer, and the `Fault/faultstring` text of an error
   * document.
   */
  datatype World = World(
    script: string,
    toolDir: string,
    constants: Constant,
    parse: seq<string> -> Parsed,
    describe: string -> Describe,
    polls: seq<Describe>,
    afterWait: Describe,
    run: Command -> Captured,
    faultText: string -> string)

  /** The text `puts s` writes: `s`, with a newline added unless it already ends with one. */
  function PutsText(s: string): (r: string)
    ensures |s| <= |r| <= |s| + 1
    ensures r[..|s|] == s
    ensures 0 < |r| && r[|r| - 1] == '\n'
    ensures r == s <==> s != [] && s[|s| - 1] == '\n'
    ensures r != s ==> r == s + "\n"
  {
    if s != [] && s[|s| - 1] == '\n' then s else s + "\n"
  }

  /** `puts s`. */
  function Puts(s: string): Event {
    Out(PutsText(s))
  }

  /** One `puts` per line. */
  function PutsEach(lines: seq<string>): (r: seq<Event>)
    ensures |r| == |lines|
    ensures forall k :: 0 <= k < |r| ==> r[k] == Puts(lines[k])
    ensures forall e | e in r :: e.Out?
  {
    if lines == [] then [] else [Puts(lines[0])] + PutsEach(lines[1..])
  }

  /** A trace that runs no external command and does not replace the process. */
  ghost predicate Quiet(t: Trace) {
    (forall e | e in t.events :: !e.Run?) && !t.end.Exec?
  }

  /** `puts command_line_parser` followed by `exit`. */
  function UsageExit(banner: string): Trace {
    Trace([Usage(banner)], Exit(0))
  }

  /** Events `e` come before trace `t`. */
  function Then(e: seq<Event>, t: Trace): Trace {
    Trace(e + t.events, t.end)
  }

  /** The `gsub!('aws:', '')` that `parse_aws_error` applies to an error document before parsing it. */
  function StripAws(error: string): (r: string)
    ensures |r| <= |error|
  {
    RemoveAll(error, "aws:")
  }

  /** A document without the namespace prefix is left as it is. */
  lemma StripAwsWithout(error: string)
    requires !Contains(error, "aws:")
    ensures StripAws(error) == error
  {
    RemoveAllWithout(error, "aws:");
  }

  /** The prefix is removed where it occurs, and the text before the first occurrence is kept. */
  lemma StripAwsFirst(before: string, after: string)
    requires forall i: nat | i < |before| :: !OccursAt(before + "aws:" + after, "aws:", i)
    ensures StripAws(before + "aws:" + after) == before + StripAws(after)
  {
    RemoveAllFirst(before, "aws:", after);
  }

  /**
   * In a document whose text holds no other `a`, every `aws:` prefix is
   * removed: `<aws:RequestId>7</aws:RequestId>` becomes `<RequestId>7</RequestId>`.
   */
  lemma StripAwsTwice(x: string, y: string, z: string)
    requires 'a' !in x && 'a' !in y && 'a' !in z
    ensures StripAws(x + "aws:" + y + "aws:" + z) == x + y + z
  {
    var tail := y + "aws:" + z;
    assert x + "aws:" + y + "aws:" + z == x + "aws:" + tail;
    NoOccurrenceBefore(x, tail);
    StripAwsFirst(x, tail);
    NoOccurrenceBefore(y, z);
    StripAwsFirst(y, z);
    NoOccurrenceWithoutHead(z, "aws:");
    StripAwsWithout(z);
  }

  /** Text without an `a` holds no occurrence of `aws:` starting inside it. */
  lemma NoOccurrenceBefore(before: string, after: string)
    requires 'a' !in before
    ensures forall i: nat | i < |before| :: !OccursAt(before + "aws:" + after, "aws:", i)
  {
    forall i: nat | i < |before|
      ensures !OccursAt(before + "aws:" + after, "aws:", i)
    {
      assert (before + "aws:" + after)[i] == before[i];
    }
  }
}
