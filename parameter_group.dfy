/**
 * Module `AWSDatabaseParameterGroup` (lib/aws_database_parameter_group.rb):
 * `aws database parameter group apply|create|display|modify`. Each action
 * checks its required arguments in a fixed order, reports the first one
 * missing with exit status 1, and otherwise runs one RDS command, raising
 * with its output when it exits non-zero and printing the output otherwise.
 */
module ParameterGroup {
  import opened Base
  import opened Shell

  datatype Action = Apply | CreateGroup | Display | Modify

  /** The word that selects the action. */
  function Word(a: Action): string {
    match a
    case Apply => "apply"
    case CreateGroup => "create"
    case Display => "display"
    case Modify => "modify"
  }

  /** `aws_database_parameter_group`: the action named by the first word, if any. */
  function Route(args: seq<string>): (r: Option<Action>)
    ensures r.Some? <==> |args| > 0 && args[0] in {"apply", "create", "display", "modify"}
    ensures r.Some? ==> Word(r.value) == args[0]
  {
    if |args| == 0 then None
    else if args[0] == "apply" then Some(Apply)
    else if args[0] == "create" then Some(CreateGroup)
    else if args[0] == "display" then Some(Display)
    else if args[0] == "modify" then Some(Modify)
    else None
  }

  function UsageLines(script: string): seq<string> {
    ["Usage:",
     "\t" + script + " aws [OPTIONS] database parameter group apply ...",
     "\t" + script + " aws [OPTIONS] database parameter group create ...",
     "\t" + script + " aws [OPTIONS] database parameter group display ...",
     "\t" + script + " aws [OPTIONS] database parameter group modify ..."]
  }

  /** A required argument missing: the message, an empty line, the help text, exit status 1. */
  function Missing(message: string, banner: string): (t: Trace)
    ensures Quiet(t) && t.end == Exit(1)
    ensures |t.events| == 3 && t.events[0] == Puts(message) && t.events[2] == Usage(banner)
  {
    Trace([Puts(message), Puts(""), Usage(banner)], Exit(1))
  }

  /** After the commands `ran`: a non-zero status raises with the captured output, otherwise the output is printed. */
  function Report(ran: seq<Event>, status: int, output: string): Trace {
    if status != 0 then Trace(ran, Raise(AwsError(output))) else Trace(ran + [Puts(output)], Return)
  }

  /** The RDS command run, then its output printed, or raised when it exited non-zero. */
  function RunAndReport(w: World, c: Command): (t: Trace)
    ensures |t.events| >= 1 && t.events[0] == Run(c)
    ensures t.end.Raise? <==> w.run(c).status != 0
    ensures t.end.Raise? ==> t.end.error == AwsError(w.run(c).output) && t.events == [Run(c)]
    ensures !t.end.Raise? ==> t.end == Return && t.events == [Run(c), Puts(w.run(c).output)]
  {
    Report([Run(c)], w.run(c).status, w.run(c).output)
  }

  const APPLY_BANNER: string := "Usage: aws database parameter group apply <INSTANCE> <PARAMETER GROUP> [options]"

  /** `apply <INSTANCE> <PARAMETER GROUP>`: the instance is reported missing before the group. */
  function ApplyGroup(w: World, p: Parsed): (t: Trace)
    ensures |p.positional| == 0 ==> t == Missing("Please specify a database instance.", APPLY_BANNER)
    ensures |p.positional| == 1 ==> t == Missing("Please specify a parameter group.", APPLY_BANNER)
    ensures |p.positional| >= 2 ==> t == RunAndReport(w, ModifyDbInstance(p.positional[0], p.positional[1]))
    ensures t.end == Exit(1) <==> |p.positional| < 2
  {
    var args := p.positional;
    if |args| == 0 then Missing("Please specify a database instance.", APPLY_BANNER)
    else if |args| == 1 then Missing("Please specify a parameter group.", APPLY_BANNER)
    else RunAndReport(w, ModifyDbInstance(args[0], args[1]))
  }

  const CREATE_BANNER: string := "Usage: aws database parameter group create NAME [options]"

  /** `create NAME --family F --description D`: name, then family, then description. */
  function Create(w: World, p: Parsed): (t: Trace)
    ensures |p.positional| == 0 ==> t == Missing("Please specify a parameter group name.", CREATE_BANNER)
    ensures |p.positional| > 0 && p.options.family.None? ==>
              t == Missing("Please specify a parameter group family.", CREATE_BANNER)
    ensures |p.positional| > 0 && p.options.family.Some? && p.options.description.None? ==>
              t == Missing("Please specify a parameter group description.", CREATE_BANNER)
    ensures |p.positional| > 0 && p.options.family.Some? && p.options.description.Some? ==>
              t == RunAndReport(w, CreateDbParameterGroup(p.positional[0], p.options.family.value,
                                                          p.options.description.value))
    ensures t.end == Exit(1) <==> |p.positional| == 0 || p.options.family.None? || p.options.description.None?
  {
    var args := p.positional;
    var o := p.options;
    if |args| == 0 then Missing("Please specify a parameter group name.", CREATE_BANNER)
    else if o.family.None? then Missing("Please specify a parameter group family.", CREATE_BANNER)
    else if o.description.None? then Missing("Please specify a parameter group description.", CREATE_BANNER)
    else RunAndReport(w, CreateDbParameterGroup(args[0], o.family.value, o.description.value))
  }

  const DISPLAY_BANNER: string := "Usage: aws [options] database parameter group display NAME"

  /** `display NAME`. */
  function DisplayGroup(w: World, p: Parsed): (t: Trace)
    ensures |p.positional| == 0 ==> t == Missing("Please specify a parameter group name.", DISPLAY_BANNER)
    ensures |p.positional| > 0 ==> t == RunAndReport(w, DescribeDbParameterGroups(p.positional[0]))
    ensures t.end == Exit(1) <==> |p.positional| == 0
  {
    var args := p.positional;
    if |args| == 0 then Missing("Please specify a parameter group name.", DISPLAY_BANNER)
    else RunAndReport(w, DescribeDbParameterGroups(args[0]))
  }

  const MODIFY_BANNER: string := "Usage: aws database parameter group modify NAME [options]"

  /** The `--parameters` argument of the modify command. */
  function ParameterSetting(parameter: string, value: string): (s: string)
    ensures |s| == |parameter| + |value| + 31
    ensures s[..5] == "name=" && s[5..5 + |parameter|] == parameter
    ensures s[5 + |parameter|..5 + |parameter| + 8] == ", value="
    ensures s[5 + |parameter| + 8..|s| - 18] == value
    ensures s[|s| - 18..] == ", method=immediate"
  {
    "name=" + parameter + ", value=" + value + ", method=immediate"
  }

  /**
   * Among parameter names of one length, the setting determines the name
   * and the value it was built from. Names of different lengths can
   * collide: ("a, value=x", "y") and ("a", "x, value=y") give one setting.
   */
  lemma ParameterSettingInjective(p1: string, v1: string, p2: string, v2: string)
    requires |p1| == |p2|
    requires ParameterSetting(p1, v1) == ParameterSetting(p2, v2)
    ensures p1 == p2 && v1 == v2
  {
    var s := ParameterSetting(p1, v1);
    assert p1 == s[5..5 + |p1|] == p2;
    assert v1 == s[5 + |p1| + 8..|s| - 18] == v2;
  }

  /** Without equal-length names the setting is ambiguous. */
  lemma ParameterSettingCollides()
    ensures ParameterSetting("a, value=x", "y") == ParameterSetting("a", "x, value=y")
  {
  }

  /** The checks of `modify NAME --parameter P --value V`: name, then parameter, then value. */
  function ModifyChecks(p: Parsed): (r: Option<Trace>)
    ensures r.None? <==> |p.positional| > 0 && p.options.parameter.Some? && p.options.value.Some?
    ensures |p.positional| == 0 ==> r == Some(Missing("Please specify a parameter group name.", MODIFY_BANNER))
    ensures |p.positional| > 0 && p.options.parameter.None? ==>
              r == Some(Missing("Please specify a parameter name.", MODIFY_BANNER))
    ensures |p.positional| > 0 && p.options.parameter.Some? && p.options.value.None? ==>
              r == Some(Missing("Please specify a parameter value.", MODIFY_BANNER))
  {
    if |p.positional| == 0 then Some(Missing("Please specify a parameter group name.", MODIFY_BANNER))
    else if p.options.parameter.None? then Some(Missing("Please specify a parameter name.", MODIFY_BANNER))
    else if p.options.value.None? then Some(Missing("Please specify a parameter value.", MODIFY_BANNER))
    else None
  }

  /**
   * `modify` as written: the line with `--parameters` has no trailing
   * backslash, so the shell runs the modify command and then `--show-xml`
   * as a command of its own. The status the program reads is that of the
   * second line, which is not a command, so every complete modify raises,
   * with the modify command's output.
   */
  function ModifyAsWritten(w: World, p: Parsed): (t: Trace)
    ensures ModifyChecks(p).Some? ==> t == ModifyChecks(p).value
    ensures ModifyChecks(p).None? ==>
              var command := ModifyDbParameterGroup(p.positional[0],
                                                    ParameterSetting(p.options.parameter.value, p.options.value.value), false);
              t == Trace([Run(command), Run(StrayWord("--show-xml"))], Raise(AwsError(w.run(command).output)))
  {
    match ModifyChecks(p)
    case Some(missing) => missing
    case None =>
      var command := ModifyDbParameterGroup(p.positional[0],
                                            ParameterSetting(p.options.parameter.value, p.options.value.value), false);
      Report([Run(command), Run(StrayWord("--show-xml"))], COMMAND_NOT_FOUND, w.run(command).output)
  }

  /** `modify` as intended: one command with `--show-xml`, reported like the other actions. */
  function ModifyGroup(w: World, p: Parsed): (t: Trace)
    ensures ModifyChecks(p).Some? ==> t == ModifyChecks(p).value
    ensures ModifyChecks(p).None? ==>
              t == RunAndReport(w, ModifyDbParameterGroup(p.positional[0],
                                                          ParameterSetting(p.options.parameter.value, p.options.value.value),
                                                          true))
  {
    match ModifyChecks(p)
    case Some(missing) => missing
    case None =>
      RunAndReport(w, ModifyDbParameterGroup(p.positional[0],
                                             ParameterSetting(p.options.parameter.value, p.options.value.value), true))
  }

  /** As written, a complete modify raises even when the modify command succeeded; as intended, it then prints the output. */
  lemma ModifyAsWrittenAlwaysRaises(w: World, p: Parsed)
    requires ModifyChecks(p).None?
    requires w.run(ModifyDbParameterGroup(p.positional[0],
                                          ParameterSetting(p.options.parameter.value, p.options.value.value), true)).status == 0
    ensures ModifyAsWritten(w, p).end.Raise?
    ensures ModifyGroup(w, p).end == Return
  {
  }

  /** The action chosen by the first word, on the words after it. */
  function Perform(w: World, a: Action, rest: seq<string>): Trace {
    match a
    case Apply => ApplyGroup(w, w.parse(rest))
    case CreateGroup => Create(w, w.parse(rest))
    case Display => DisplayGroup(w, w.parse(rest))
    case Modify => ModifyGroup(w, w.parse(rest))
  }

  /**
   * `aws_database_parameter_group`: each of the four actions on the words
   * after its name; no word or any other word prints the usage.
   */
  function Handle(w: World, args: seq<string>): (t: Trace)
    ensures |args| > 0 && args[0] == "apply" ==> t == ApplyGroup(w, w.parse(args[1..]))
    ensures |args| > 0 && args[0] == "create" ==> t == Create(w, w.parse(args[1..]))
    ensures |args| > 0 && args[0] == "display" ==> t == DisplayGroup(w, w.parse(args[1..]))
    ensures |args| > 0 && args[0] == "modify" ==> t == ModifyGroup(w, w.parse(args[1..]))
    ensures args == [] || args[0] !in {"apply", "create", "display", "modify"} ==>
              t == Trace(PutsEach(UsageLines(w.script)), Return)
  {
    match Route(args)
    case None => Trace(PutsEach(UsageLines(w.script)), Return)
    case Some(a) => Perform(w, a, args[1..])
  }

  /** An unknown action prints the usage and runs nothing. */
  lemma UnknownActionRunsNothing(w: World, args: seq<string>)
    requires Route(args).None?
    ensures Quiet(Handle(w, args))
  {
    var lines := UsageLines(w.script);
    forall e | e in PutsEach(lines)
      ensures !e.Run?
    {
      var k :| 0 <= k < |PutsEach(lines)| && PutsEach(lines)[k] == e;
    }
  }

  /** Every action reports the first missing argument alone: nothing runs and the exit status is 1. */
  lemma MissingArgumentRunsNothing(w: World, a: Action, rest: seq<string>)
    requires Perform(w, a, rest).end == Exit(1)
    ensures Quiet(Perform(w, a, rest))
    ensures |Perform(w, a, rest).events| == 3 && Perform(w, a, rest).events[1] == Puts("")
  {
  }
}
