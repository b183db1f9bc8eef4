/**
 * `aws instance hostname`: the instances `ec2-describe-instances` lists for
 * a name tag, and the public DNS name when exactly one matches.
 */
module Ec2 {
  import opened Base
  import opened RubyText
  import opened Shell

  /** The record kept per INSTANCE line: tokens 1 and 3, nil when the line is shorter. */
  datatype Instance = Instance(id: Option<string>, publicDns: Option<string>)

  /** `tokens[i]`: nil past the end. */
  function Token(tokens: seq<string>, i: nat): (r: Option<string>)
    ensures r.Some? <==> i < |tokens|
    ensures r.Some? ==> r.value == tokens[i]
  {
    if i < |tokens| then Some(tokens[i]) else None
  }

  /** A line whose first whitespace-separated token is `INSTANCE`. */
  predicate IsInstanceLine(line: string) {
    var tokens := Fields(line);
    |tokens| > 0 && tokens[0] == "INSTANCE"
  }

  function Record(line: string): Instance {
    var tokens := Fields(line);
    Instance(Token(tokens, 1), Token(tokens, 3))
  }

  /** The records of the INSTANCE lines among `lines`, in order. */
  function Matching(lines: seq<string>): (r: seq<Instance>)
    ensures |r| <= |lines|
    decreases |lines|
  {
    if lines == [] then []
    else
      var last := lines[|lines| - 1];
      Matching(lines[..|lines| - 1]) + if IsInstanceLine(last) then [Record(last)] else []
  }

  /** One line contributes its record if it is an INSTANCE line, and nothing otherwise. */
  lemma MatchingOne(line: string)
    ensures Matching([line]) == if IsInstanceLine(line) then [Record(line)] else []
  {
    assert [line][..0] == [];
  }

  /** The records of a listing are the records of its parts, in order. */
  lemma {:induction false} MatchingAppend(a: seq<string>, b: seq<string>)
    ensures Matching(a + b) == Matching(a) + Matching(b)
    decreases |b|
  {
    if b == [] {
      assert a + b == a;
    } else {
      var front := b[..|b| - 1];
      var last := b[|b| - 1];
      assert (a + b)[..|a + b| - 1] == a + front;
      assert (a + b)[|a + b| - 1] == last;
      MatchingAppend(a, front);
    }
  }

  /** A listing with one INSTANCE line, whatever other lines surround it, yields exactly that line's record. */
  lemma OnlyInstanceLine(before: seq<string>, line: string, after: seq<string>)
    requires forall k | 0 <= k < |before| :: !IsInstanceLine(before[k])
    requires forall k | 0 <= k < |after| :: !IsInstanceLine(after[k])
    requires IsInstanceLine(line)
    ensures Matching(before + [line] + after) == [Record(line)]
  {
    NoInstanceLines(before);
    NoInstanceLines(after);
    MatchingAppend(before + [line], after);
    MatchingAppend(before, [line]);
    MatchingOne(line);
  }

  /** Lines none of which is an INSTANCE line yield no record. */
  lemma {:induction false} NoInstanceLines(lines: seq<string>)
    requires forall k | 0 <= k < |lines| :: !IsInstanceLine(lines[k])
    ensures Matching(lines) == []
    decreases |lines|
  {
    if lines != [] {
      NoInstanceLines(lines[..|lines| - 1]);
    }
  }

  /**
   * An INSTANCE line yields its second and fourth fields as id and public
   * DNS name, whatever whitespace (tabs, spaces) separates and surrounds them.
   */
  lemma RecordOfInstanceLine(words: seq<string>, gaps: seq<string>, lead: string, trail: string)
    requires |words| >= 4 && words[0] == "INSTANCE" && |words| == |gaps| + 1
    requires forall k | 0 <= k < |words| :: IsWord(words[k])
    requires forall k | 0 <= k < |gaps| :: IsGap(gaps[k])
    requires IsBlank(lead) && IsBlank(trail)
    ensures IsInstanceLine(lead + Joined(words, gaps) + trail)
    ensures Record(lead + Joined(words, gaps) + trail) == Instance(Some(words[1]), Some(words[3]))
  {
    FieldsOfJoined(words, gaps, lead, trail);
  }

  /** The records of the first `i + 1` lines: those of the first `i`, then line `i`'s if it is an INSTANCE line. */
  lemma MatchingStep(lines: seq<string>, i: nat)
    requires i < |lines|
    ensures Matching(lines[..i + 1])
            == Matching(lines[..i]) + if IsInstanceLine(lines[i]) then [Record(lines[i])] else []
  {
    assert lines[..i + 1][..i] == lines[..i];
  }

  /** The same step, spelled out as the loop tests and builds the record. */
  lemma MatchingStepOfTokens(lines: seq<string>, i: nat)
    requires i < |lines|
    ensures var tokens := Fields(lines[i]);
            Matching(lines[..i + 1])
            == Matching(lines[..i]) + if |tokens| > 0 && tokens[0] == "INSTANCE" then [Instance(Token(tokens, 1), Token(tokens, 3))] else []
  {
    MatchingStep(lines, i);
  }

  /**
   * `find_ec2_instances_matching`: run the describe command with the name
   * filter, then go through its output line by line, appending a record for
   * every INSTANCE line.
   */
  method FindInstancesMatching(run: Command -> Captured, name: string) returns (instances: seq<Instance>)
    ensures instances == Matching(Lines(run(DescribeEc2Instances(name)).output))
  {
    instances := [];
    var output := run(DescribeEc2Instances(name)).output;
    var lines := Lines(output);
    var i := 0;
    while i < |lines|
      invariant 0 <= i <= |lines|
      invariant instances == Matching(lines[..i])
    {
      var tokens := Fields(lines[i]);
      if |tokens| > 0 && tokens[0] == "INSTANCE" {
        instances := instances + [Instance(Token(tokens, 1), Token(tokens, 3))];
      }
      MatchingStepOfTokens(lines, i);
      i := i + 1;
    }
    assert lines[..i] == lines;
  }

  /** The error raised unless exactly one instance matched. */
  function CountError(name: string, n: nat): Error {
    RuntimeError("Found " + NatToS(n) + " instances with name " + name + ".")
  }

  /** `get_ec2_instance_hostname` on the instances found: the public DNS name of the only match. */
  function Hostname(name: string, instances: seq<Instance>): (r: Result<Option<string>, Error>)
    ensures r.Ok? <==> |instances| == 1
    ensures r.Ok? ==> r.value == instances[0].publicDns
    ensures r.Err? ==> r.error == CountError(name, |instances|)
  {
    if |instances| != 1 then Err(CountError(name, |instances|)) else Ok(instances[0].publicDns)
  }

  /** A listing whose only INSTANCE line has at least four fields gives that line's fourth field. */
  lemma {:induction false} HostnameOfSingleListing(name: string, words: seq<string>, gaps: seq<string>, lead: string, trail: string,
                                before: seq<string>, after: seq<string>)
    requires |words| >= 4 && words[0] == "INSTANCE" && |words| == |gaps| + 1
    requires forall k | 0 <= k < |words| :: IsWord(words[k])
    requires forall k | 0 <= k < |gaps| :: IsGap(gaps[k])
    requires IsBlank(lead) && IsBlank(trail)
    requires forall k | 0 <= k < |before| :: !IsInstanceLine(before[k])
    requires forall k | 0 <= k < |after| :: !IsInstanceLine(after[k])
    ensures Hostname(name, Matching(before + [lead + Joined(words, gaps) + trail] + after)) == Ok(Some(words[3]))
  {
    var line := lead + Joined(words, gaps) + trail;
    RecordOfInstanceLine(words, gaps, lead, trail);
    HostnameOfOnlyLine(name, before, line, after);
  }

  lemma HostnameOfOnlyLine(name: string, before: seq<string>, line: string, after: seq<string>)
    requires forall k | 0 <= k < |before| :: !IsInstanceLine(before[k])
    requires forall k | 0 <= k < |after| :: !IsInstanceLine(after[k])
    requires IsInstanceLine(line)
    ensures Hostname(name, Matching(before + [line] + after)) == Ok(Record(line).publicDns)
  {
    OnlyInstanceLine(before, line, after);
  }

  function HostnameUsage(script: string): string {
    "Usage: " + script + " aws instance hostname <instance_name>"
  }

  /**
   * `aws instance hostname <instance_name>`, the same in both revisions:
   * usage without a name; otherwise the hostname is the handler's value.
   */
  function HostnameCommand(w: World, args: seq<string>): (t: Trace)
    ensures args == [] ==> t == Trace([Puts(HostnameUsage(w.script))], Return)
    ensures args != [] ==>
              var found := Matching(Lines(w.run(DescribeEc2Instances(args[0])).output));
              t.events == [Run(DescribeEc2Instances(args[0]))]
              && (t.end.Value? <==> |found| == 1)
              && (t.end.Value? ==> t.end.value == found[0].publicDns)
              && (!t.end.Value? ==> t.end == Raise(CountError(args[0], |found|)))
  {
    if args == [] then Trace([Puts(HostnameUsage(w.script))], Return)
    else
      var name := args[0];
      var found := Matching(Lines(w.run(DescribeEc2Instances(name)).output));
      match Hostname(name, found)
      case Ok(dns) => Trace([Run(DescribeEc2Instances(name))], Value(dns))
      case Err(e) => Trace([Run(DescribeEc2Instances(name))], Raise(e))
  }
}
