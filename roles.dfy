/** `aws role launch <role> <count>`: an allow-listed role and a non-negative count, then a notice. */
module Roles {
  import opened RubyText
  import opened Shell

  const ROLES: seq<string> := ["cron", "demo", "memcache", "sandbox", "scoring", "search", "www"]

  /** The notice printed for an accepted launch; nothing is launched. */
  const NOTICE: string := "This is an upcoming feature. Stay tuned."

  function LaunchUsage(script: string): string {
    "Usage: " + script + " aws role launch <role> <count>"
  }

  /**
   * `aws_role_launch`. Both arguments must be present (a present argument
   * is a string, hence truthy) and the count must convert with `to_i` to a
   * non-negative number; an unlisted role raises.
   */
  function Launch(script: string, args: seq<string>): (t: Trace)
    ensures Quiet(t)
    ensures t.end.Raise? <==> |args| >= 2 && ToI(args[1]) >= 0 && args[0] !in ROLES
    ensures t.end.Raise? ==> t.events == [] && t.end.error == RuntimeError(args[0] + " is not a recognized role.")
    ensures !t.end.Raise? ==> t.end == Return && |t.events| == 1
    ensures t.events == [Puts(NOTICE)] <==> |args| >= 2 && ToI(args[1]) >= 0 && args[0] in ROLES
    ensures !(|args| >= 2 && ToI(args[1]) >= 0) ==> t == Trace([Puts(LaunchUsage(script))], Return)
  {
    if |args| >= 2 && ToI(args[1]) >= 0 then
      var role := args[0];
      if role !in ROLES then Trace([], Raise(RuntimeError(role + " is not a recognized role.")))
      else Trace([Puts(NOTICE)], Return)
    else Trace([Puts(LaunchUsage(script))], Return)
  }

  /** Every listed role is accepted with any count the tool itself would print. */
  lemma LaunchAcceptsListedRole(script: string, role: string, count: nat, more: seq<string>)
    requires role in ROLES
    ensures Launch(script, [role, IntToS(count)] + more) == Trace([Puts(NOTICE)], Return)
  {
    ToIOfIntToS(count);
  }

  /** A negative count prints usage, whether or not the role is listed. */
  lemma LaunchRejectsNegativeCount(script: string, role: string, count: int)
    requires count < 0
    ensures Launch(script, [role, IntToS(count)]) == Trace([Puts(LaunchUsage(script))], Return)
  {
    ToIOfIntToS(count);
  }

  /** A negative count written with the base-10 prefix prints usage too. */
  lemma LaunchRejectsPrefixedNegativeCount(script: string, role: string, count: nat)
    requires count > 0
    ensures Launch(script, [role, "-0d" + NatToS(count)]) == Trace([Puts(LaunchUsage(script))], Return)
  {
    var text := "-0d" + NatToS(count);
    assert text[0] == '-' && text[1..] == "0d" + NatToS(count);
    assert Unprefixed("0d" + NatToS(count)) == NatToS(count);
    ToIOfNegative(text);
    MagnitudeOfNatToS(count);
  }
}
