/**
 * The two wait loops: after a create, poll until the instance reports
 * "available"; after a delete, poll until describing the instance fails.
 * Both keep a spinner counter that advances by one, modulo 4, before each
 * describe. The program polls forever; here the describes are a finite
 * script, and running out of it is the `Pending` outcome.
 */
module Polling {
  import opened Shell

  /** Which loop: the create wait or the delete wait. */
  datatype Goal = Availability | Deletion

  /**
   * How a wait ends: the goal reached, a failed describe ending a create
   * wait, or every scripted describe used up with the loop still going.
   * `used` counts the describes made.
   */
  datatype Wait = Reached(used: nat) | Failed(output: string, used: nat) | Pending

  /** A describe after which the loop prints the waiting line and polls again. */
  predicate Continues(goal: Goal, d: Describe) {
    match goal
    case Availability => d.Found? && d.status != "available"
    case Deletion => d.Found?
  }

  /** The outcome of a describe that stops the loop, made as the `used`-th. */
  function Finish(goal: Goal, d: Describe, used: nat): Wait
    requires !Continues(goal, d)
  {
    match d
    case Fault(output) => if goal == Availability then Failed(output, used) else Reached(used)
    case Found(_, _) => Reached(used)
  }

  /** The same outcome, one describe later. */
  function Later(w: Wait): Wait {
    match w
    case Reached(n) => Reached(n + 1)
    case Failed(output, n) => Failed(output, n + 1)
    case Pending => Pending
  }

  /** The outcome of waiting with the scripted describes `polls`: the first describe that does not continue the loop decides it. */
  function Await(goal: Goal, polls: seq<Describe>): (w: Wait)
    ensures w.Pending? <==> forall k | 0 <= k < |polls| :: Continues(goal, polls[k])
    ensures !w.Pending? ==>
              0 < w.used <= |polls|
              && (forall k | 0 <= k < w.used - 1 :: Continues(goal, polls[k]))
              && !Continues(goal, polls[w.used - 1])
    ensures w.Failed? <==> goal == Availability && !w.Pending? && polls[w.used - 1].Fault?
    ensures w.Failed? ==> w.output == polls[w.used - 1].output
  {
    if polls == [] then Pending
    else if Continues(goal, polls[0]) then Later(Await(goal, polls[1..]))
    else Finish(goal, polls[0], 1)
  }

  /** The number of describes a wait makes. */
  function Polled(w: Wait, polls: seq<Describe>): nat {
    if w.Pending? then |polls| else w.used
  }

  /** The spinner characters, indexed by the counter. */
  const SPINNER: seq<char> := ['\\', '|', '/', '-']

  function Phrase(goal: Goal): string {
    match goal
    case Availability => "to become available"
    case Deletion => "to be deleted"
  }

  /** The line printed after the `k`-th describe (counting from 0) when the loop goes on. */
  function WaitingLine(goal: Goal, k: nat, status: string): (r: string)
    ensures |r| > |status| + 2 && r[0] == '\r' && r[1] == SPINNER[(k + 1) % 4]
    ensures r[|r| - |status| - 2..] == status + "\"."
  {
    "\r" + [SPINNER[(k + 1) % 4]] + " Waiting for database " + Phrase(goal)
      + ". Current status is \"" + status + "\"."
  }

  /** What the loop does for describes that all continue it: each is run, then its waiting line printed. */
  function PollEvents(goal: Goal, instance: string, polls: seq<Describe>): (r: seq<Event>)
    requires forall k | 0 <= k < |polls| :: polls[k].Found?
    ensures |r| == 2 * |polls|
    ensures forall k | 0 <= k < |r| ::
              r[k] == if k % 2 == 0 then Run(DescribeDbInstance(instance))
                      else Out(WaitingLine(goal, k / 2, polls[k / 2].status))
    decreases |polls|
  {
    if polls == [] then []
    else
      PollEvents(goal, instance, polls[..|polls| - 1])
        + [Run(DescribeDbInstance(instance)), Out(WaitingLine(goal, |polls| - 1, polls[|polls| - 1].status))]
  }

  /** The events of a whole wait: the continuing polls, then the describe that stopped it, if one did. */
  function WaitEvents(goal: Goal, instance: string, polls: seq<Describe>): (r: seq<Event>)
    ensures Await(goal, polls).Pending? ==> |r| == 2 * |polls|
    ensures !Await(goal, polls).Pending? ==>
              |r| == 2 * Await(goal, polls).used - 1 && r[|r| - 1] == Run(DescribeDbInstance(instance))
    ensures forall k | 0 <= k < |r| && k % 2 == 0 :: r[k] == Run(DescribeDbInstance(instance))
  {
    var w := Await(goal, polls);
    var going := if w.Pending? then |polls| else w.used - 1;
    PollEvents(goal, instance, polls[..going])
      + if w.Pending? then [] else [Run(DescribeDbInstance(instance))]
  }

  /** A describe that stops the loop after continuing ones decides the wait. */
  lemma AwaitStopsAt(goal: Goal, polls: seq<Describe>, i: nat)
    requires i < |polls|
    requires forall k | 0 <= k < i :: Continues(goal, polls[k])
    requires !Continues(goal, polls[i])
    ensures Await(goal, polls) == Finish(goal, polls[i], i + 1)
  {
  }

  /** The line the loop prints, spelled with the spinner character it has just chosen. */
  lemma WaitingLineOfSpinner(goal: Goal, k: nat, status: string, spinner: char)
    requires spinner == SPINNER[(k + 1) % 4]
    ensures "\r" + [spinner] + " Waiting for database " + Phrase(goal) + ". Current status is \"" + status + "\"."
            == WaitingLine(goal, k, status)
  {
  }

  /** Advancing the counter modulo 4 keeps it equal to the number of describes made, modulo 4. */
  lemma CounterStep(i: nat, count: int)
    requires count == i % 4
    ensures (count + 1) % 4 == (i + 1) % 4
  {
  }

  /** One more continuing describe extends the run of continuing ones, each of them a found instance. */
  lemma ContinuingPrefix(goal: Goal, polls: seq<Describe>, i: nat)
    requires i < |polls|
    requires forall k | 0 <= k < i :: Continues(goal, polls[k]) && polls[k].Found?
    requires Continues(goal, polls[i])
    ensures forall k | 0 <= k < i + 1 :: Continues(goal, polls[k]) && polls[k].Found?
  {
  }

  /** A continuing describe: the run, then the waiting line drawn with the spinner the counter chose. */
  lemma GoOnStep(goal: Goal, instance: string, polls: seq<Describe>, i: nat, spinner: char)
    requires i < |polls|
    requires forall k | 0 <= k < i :: Continues(goal, polls[k]) && polls[k].Found?
    requires Continues(goal, polls[i])
    requires spinner == SPINNER[(i + 1) % 4]
    ensures forall k | 0 <= k < i + 1 :: Continues(goal, polls[k]) && polls[k].Found?
    ensures PollEvents(goal, instance, polls[..i])
              + [Run(DescribeDbInstance(instance)),
                 Out("\r" + [spinner] + " Waiting for database " + Phrase(goal) + ". Current status is \"" + polls[i].status + "\".")]
            == PollEvents(goal, instance, polls[..i + 1])
  {
    WaitingLineOfSpinner(goal, i, polls[i].status, spinner);
    ContinuingPrefix(goal, polls, i);
    PollEventsStep(goal, instance, polls, i);
  }

  /** A stopping describe: its run ends the events, and it decides the wait. */
  lemma StopStep(goal: Goal, instance: string, polls: seq<Describe>, i: nat)
    requires i < |polls|
    requires forall k | 0 <= k < i :: Continues(goal, polls[k]) && polls[k].Found?
    requires !Continues(goal, polls[i])
    ensures PollEvents(goal, instance, polls[..i]) + [Run(DescribeDbInstance(instance))] == WaitEvents(goal, instance, polls)
    ensures Finish(goal, polls[i], i + 1) == Await(goal, polls)
  {
    WaitEventsStopped(goal, instance, polls, i);
    AwaitStopsAt(goal, polls, i);
  }

  /** One more continuing describe adds its run and its waiting line. */
  lemma PollEventsStep(goal: Goal, instance: string, polls: seq<Describe>, i: nat)
    requires i < |polls|
    requires forall k | 0 <= k <= i :: polls[k].Found?
    ensures PollEvents(goal, instance, polls[..i + 1])
            == PollEvents(goal, instance, polls[..i])
               + [Run(DescribeDbInstance(instance)), Out(WaitingLine(goal, i, polls[i].status))]
  {
    assert polls[..i + 1][..i] == polls[..i];
  }

  /** A wait stopped by the `i`-th describe: the continuing polls before it, then that describe. */
  lemma WaitEventsStopped(goal: Goal, instance: string, polls: seq<Describe>, i: nat)
    requires i < |polls|
    requires forall k | 0 <= k < i :: Continues(goal, polls[k]) && polls[k].Found?
    requires !Continues(goal, polls[i])
    ensures WaitEvents(goal, instance, polls) == PollEvents(goal, instance, polls[..i]) + [Run(DescribeDbInstance(instance))]
  {
    AwaitStopsAt(goal, polls, i);
  }

  /** A wait whose every describe continues it: all of them, each with its waiting line. */
  lemma WaitEventsPending(goal: Goal, instance: string, polls: seq<Describe>)
    requires forall k | 0 <= k < |polls| :: Continues(goal, polls[k]) && polls[k].Found?
    ensures WaitEvents(goal, instance, polls) == PollEvents(goal, instance, polls)
  {
    assert polls[..|polls|] == polls;
  }

  /**
   * The loop of `create_database_instance` and of `aws_database_delete`:
   * advance the spinner counter, describe, stop or print the waiting line.
   */
  method WaitFor(goal: Goal, instance: string, polls: seq<Describe>) returns (w: Wait, events: seq<Event>)
    ensures w == Await(goal, polls)
    ensures events == WaitEvents(goal, instance, polls)
  {
    var count := 0;
    var i := 0;
    events := [];
    while i < |polls|
      invariant 0 <= i <= |polls|
      invariant count == i % 4
      invariant forall k | 0 <= k < i :: Continues(goal, polls[k]) && polls[k].Found?
      invariant events == PollEvents(goal, instance, polls[..i])
    {
      CounterStep(i, count);
      count := (count + 1) % 4;
      var spinner := SPINNER[count];
      var d := polls[i];
      if !Continues(goal, d) {
        StopStep(goal, instance, polls, i);
        events := events + [Run(DescribeDbInstance(instance))];
        w := Finish(goal, d, i + 1);
        return;
      }
      GoOnStep(goal, instance, polls, i, spinner);
      var line := "\r" + [spinner] + " Waiting for database " + Phrase(goal) + ". Current status is \"" + d.status + "\".";
      events := events + [Run(DescribeDbInstance(instance)), Out(line)];
      i := i + 1;
    }
    assert polls[..i] == polls;
    WaitEventsPending(goal, instance, polls);
    w := Pending;
  }

  /** Describes scripted after the one that ended a wait are never made. */
  lemma AwaitIgnoresLaterPolls(goal: Goal, polls: seq<Describe>, more: seq<Describe>)
    requires !Await(goal, polls).Pending?
    ensures Await(goal, polls + more) == Await(goal, polls)
  {
    var w := Await(goal, polls);
    var i := w.used - 1;
    forall k | 0 <= k < i
      ensures Continues(goal, (polls + more)[k])
    {
      assert (polls + more)[k] == polls[k];
    }
    assert (polls + more)[i] == polls[i];
    AwaitStopsAt(goal, polls + more, i);
    AwaitStopsAt(goal, polls, i);
  }

  /** The delete wait never fails: a failed describe means the instance is gone. */
  lemma DeletionNeverFails(polls: seq<Describe>)
    ensures !Await(Deletion, polls).Failed?
    ensures !Await(Deletion, polls).Pending? ==> polls[Await(Deletion, polls).used - 1].Fault?
  {
  }

  /** The create wait stops only at "available" or at a failed describe. */
  lemma AvailabilityStops(polls: seq<Describe>)
    ensures Await(Availability, polls).Reached? ==>
              var d := polls[Await(Availability, polls).used - 1];
              d.Found? && d.status == "available"
  {
  }

  /** Two found describes: each is run, then its waiting line printed. */
  lemma PollEventsOfTwo(goal: Goal, instance: string, polls: seq<Describe>)
    requires |polls| >= 2 && polls[0].Found? && polls[1].Found?
    ensures PollEvents(goal, instance, polls[..2])
            == [Run(DescribeDbInstance(instance)), Out(WaitingLine(goal, 0, polls[0].status)),
                Run(DescribeDbInstance(instance)), Out(WaitingLine(goal, 1, polls[1].status))]
  {
    PollEventsStep(goal, instance, polls, 0);
    PollEventsStep(goal, instance, polls, 1);
    assert PollEvents(goal, instance, polls[..0]) == [];
  }

  /** Two continuing describes and a stopping one: two runs with their waiting lines, then the last run. */
  lemma StopsAtThird(goal: Goal, instance: string, polls: seq<Describe>)
    requires |polls| == 3 && polls[0].Found? && polls[1].Found?
    requires Continues(goal, polls[0]) && Continues(goal, polls[1]) && !Continues(goal, polls[2])
    ensures Await(goal, polls) == Finish(goal, polls[2], 3)
    ensures WaitEvents(goal, instance, polls)
            == [Run(DescribeDbInstance(instance)), Out(WaitingLine(goal, 0, polls[0].status)),
                Run(DescribeDbInstance(instance)), Out(WaitingLine(goal, 1, polls[1].status)),
                Run(DescribeDbInstance(instance))]
  {
    AwaitStopsAt(goal, polls, 2);
    WaitEventsStopped(goal, instance, polls, 2);
    PollEventsOfTwo(goal, instance, polls);
  }

  /** Creating, creating, available: three describes, two waiting lines with the spinner at `|` then `/`. */
  lemma CreatingThenAvailable(instance: string, a: string, b: string, c: string)
    ensures var polls := [Found("creating", a), Found("creating", b), Found("available", c)];
            Await(Availability, polls) == Reached(3)
            && WaitEvents(Availability, instance, polls)
               == [Run(DescribeDbInstance(instance)), Out(WaitingLine(Availability, 0, "creating")),
                   Run(DescribeDbInstance(instance)), Out(WaitingLine(Availability, 1, "creating")),
                   Run(DescribeDbInstance(instance))]
    ensures WaitingLine(Availability, 0, "creating")[1] == '|'
    ensures WaitingLine(Availability, 1, "creating")[1] == '/'
  {
    var polls := [Found("creating", a), Found("creating", b), Found("available", c)];
    assert "creating" != "available";
    StopsAtThird(Availability, instance, polls);
  }

  /** A failed describe while creating ends the wait with that describe's output. */
  lemma CreatingThenFault(a: string, output: string)
    ensures Await(Availability, [Found("creating", a), Fault(output)]) == Failed(output, 2)
  {
    AwaitStopsAt(Availability, [Found("creating", a), Fault(output)], 1);
  }

  /** Deleting, deleting, failed describe: deleted after three describes. */
  lemma DeletingThenGone(a: string, b: string, output: string)
    ensures Await(Deletion, [Found("deleting", a), Found("deleting", b), Fault(output)]) == Reached(3)
  {
    AwaitStopsAt(Deletion, [Found("deleting", a), Found("deleting", b), Fault(output)], 2);
  }

  /** Whatever status a successful describe reports, the delete wait goes on. */
  lemma DeletionContinuesOnAnyStatus(status: string, address: string, rest: seq<Describe>)
    ensures Await(Deletion, [Found(status, address)] + rest) == Later(Await(Deletion, rest))
  {
    assert ([Found(status, address)] + rest)[1..] == rest;
  }

  /** The spinner has period 4. */
  lemma SpinnerPeriod(goal: Goal, k: nat, status: string)
    ensures WaitingLine(goal, k + 4, status) == WaitingLine(goal, k, status)
    ensures WaitingLine(goal, k, status)[1] == SPINNER[(k + 1) % 4]
  {
  }

  const DELETE_BANNER: string := "Usage: aws database delete <INSTANCE>"

  /**
   * `aws database delete <INSTANCE>`, the same in both revisions: exactly one
   * positional argument, the delete command, its output printed, and the
   * wait only when it exited 0.
   */
  function DeleteInstance(w: World, args: seq<string>): (t: Trace)
    ensures |args| != 1 ==> t == UsageExit(DELETE_BANNER)
    ensures |args| == 1 ==> |t.events| >= 2 && t.events[0] == Run(DeleteDbInstance(args[0]))
    ensures |args| == 1 && w.run(DeleteDbInstance(args[0])).status != 0 ==>
              t == Trace([Run(DeleteDbInstance(args[0])), Puts(w.run(DeleteDbInstance(args[0])).output)], Return)
    ensures |args| == 1 && w.run(DeleteDbInstance(args[0])).status == 0 ==>
              (t.end == Return <==> !Await(Deletion, w.polls).Pending?)
    ensures |args| == 1 && w.run(DeleteDbInstance(args[0])).status == 0 ==>
              var polled := [Run(DeleteDbInstance(args[0])), Puts(w.run(DeleteDbInstance(args[0])).output)]
                            + WaitEvents(Deletion, args[0], w.polls);
              t == if Await(Deletion, w.polls).Pending? then Trace(polled, StillPolling)
                   else Trace(polled + [Puts("\rDatabase has been deleted.")], Return)
    ensures !t.end.Raise? && !t.end.Exec?
  {
    if |args| != 1 then UsageExit(DELETE_BANNER)
    else
      var instance := args[0];
      var answer := w.run(DeleteDbInstance(instance));
      var started := [Run(DeleteDbInstance(instance)), Puts(answer.output)];
      if answer.status != 0 then Trace(started, Return)
      else
        var polled := started + WaitEvents(Deletion, instance, w.polls);
        match Await(Deletion, w.polls)
        case Pending => Trace(polled, StillPolling)
        case _ => Trace(polled + [Puts("\rDatabase has been deleted.")], Return)
  }
}
