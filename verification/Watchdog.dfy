/**
 The exit-node watchdog, `exit-node-watchdog.sh`: it routes through the exit node while the node answers its
 probes, and directly after two probes in a row were lost.
 */
module Watchdog {
  import opened Common

  const FAILURE_THRESHOLD: nat := 2

  datatype Route = Unknown | Direct | ExitNode

  /** One turn of the loop: whether the probe was answered, and whether a switch command, if issued, succeeds. */
  datatype Turn = Turn(answered: bool, switchOk: bool)

  /** A switch command as the network client sees it. */
  datatype Command = Command(route: Route, ok: bool)

  datatype State = State(
    current: Route,
    failures: nat,
    commands: seq<Command>)   // switch commands issued, in order

  const INIT := State(Unknown, 0, [])

  function Failures(s: State, answered: bool): nat {
    if answered then 0 else s.failures + 1
  }

  function Want(s: State, answered: bool): Route {
    if answered then ExitNode
    else if Failures(s, answered) >= FAILURE_THRESHOLD || s.current == Unknown then Direct
    else s.current
  }

  function Step(s: State, t: Turn): State {
    var want := Want(s, t.answered);
    var s1 := s.(failures := Failures(s, t.answered));
    if want == s.current then s1
    else
      var issued := s1.(commands := s.commands + [Command(want, t.switchOk)]);
      if t.switchOk then issued.(current := want) else issued
  }

  function Run(turns: seq<Turn>): State {
    if turns == [] then INIT else Step(Run(turns[..|turns| - 1]), turns[|turns| - 1])
  }

  /** The script's variables, and one turn of its loop. */
  class Loop {
    var current: Route
    var failures: nat
    ghost var commands: seq<Command>

    ghost function View(): State
      reads this
    {
      State(current, failures, commands)
    }

    constructor ()
      ensures View() == INIT
    {
      current := Unknown;
      failures := 0;
      commands := [];
    }

    method Probe(t: Turn)
      modifies this
      ensures View() == Step(old(View()), t)
    {
      var want;
      if t.answered {
        failures := 0;
        want := ExitNode;
      } else {
        failures := failures + 1;
        if failures >= FAILURE_THRESHOLD || current == Unknown {
          want := Direct;
        } else {
          want := current;
        }
      }
      if want != current {
        commands := commands + [Command(want, t.switchOk)];
        if t.switchOk {
          current := want;
        }
      }
    }
  }

  /** Probe i was answered, or it was lost right after an answered one. */
  predicate AnsweredLately(turns: seq<Turn>, i: nat)
    requires i < |turns|
  {
    turns[i].answered || (i > 0 && turns[i - 1].answered)
  }

  predicate AllSwitchesSucceed(turns: seq<Turn>) {
    forall i :: 0 <= i < |turns| ==> turns[i].switchOk
  }

  /** The counter is exact where it matters: it reaches the threshold when the last two probes were lost. */
  lemma {:induction false} CounterSeesTwoLosses(turns: seq<Turn>)
    requires turns != []
    ensures Run(turns).failures == 0 <==> turns[|turns| - 1].answered
    ensures |turns| > 1 ==> (Run(turns).failures >= 2 <==> !turns[|turns| - 1].answered && !turns[|turns| - 2].answered)
    ensures |turns| == 1 ==> Run(turns).failures <= 1
  {
    var before := turns[..|turns| - 1];
    if before != [] {
      CounterSeesTwoLosses(before);
    }
  }

  /** Closed form: while switches succeed, the route after a probe is the exit node iff that probe or the one before it was answered. */
  lemma {:induction false} RouteIsClosedForm(turns: seq<Turn>)
    requires turns != [] && AllSwitchesSucceed(turns)
    ensures Run(turns).current == if AnsweredLately(turns, |turns| - 1) then ExitNode else Direct
  {
    var before := turns[..|turns| - 1];
    CounterSeesTwoLosses(turns);
    if before != [] {
      RouteIsClosedForm(before);
      CounterSeesTwoLosses(before);
    }
  }

  /** A command is issued exactly at the first probe and whenever the closed form changes. */
  lemma {:induction false} SwitchesOnlyWhenTheClosedFormChanges(turns: seq<Turn>, t: Turn)
    requires AllSwitchesSucceed(turns + [t])
    ensures Run(turns + [t]).commands != Run(turns).commands
            <==> turns == [] || AnsweredLately(turns + [t], |turns|) != AnsweredLately(turns, |turns| - 1)
  {
    assert (turns + [t])[..|turns|] == turns;
    assert forall i :: 0 <= i < |turns| ==> (turns + [t])[i] == turns[i];
    if turns != [] {
      RouteIsClosedForm(turns);
      RouteIsClosedForm(turns + [t]);
    }
  }

  /** With any failures of the switch commands, a probe lost right after an answered one issues no command once the route is known. */
  lemma {:induction false} IsolatedLossNeverSwitches(turns: seq<Turn>, t: Turn)
    requires turns != [] && turns[|turns| - 1].answered && !t.answered
    requires Run(turns).current != Unknown
    ensures Run(turns + [t]).commands == Run(turns).commands
    ensures Run(turns + [t]).current == Run(turns).current
  {
    assert (turns + [t])[..|turns|] == turns;
    CounterSeesTwoLosses(turns);
  }

  /** The route the network is really on: what the last successful command set. */
  function LastApplied(commands: seq<Command>): Route {
    if commands == [] then Unknown
    else
      var last := commands[|commands| - 1];
      if last.ok then last.route else LastApplied(commands[..|commands| - 1])
  }

  /** Whatever commands fail, the recorded route is the one the network is on. */
  lemma {:induction false} RecordedRouteIsApplied(turns: seq<Turn>)
    ensures Run(turns).current == LastApplied(Run(turns).commands)
  {
    if turns != [] {
      var before := Run(turns[..|turns| - 1]);
      var after := Run(turns);
      RecordedRouteIsApplied(turns[..|turns| - 1]);
      assert after.commands != before.commands ==> after.commands[..|after.commands| - 1] == before.commands;
    }
  }

  /**
   The route the probes alone call for, without counter or commands: an answer calls for the exit node, two
   losses in a row or a first loss for the direct route, and a loss right after an answer for no change unless
   nothing was ever applied. Turns whose switch command would fail change nothing.
   */
  function CalledFor(turns: seq<Turn>): Route {
    if turns == [] then Unknown
    else
      var i := |turns| - 1;
      var before := CalledFor(turns[..i]);
      if !turns[i].switchOk then before
      else if turns[i].answered then ExitNode
      else if i == 0 || !turns[i - 1].answered || before == Unknown then Direct
      else before
  }

  /** With any failures of the switch commands, the network is on the route the probes call for. */
  lemma {:induction false} NetworkIsOnTheRouteCalledFor(turns: seq<Turn>)
    ensures LastApplied(Run(turns).commands) == Run(turns).current == CalledFor(turns)
  {
    RecordedRouteIsApplied(turns);
    if turns != [] {
      var before := turns[..|turns| - 1];
      NetworkIsOnTheRouteCalledFor(before);
      if before != [] {
        CounterSeesTwoLosses(before);
      }
    }
  }
}
