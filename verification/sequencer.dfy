/**
  The control flow shared by the two pipeline scripts: a fixed list of steps run
  in order, where an external command either must succeed (`run_cmd` in
  scripts/run_colmap.py, `subprocess.check_call` in scripts/run_colmap_dronesplat.py)
  or may fail without stopping the pipeline (the mask stage, whose
  `CalledProcessError` is caught).

  Exit codes are not computed here: an `ExitOracle` says what every command
  would return. Filesystem effects (creating a folder, copying) are recorded in
  the trace and always succeed.
 */
module Sequencer {
  import opened Commands

  /** Whether a failing command stops the pipeline. */
  datatype Policy = Required | BestEffort

  /** Something a script reports instead of doing a step. */
  datatype Note = ImagesAlreadyPresent | OpenSplatNotFound

  datatype Effect =
    | MakeDir(path: Path)
    | CopyTree(src: Path, dst: Path)
    | CopyImages(src: Path, dst: Path)
    | WriteViewer(page: Path)
    | Notice(note: Note)

  datatype Step = Invoke(cmd: Command, policy: Policy) | Perform(effect: Effect)

  /** What happened at one step: a command ran with an exit code, or an effect was carried out. */
  datatype Event = Ran(cmd: Command, code: int) | Performed(effect: Effect)

  /** A pipeline ends normally, or with the exit code and command of the required
      command that failed. */
  datatype Outcome = Completed | Failed(code: int, cmd: Command)

  datatype Run = Run(trace: seq<Event>, outcome: Outcome)

  /** The exit code each command would return. */
  type ExitOracle = Command -> int

  /** A step that ends the pipeline: a required command with a non-zero exit code. */
  predicate Aborts(s: Step, exit: ExitOracle)
  {
    s.Invoke? && s.policy == Required && exit(s.cmd) != 0
  }

  function EventOf(s: Step, exit: ExitOracle): Event
  {
    match s
    case Invoke(c, _) => Ran(c, exit(c))
    case Perform(e) => Performed(e)
  }

  /** The reference semantics of a plan: steps happen in plan order; the first aborting
      step is the last one to happen and its code and command are reported; with no
      aborting step every step happens and the run completes. */
  predicate ObeysPolicy(plan: seq<Step>, exit: ExitOracle, r: Run)
  {
    && |r.trace| <= |plan|
    && (forall i :: 0 <= i < |r.trace| ==> r.trace[i] == EventOf(plan[i], exit))
    && (forall i :: 0 <= i < |r.trace| - 1 ==> !Aborts(plan[i], exit))
    && (r.outcome.Completed? <==> |r.trace| == |plan| && forall i :: 0 <= i < |plan| ==> !Aborts(plan[i], exit))
    && (r.outcome.Failed? ==>
          && |r.trace| > 0
          && Aborts(plan[|r.trace| - 1], exit)
          && r.outcome == Failed(exit(plan[|r.trace| - 1].cmd), plan[|r.trace| - 1].cmd))
  }

  /** Runs a plan step by step. */
  function Exec(plan: seq<Step>, exit: ExitOracle): (r: Run)
    ensures ObeysPolicy(plan, exit, r)
  {
    if |plan| == 0 then Run([], Completed)
    else
      var e := EventOf(plan[0], exit);
      if Aborts(plan[0], exit) then Run([e], Failed(exit(plan[0].cmd), plan[0].cmd))
      else
        var rest := Exec(plan[1..], exit);
        assert forall i :: 1 <= i < |plan| ==> plan[i] == plan[1..][i - 1];
        Run([e] + rest.trace, rest.outcome)
  }

  /** The same pipeline as a loop over the steps, the way the scripts are written. */
  method Drive(plan: seq<Step>, exit: ExitOracle) returns (r: Run)
    ensures ObeysPolicy(plan, exit, r)
  {
    var trace: seq<Event> := [];
    var i := 0;
    while i < |plan|
      invariant 0 <= i <= |plan| && |trace| == i
      invariant forall j :: 0 <= j < i ==> trace[j] == EventOf(plan[j], exit)
      invariant forall j :: 0 <= j < i ==> !Aborts(plan[j], exit)
    {
      var step := plan[i];
      trace := trace + [EventOf(step, exit)];
      if Aborts(step, exit) {
        return Run(trace, Failed(exit(step.cmd), step.cmd));
      }
      i := i + 1;
    }
    return Run(trace, Completed);
  }

  /** The reference semantics leaves no choice: there is one run per plan and oracle,
      so the loop and the recursion agree. */
  lemma PolicyDeterminesRun(plan: seq<Step>, exit: ExitOracle, r1: Run, r2: Run)
    requires ObeysPolicy(plan, exit, r1) && ObeysPolicy(plan, exit, r2)
    ensures r1 == r2
  {
    assert |r1.trace| == |r2.trace|;
  }

  /** Step `i` happens exactly when no earlier step aborts. */
  lemma ReachesStep(plan: seq<Step>, exit: ExitOracle, i: nat)
    requires i < |plan|
    ensures var r := Exec(plan, exit);
      i < |r.trace| <==> forall j :: 0 <= j < i ==> !Aborts(plan[j], exit)
  {
  }

  /** An event is in the trace exactly when some step producing it is reached: no step
      before it aborts. */
  lemma HappensIff(plan: seq<Step>, exit: ExitOracle, e: Event)
    ensures e in Exec(plan, exit).trace <==>
      exists i :: 0 <= i < |plan| && EventOf(plan[i], exit) == e && forall j :: 0 <= j < i ==> !Aborts(plan[j], exit)
  {
    var r := Exec(plan, exit);
    if e in r.trace {
      var i :| 0 <= i < |r.trace| && r.trace[i] == e;
      ReachesStep(plan, exit, i);
    }
    if exists i :: 0 <= i < |plan| && EventOf(plan[i], exit) == e && forall j :: 0 <= j < i ==> !Aborts(plan[j], exit) {
      var i :| 0 <= i < |plan| && EventOf(plan[i], exit) == e && forall j :: 0 <= j < i ==> !Aborts(plan[j], exit);
      ReachesStep(plan, exit, i);
      assert r.trace[i] == e;
    }
  }

  /** A run completes exactly when no step aborts; a failed run reports the first
      aborting step. */
  lemma CompletesUnlessAborts(plan: seq<Step>, exit: ExitOracle)
    ensures Exec(plan, exit).outcome.Completed? <==> forall j :: 0 <= j < |plan| ==> !Aborts(plan[j], exit)
  {
  }

  /** When the last step cannot abort, reaching it is the same as completing. */
  lemma LastStepMeansCompleted(plan: seq<Step>, exit: ExitOracle)
    requires |plan| > 0 && !Aborts(plan[|plan| - 1], exit)
    ensures var r := Exec(plan, exit);
      |plan| - 1 < |r.trace| <==> r.outcome.Completed?
  {
    ReachesStep(plan, exit, |plan| - 1);
  }

  /** The commands a trace ran, in order. */
  function Invoked(trace: seq<Event>): (cs: seq<Command>)
    ensures |cs| <= |trace|
  {
    if |trace| == 0 then []
    else (if trace[0].Ran? then [trace[0].cmd] else []) + Invoked(trace[1..])
  }

  /** The commands a plan would run if nothing aborted, in order. */
  function Planned(plan: seq<Step>): (cs: seq<Command>)
    ensures |cs| <= |plan|
  {
    if |plan| == 0 then []
    else (if plan[0].Invoke? then [plan[0].cmd] else []) + Planned(plan[1..])
  }

  /** Commands run in plan order: the ones a run issued are a prefix of the ones planned. */
  lemma {:induction false} InvokedIsPrefixOfPlanned(plan: seq<Step>, exit: ExitOracle)
    ensures var cs := Invoked(Exec(plan, exit).trace);
      |cs| <= |Planned(plan)| && cs == Planned(plan)[..|cs|]
    decreases |plan|
  {
    if |plan| > 0 {
      var head := if plan[0].Invoke? then [plan[0].cmd] else [];
      assert Planned(plan) == head + Planned(plan[1..]);
      if Aborts(plan[0], exit) {
        AbortRunsFirstCommand(plan, exit);
        PrefixAfterCommonHead(head, [], Planned(plan[1..]));
      } else {
        InvokedIsPrefixOfPlanned(plan[1..], exit);
        ContinueAfterFirstStep(plan, exit);
        PrefixAfterCommonHead(head, Invoked(Exec(plan[1..], exit).trace), Planned(plan[1..]));
      }
    }
  }

  lemma AbortRunsFirstCommand(plan: seq<Step>, exit: ExitOracle)
    requires |plan| > 0 && Aborts(plan[0], exit)
    ensures Invoked(Exec(plan, exit).trace) == [plan[0].cmd]
  {
    var e := EventOf(plan[0], exit);
    assert Exec(plan, exit).trace == [e];
    assert [e][1..] == [];
  }

  lemma ContinueAfterFirstStep(plan: seq<Step>, exit: ExitOracle)
    requires |plan| > 0 && !Aborts(plan[0], exit)
    ensures Invoked(Exec(plan, exit).trace)
      == (if plan[0].Invoke? then [plan[0].cmd] else []) + Invoked(Exec(plan[1..], exit).trace)
  {
    var e := EventOf(plan[0], exit);
    var rest := Exec(plan[1..], exit).trace;
    assert Exec(plan, exit).trace == [e] + rest;
    assert ([e] + rest)[1..] == rest;
  }

  lemma PrefixAfterCommonHead<T>(head: seq<T>, a: seq<T>, b: seq<T>)
    requires |a| <= |b| && a == b[..|a|]
    ensures head + a == (head + b)[..|head| + |a|]
  {
  }
}
