/** External commands as data, and their sequential execution against an
    exit-status oracle: the part of `os/exec` the program relies on. */
module Exec {
  import opened Common

  /** An external command: the program to start, its arguments (without the
      program name) and the working directory it runs in. */
  datatype Cmd = Cmd(program: string, args: seq<string>, dir: string)

  /** The full command line as a process sees it. */
  function Argv(c: Cmd): seq<string> {
    [c.program] + c.args
  }

  /** A command together with the message its wrapper puts in front of the
      cause when the command fails. */
  datatype Step = Step(cmd: Cmd, context: string)

  /** What running a command reports: success, or a spawn failure or non-zero
      exit, both of which the program treats alike. */
  datatype Status = Succeeded | Failed(cause: string)

  /** The commands that were started, in order, and the error returned, if any. */
  datatype Execution = Execution(ran: seq<Cmd>, failure: Option<Error>)

  ghost predicate AllSucceed(steps: seq<Step>, oracle: Cmd -> Status) {
    forall i | 0 <= i < |steps| :: oracle(steps[i].cmd).Succeeded?
  }

  /** Runs the steps one after another, as each dispatch branch does with its
      chain of `if err := ...; err != nil { return err }`: the first failing
      step ends the run with its wrapped error, and no later step is started. */
  function Execute(steps: seq<Step>, oracle: Cmd -> Status): (x: Execution)
    ensures |x.ran| <= |steps|
    ensures forall i | 0 <= i < |x.ran| :: x.ran[i] == steps[i].cmd
    ensures x.failure.None? <==> AllSucceed(steps, oracle)
    ensures x.failure.None? ==> |x.ran| == |steps|
    ensures x.failure.Some? ==>
              && 0 < |x.ran|
              && (forall i | 0 <= i < |x.ran| - 1 :: oracle(steps[i].cmd).Succeeded?)
              && oracle(steps[|x.ran| - 1].cmd).Failed?
              && x.failure.value == CommandFailed(steps[|x.ran| - 1].context, oracle(steps[|x.ran| - 1].cmd).cause)
  {
    if steps == [] then
      Execution([], None)
    else
      match oracle(steps[0].cmd)
      case Failed(cause) =>
        Execution([steps[0].cmd], Some(CommandFailed(steps[0].context, cause)))
      case Succeeded =>
        var rest := Execute(steps[1..], oracle);
        assert forall i | 1 <= i < |steps| :: steps[1..][i - 1] == steps[i];
        assert AllSucceed(steps[1..], oracle) ==> AllSucceed(steps, oracle);
        Execution([steps[0].cmd] + rest.ran, rest.failure)
  }

  /** A single command wrapper (`CreateVenv`, `poetry.Install`, ...): nil
      when the command succeeds, otherwise an error that keeps the wrapper's
      context and the underlying cause. */
  lemma WrapperReportsFailure(s: Step, oracle: Cmd -> Status)
    ensures Execute([s], oracle).ran == [s.cmd]
    ensures Execute([s], oracle).failure ==
              match oracle(s.cmd)
              case Succeeded => None
              case Failed(cause) => Some(CommandFailed(s.context, cause))
  {
  }

  /** When a step of `a` fails, running `a + b` is running `a` alone: no
      step of `b` starts, so a plan built on a shared prefix stops inside the
      prefix. */
  lemma {:induction false} ExecuteStopsInPrefix(a: seq<Step>, b: seq<Step>, oracle: Cmd -> Status)
    requires !AllSucceed(a, oracle)
    ensures Execute(a + b, oracle) == Execute(a, oracle)
  {
    var ab := a + b;
    assert ab[0] == a[0];
    assert ab[1..] == a[1..] + b;
    match oracle(a[0].cmd)
    case Failed(cause) =>
    case Succeeded =>
      assert !AllSucceed(a[1..], oracle) by {
        assert forall i | 1 <= i < |a| :: a[1..][i - 1] == a[i];
      }
      ExecuteStopsInPrefix(a[1..], b, oracle);
  }
}
