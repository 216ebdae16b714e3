/**
 * `SequentialCommand<COMMANDS>`: runs its sub-commands one after another, each from its
 * `initialize` to its `end(false)`. A sub-command is seen only through its name, the subsystems
 * it requires and its answers to `isReady` and `isFinished`, which each step receives as
 * parameters; the calls the sequence makes on its sub-commands are returned as a trace.
 */
module SequentialCommands {
  /** A sub-command: its name and its requirement bitmask, as the set of bits that are set. */
  datatype SubCommand = SubCommand(name: string, requirements: set<nat>)

  /** A call made on the sub-command at `index`. */
  datatype SubCommandCall = Initialize(index: nat) | Execute(index: nat) | End(index: nat, interrupted: bool)

  /** The mutable part of a sequence: the index of the running sub-command and whether it has been initialised. */
  datatype Progress = Progress(currentCommand: nat, commandInitialized: bool)

  /** The result of one `execute`: the new progress and the calls made. */
  datatype Stepped = Stepped(progress: Progress, calls: seq<SubCommandCall>)

  /** The bitwise OR of the sub-commands' requirement masks. */
  function Requirements(commands: seq<SubCommand>): set<nat>
  {
    if |commands| == 0 then {} else Requirements(commands[..|commands| - 1]) + commands[|commands| - 1].requirements
  }

  /** A bit is required by the sequence exactly when some sub-command requires it. */
  lemma {:induction false} RequirementsAreUnion(commands: seq<SubCommand>, bit: nat)
    ensures bit in Requirements(commands) <==> exists i :: 0 <= i < |commands| && bit in commands[i].requirements
  {
    if |commands| > 0 {
      var init := commands[..|commands| - 1];
      RequirementsAreUnion(init, bit);
      if bit in Requirements(init) {
        var i :| 0 <= i < |init| && bit in init[i].requirements;
        assert commands[i] == init[i];
      }
      if exists i :: 0 <= i < |commands| && bit in commands[i].requirements {
        var i :| 0 <= i < |commands| && bit in commands[i].requirements;
        if i < |init| {
          assert init[i] == commands[i];
        }
      }
    }
  }

  /**
   * One `execute` of a sequence of `n` sub-commands: the current sub-command is initialised if
   * it has not been and says it is `ready`; once initialised it is executed, and if it then
   * says it is `finished` it is ended with `end(false)` and the next one becomes current.
   */
  function Step(n: nat, p: Progress, ready: bool, finished: bool): (r: Stepped)
    requires p.currentCommand < n
    ensures r.progress.currentCommand == p.currentCommand || r.progress.currentCommand == p.currentCommand + 1
    ensures r.progress.currentCommand <= n
  {
    var i := p.currentCommand;
    var initialized := p.commandInitialized || ready;
    var initCalls := if !p.commandInitialized && ready then [Initialize(i)] else [];
    if !initialized then Stepped(p, [])
    else if finished then Stepped(Progress(i + 1, false), initCalls + [Execute(i), End(i, false)])
    else Stepped(Progress(i, true), initCalls + [Execute(i)])
  }

  /** A sub-command is initialised by a step exactly when it was not yet and reports ready. */
  lemma StepInitializesOnlyWhenReady(n: nat, p: Progress, ready: bool, finished: bool)
    requires p.currentCommand < n
    ensures Initialize(p.currentCommand) in Step(n, p, ready, finished).calls <==> !p.commandInitialized && ready
  {
  }

  /**
   * A step ends the sub-command, with `end(false)`, exactly when it was executed and then
   * reported finished; exactly then the sequence moves on to the next one, uninitialised.
   */
  lemma StepEndsExactlyWhenFinished(n: nat, p: Progress, ready: bool, finished: bool)
    requires p.currentCommand < n
    ensures var r := Step(n, p, ready, finished);
      var executed := Execute(p.currentCommand) in r.calls;
      (executed <==> p.commandInitialized || ready)
      && (End(p.currentCommand, false) in r.calls <==> executed && finished)
      && (r.progress.currentCommand == p.currentCommand + 1 <==> executed && finished)
      && (r.progress.currentCommand == p.currentCommand + 1 ==> !r.progress.commandInitialized)
  {
  }

  /** The calls of a sequence whose every sub-command is ready and finishes on its first execution, from sub-command `from` on. */
  function RunTrace(from: nat, n: nat): seq<SubCommandCall>
    decreases n - from
  {
    if from >= n then [] else [Initialize(from), Execute(from), End(from, false)] + RunTrace(from + 1, n)
  }

  /** Steps of a sequence in which every sub-command is ready and finishes at once. */
  function Run(n: nat, p: Progress, steps: nat): (r: Stepped)
    requires p.currentCommand <= n
    decreases steps
  {
    if steps == 0 || p.currentCommand == n then Stepped(p, [])
    else
      var s := Step(n, p, true, true);
      var rest := Run(n, s.progress, steps - 1);
      Stepped(rest.progress, s.calls + rest.calls)
  }

  /**
   * Started afresh, a sequence of sub-commands that are all ready and finish at once is finished
   * after one `execute` per sub-command, having initialised, executed and ended each in order.
   */
  lemma {:induction false} RunCompletes(n: nat, from: nat)
    requires from <= n
    ensures Run(n, Progress(from, false), n - from) == Stepped(Progress(n, false), RunTrace(from, n))
    decreases n - from
  {
    if from < n {
      RunCompletes(n, from + 1);
    }
  }

  class SequentialCommand {
    /** The sub-commands, in order; `COMMANDS` is their number. */
    const commands: seq<SubCommand>
    var currentCommand: nat
    var commandInitialized: bool
    var commandRequirementsBitwise: set<nat>

    /** The index never passes the number of sub-commands. */
    predicate Valid()
      reads this
    {
      currentCommand <= |commands|
    }

    function GetProgress(): Progress
      reads this
    {
      Progress(currentCommand, commandInitialized)
    }

    /**
     * The constructor: ORs every sub-command's requirements into the sequence's, starting from
     * none. `commandInitialized` is not set until `initialize`.
     */
    constructor(commands: seq<SubCommand>)
      ensures this.commands == commands && currentCommand == 0
      ensures commandRequirementsBitwise == Requirements(commands)
      ensures Valid()
    {
      this.commands := commands;
      this.currentCommand := 0;
      var requirements: set<nat> := {};
      for i := 0 to |commands|
        invariant requirements == Requirements(commands[..i])
      {
        assert commands[..i + 1][..i] == commands[..i];
        requirements := requirements + commands[i].requirements;
      }
      assert commands[..|commands|] == commands;
      this.commandRequirementsBitwise := requirements;
    }

    /** `getName`: empty once the sequence is finished, otherwise the current sub-command's name. */
    function GetName(): (name: string)
      reads this
      requires Valid()
      ensures currentCommand == |commands| ==> name == ""
      ensures currentCommand < |commands| ==> name == commands[currentCommand].name
    {
      if currentCommand == |commands| then "" else commands[currentCommand].name
    }

    /** `isReady`: asks only the first sub-command, whose answer is `firstReady`. */
    function IsReady(firstReady: bool): (r: bool)
      requires |commands| > 0
      ensures r == firstReady
    {
      firstReady
    }

    /** `initialize`: starts again at the first sub-command, not yet initialised. */
    method Initialize()
      modifies this
      ensures currentCommand == 0 && !commandInitialized
      ensures commandRequirementsBitwise == old(commandRequirementsBitwise)
      ensures Valid()
    {
      currentCommand := 0;
      commandInitialized := false;
    }

    /**
     * `execute`, given the current sub-command's answers to `isReady` and, after it has been
     * executed, to `isFinished`. The sub-command is indexed without a check, hence the requires.
     */
    method Execute(ready: bool, finished: bool) returns (calls: seq<SubCommandCall>)
      requires currentCommand < |commands|
      modifies this
      ensures Stepped(GetProgress(), calls) == Step(|commands|, old(GetProgress()), ready, finished)
      ensures commandRequirementsBitwise == old(commandRequirementsBitwise)
      ensures Valid()
    {
      calls := [];
      if !commandInitialized {
        if ready {
          calls := calls + [SubCommandCall.Initialize(currentCommand)];
          commandInitialized := true;
        }
      }
      if commandInitialized {
        calls := calls + [SubCommandCall.Execute(currentCommand)];
        if finished {
          calls := calls + [SubCommandCall.End(currentCommand, false)];
          commandInitialized := false;
          currentCommand := currentCommand + 1;
        }
      }
    }

    /** `end`: forwards to the current sub-command unless the sequence is finished. */
    function End(interrupted: bool): (calls: seq<SubCommandCall>)
      reads this
      ensures currentCommand != |commands| ==> calls == [SubCommandCall.End(currentCommand, interrupted)]
      ensures currentCommand == |commands| ==> calls == []
    {
      if currentCommand != |commands| then [SubCommandCall.End(currentCommand, interrupted)] else []
    }

    /** `isFinished`: every sub-command has been run. */
    predicate IsFinished()
      reads this
    {
      currentCommand == |commands|
    }
  }
}
