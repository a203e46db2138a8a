/**
 * The task record of beeflow/common/data/task.py and the command line it
 * stands for.
 */
module DataTask {
  import opened Wrappers
  import opened PyText

  class Task {
    const id: string
    const baseCommand: string
    /** `None` when the task has no argument list. */
    const arguments: Option<seq<string>>
    const dependencies: set<string>
    /** The requirements' type is not fixed by the source; kept as text. */
    const requirements: Option<string>

    /** The name is accepted and not kept. */
    constructor (taskId: string, name: string, baseCommand: string, arguments: Option<seq<string>>,
                 dependencies: set<string>, requirements: Option<string>)
      ensures id == taskId && this.baseCommand == baseCommand && this.arguments == arguments
      ensures this.dependencies == dependencies && this.requirements == requirements
    {
      id := taskId;
      this.baseCommand := baseCommand;
      this.arguments := arguments;
      this.dependencies := dependencies;
      this.requirements := requirements;
    }

    /**
     * `construct_command`: the base command alone without arguments, and
     * otherwise the base command followed by each argument, one space apart.
     */
    function ConstructCommand(): (r: string)
      ensures arguments.None? ==> r == baseCommand
      ensures arguments.Some? ==> r == Join(" ", [baseCommand] + arguments.value)
      ensures StartsWith(r, baseCommand)
    {
      if arguments.None? then baseCommand
      else CommandLine(baseCommand, arguments.value)
    }

    /** `__repr__` is the command. */
    function Repr(): (r: string)
      ensures r == ConstructCommand()
    {
      ConstructCommand()
    }
  }

  /** `" ".join([base] + args)` */
  function CommandLine(base: string, args: seq<string>): (r: string)
    ensures r == Join(" ", [base] + args)
    ensures StartsWith(r, base)
    ensures args == [] ==> r == base
    ensures args != [] ==> r == base + " " + Join(" ", args)
  {
    var parts := [base] + args;
    assert parts[1..] == args;
    Join(" ", parts)
  }

  /** The command splits back into the base command and the arguments when none holds a space. */
  lemma CommandLineSplits(base: string, args: seq<string>)
    requires AllWords([base] + args)
    ensures Split(CommandLine(base, args)) == [base] + args
  {
    SplitJoin([base] + args);
  }

  /** Every argument adds itself and one space to the length of the command. */
  lemma {:induction false} CommandLineLength(base: string, args: seq<string>)
    ensures |CommandLine(base, args)| == |base| + ArgsLength(args)
    decreases |args|
  {
    if args != [] {
      CommandLineLength(args[0], args[1..]);
      assert [args[0]] + args[1..] == args;
    }
  }

  /** The length the arguments add: each one and the space before it. */
  function ArgsLength(args: seq<string>): nat {
    if args == [] then 0 else 1 + |args[0]| + ArgsLength(args[1..])
  }
}
