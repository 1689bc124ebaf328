/**
 * main.ts: the scan of the command-line arguments that decides between
 * running a file and starting the interactive shell. Reading the file, the
 * shell itself and console output are outside this model.
 */
module Cli {

  /** The flags main.ts accepts. */
  const ValidArgs: seq<string> := ["--lexer", "--parser", "--interpreter"]

  /** What main() goes on to do. */
  datatype Launch =
    | UndefinedArgument(arg: string)       // prints "Undefined argument <arg>" and stops
    | FilenameAlreadySpecified             // prints "Filename already specified!" and stops
    | StartShell(inputArgs: seq<string>)   // no file name: the shell runs
    | ReadFile(filename: string, inputArgs: seq<string>)

  /** `process.argv.splice(0, 2)`: the interpreter path and the script path are dropped. */
  function UserArgs(argv: seq<string>): (args: seq<string>)
    ensures |argv| <= 2 ==> args == []
    ensures 2 < |argv| ==> args == argv[2..]
  {
    if |argv| <= 2 then [] else argv[2..]
  }

  /** `arg[0] == "-"` (for an empty argument `arg[0]` is undefined, so it is not a flag). */
  predicate IsFlag(arg: string) {
    0 < |arg| && arg[0] == '-'
  }

  /** A non-flag argument that is truthy, so it sets the file name for good. */
  predicate NamesFile(arg: string) {
    !IsFlag(arg) && arg != ""
  }

  /** The flags among `args`, in their original order. */
  function Flags(args: seq<string>): seq<string> {
    if args == [] then []
    else Flags(args[..|args| - 1]) + (if IsFlag(args[|args| - 1]) then [args[|args| - 1]] else [])
  }

  /**
   * The scan stops at argument `k`: an unknown flag, or a second non-flag
   * argument once an earlier one has set a (non-empty) file name.
   */
  predicate StopsAt(args: seq<string>, k: int)
    requires 0 <= k < |args|
  {
    if IsFlag(args[k]) then args[k] !in ValidArgs
    else exists j :: 0 <= j < k && NamesFile(args[j])
  }

  /** The scan of main.ts:20-53, over the arguments after the first two. */
  method ScanArguments(argv: seq<string>) returns (r: Launch)
    ensures var args := UserArgs(argv);
      forall k :: 0 <= k < |args| && StopsAt(args, k) && (forall j :: 0 <= j < k ==> !StopsAt(args, j)) ==>
        r == if IsFlag(args[k]) then UndefinedArgument(args[k]) else FilenameAlreadySpecified
    ensures var args := UserArgs(argv);
      (forall k :: 0 <= k < |args| ==> !StopsAt(args, k)) ==>
        && (r.StartShell? || r.ReadFile?)
        && r.inputArgs == Flags(args)
        && (r.ReadFile? <==> exists k :: 0 <= k < |args| && NamesFile(args[k]))
        && (r.ReadFile? ==> NamesFile(r.filename) && r.filename in args)
  {
    var args := UserArgs(argv);
    var inputArgs: seq<string> := [];
    var filename := "";
    for i := 0 to |args|
      invariant forall k :: 0 <= k < i ==> !StopsAt(args, k)
      invariant inputArgs == Flags(args[..i])
      invariant filename != "" <==> exists j :: 0 <= j < i && NamesFile(args[j])
      invariant filename != "" ==> NamesFile(filename) && filename in args
    {
      assert args[..i + 1][..i] == args[..i];
      var arg := args[i];
      if IsFlag(arg) {
        if arg !in ValidArgs {
          assert StopsAt(args, i);
          return UndefinedArgument(arg);
        }
        inputArgs := inputArgs + [arg];
        continue;
      }
      if filename != "" {
        assert StopsAt(args, i);
        return FilenameAlreadySpecified;
      }
      filename := arg;
    }
    assert args[..|args|] == args;
    if filename == "" {
      return StartShell(inputArgs);
    }
    return ReadFile(filename, inputArgs);
  }
}
