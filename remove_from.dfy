/**
 * The `remove-from` command of the CLI: it takes a workspace name and the
 * flags `-y`/`--yes` from its argument list, asks for confirmation unless
 * forced, and then removes the current function from that workspace.
 *
 * The CLI's error exit (`FaaStRuby::CLI.error`) ends the process; here it is
 * the status `Exit(messages)`, after which nothing else of the command runs.
 */
module RemoveFromCommand {
  import opened Wrappers

  /** How a step of the command ends. */
  datatype Status =
    | Continue                  // carry on
    | Exit(messages: seq<string>) // the CLI's error exit, with these messages
    | Finished(message: string) // the command completed, showing this text

  /** The command's synopsis (colour codes left out). */
  function Help(): (h: string)
    ensures h == "remove-from WORKSPACE_NAME [-y, --yes]"
  {
    "remove-from" + " WORKSPACE_NAME [-y, --yes]"
  }

  function Usage(): (u: string)
    ensures u == "Usage: faastruby remove-from WORKSPACE_NAME [-y, --yes]"
  {
    "Usage: faastruby " + Help()
  }

  const MissingWorkspace := "Missing argument: WORKSPACE_NAME"

  function InvalidName(arg: string): string {
    "'" + arg + "' is not a valid workspace name."
  }

  function UnknownArgument(option: string): string {
    "Unknown argument: " + option
  }

  /**
   * Ruby's match of `arg` against the pattern `^-.*`. In Ruby `^` matches at the start of every line,
   * so a dash right after a newline counts as well as a leading one.
   */
  predicate LineStartsWithDash(s: string)
    ensures |s| > 0 && s[0] == '-' ==> LineStartsWithDash(s)
    ensures LineStartsWithDash(s) ==> '-' in s
  {
    exists k | 0 <= k < |s| :: s[k] == '-' && (k == 0 || s[k - 1] == '\n')
  }

  /** A leading dash always matches; so does a dash that starts a later line. */
  lemma DashedNames(s: string)
    ensures |s| > 0 && s[0] == '-' ==> LineStartsWithDash(s)
    ensures '-' !in s ==> !LineStartsWithDash(s)
    ensures LineStartsWithDash("staging\n-y")
    ensures !LineStartsWithDash("staging-y")
  {
    assert "staging\n-y"[8] == '-' && "staging\n-y"[7] == '\n';
    if |s| > 0 && s[0] == '-' {
      assert s[0] == '-';
    }
    if LineStartsWithDash(s) {
      var k :| 0 <= k < |s| && s[k] == '-' && (k == 0 || s[k - 1] == '\n');
      assert s[k] in s;
    }
  }

  /** Ruby's `chomp`: drop one trailing "\r\n", "\n" or "\r". */
  function Chomp(s: string): (r: string)
    ensures r <= s
    ensures s[|r|..] in {"", "\n", "\r", "\r\n"}
    ensures |s| >= 2 && s[|s| - 2..] == "\r\n" ==> |r| == |s| - 2
    ensures r == s ==> s == [] || (s[|s| - 1] != '\n' && s[|s| - 1] != '\r')
  {
    if |s| >= 2 && s[|s| - 2..] == "\r\n" then s[..|s| - 2]
    else if |s| >= 1 && (s[|s| - 1] == '\n' || s[|s| - 1] == '\r') then
      assert s[|s| - 1..] == [s[|s| - 1]];
      s[..|s| - 1]
    else
      assert s[|s|..] == "";
      s
  }

  /** A "y" reply confirms, with or without its line ending. */
  lemma ConfirmingReplies()
    ensures Chomp("y\n") == "y" && Chomp("y\r\n") == "y" && Chomp("y") == "y"
  {
    assert "y\n"[..1] == "y";
    assert "y\r\n"[1..] == "\r\n" && "y\r\n"[..1] == "y";
  }

  /** Only a reply that is exactly "y" once its line ending is dropped confirms. */
  lemma CancellingReplies()
    ensures Chomp("Y\n") == "Y" && Chomp("yes\n") == "yes"
    ensures Chomp("\n") == "" && Chomp("y\n\n") == "y\n"
  {
    assert "Y\n"[..1] == "Y";
    assert "yes\n"[..3] == "yes";
    assert "y\n\n"[..2] == "y\n";
  }

  predicate IsYesFlag(option: string) {
    option == "-y" || option == "--yes"
  }

  /** What `parse_options` makes of the arguments left after the workspace name. */
  datatype OptionsResult = Accepted(options: map<string, string>) | Aborted(messages: seq<string>)

  /** The loop of `parse_options` as a specification, one argument per step. */
  function ConsumeOptions(rest: seq<string>, options: map<string, string>): (r: OptionsResult)
    ensures r.Accepted? ==> r.options.Keys <= options.Keys + {"force"}
    ensures r.Accepted? ==> forall key | key in options && key != "force" :: key in r.options && r.options[key] == options[key]
    ensures r.Accepted? && rest != [] ==> "force" in r.options && r.options["force"] == "y"
    ensures r.Aborted? ==> rest != [] && |r.messages| == 2 && r.messages[1] == Usage()
    decreases |rest|
  {
    if rest == [] then Accepted(options)
    else if IsYesFlag(rest[0]) then ConsumeOptions(rest[1..], options["force" := "y"])
    else Aborted([UnknownArgument(rest[0]), Usage()])
  }

  /** Flags alone are accepted; any number of them, in any mix, just sets `force` to "y". */
  lemma {:induction false} FlagsOnly(rest: seq<string>, options: map<string, string>)
    requires forall k | 0 <= k < |rest| :: IsYesFlag(rest[k])
    ensures ConsumeOptions(rest, options) == Accepted(if rest == [] then options else options["force" := "y"])
    decreases |rest|
  {
    if rest != [] {
      var next := options["force" := "y"];
      FlagsOnly(rest[1..], next);
      assert next["force" := "y"] == next;
    }
  }

  /** The first argument that is not a flag aborts, whatever follows it. */
  lemma {:induction false} FirstUnknownAborts(rest: seq<string>, options: map<string, string>, k: nat)
    requires k < |rest| && !IsYesFlag(rest[k])
    requires forall j | 0 <= j < k :: IsYesFlag(rest[j])
    ensures ConsumeOptions(rest, options) == Aborted([UnknownArgument(rest[k]), Usage()])
    decreases k
  {
    if k > 0 {
      assert IsYesFlag(rest[0]);
      assert forall j | 0 <= j < k - 1 :: rest[1..][j] == rest[j + 1];
      FirstUnknownAborts(rest[1..], options["force" := "y"], k - 1);
    }
  }

  /** Repeating a flag changes nothing. */
  lemma YesFlagIdempotent(flag: string, rest: seq<string>, options: map<string, string>)
    requires IsYesFlag(flag)
    ensures ConsumeOptions([flag, flag] + rest, options) == ConsumeOptions([flag] + rest, options)
  {
    var once := options["force" := "y"];
    assert ([flag, flag] + rest)[1..] == [flag] + rest;
    assert ([flag] + rest)[1..] == rest;
    assert once["force" := "y"] == once;
  }

  /** The command object; `args` is the argument list it consumes. */
  class RemoveFrom {
    var args: seq<string>
    var missingArgs: seq<string>
    var workspaceName: Option<string>
    var functionName: Option<string>
    var options: map<string, string>

    constructor ()
      ensures args == [] && missingArgs == [] && options == map[]
      ensures workspaceName == None && functionName == None
    {
      args := [];
      missingArgs := [];
      workspaceName := None;
      functionName := None;
      options := map[];
    }

    /**
     * `missing_args`: note the missing workspace name, or stop at once when
     * the first argument looks like an option.
     */
    method MissingArgs() returns (status: Status)
      modifies this`missingArgs
      ensures missingArgs == old(missingArgs) + (if args == [] then [MissingWorkspace, Usage()] else [])
      ensures status == if args != [] && LineStartsWithDash(args[0]) then Exit([InvalidName(args[0]), Usage()]) else Continue
    {
      if args == [] {
        missingArgs := missingArgs + [MissingWorkspace];
        missingArgs := missingArgs + [Usage()];
      }
      if args != [] && LineStartsWithDash(args[0]) {
        return Exit([InvalidName(args[0]), Usage()]);
      }
      status := Continue;
    }

    /** `parse_options`: consume every remaining argument, each of which must be a flag. */
    method ParseOptions() returns (status: Status)
      modifies this`args, this`options
      ensures var r := ConsumeOptions(old(args), map[]);
        (r.Accepted? ==> status == Continue && options == r.options && args == [])
        && (r.Aborted? ==> status == Exit(r.messages))
    {
      options := map[];
      while args != []
        invariant ConsumeOptions(args, options) == ConsumeOptions(old(args), map[])
        decreases |args|
      {
        var option := args[0];
        args := args[1..];
        if IsYesFlag(option) {
          options := options["force" := "y"];
        } else {
          return Exit([UnknownArgument(option), Usage()]);
        }
      }
      status := Continue;
    }

    /**
     * `initialize`: check the arguments, take the first one as the workspace
     * name, take the function name from the project configuration, then parse
     * the flags.
     */
    method Initialize(arguments: seq<string>, configName: string) returns (status: Status)
      modifies this
      ensures arguments == [] ==>
        status == Exit([MissingWorkspace, Usage()]) && workspaceName == old(workspaceName)
      ensures arguments != [] && LineStartsWithDash(arguments[0]) ==>
        status == Exit([InvalidName(arguments[0]), Usage()]) && workspaceName == old(workspaceName)
      ensures arguments != [] && !LineStartsWithDash(arguments[0]) ==>
        workspaceName == Some(arguments[0]) && functionName == Some(configName)
        && var r := ConsumeOptions(arguments[1..], map[]);
           (r.Accepted? ==> status == Continue && options == r.options && args == [])
           && (r.Aborted? ==> status == Exit(r.messages))
    {
      args := arguments;
      missingArgs := [];
      var check := MissingArgs();
      if check.Exit? {
        return check;
      }
      if missingArgs != [] {
        return Exit(missingArgs);
      }
      workspaceName := Some(args[0]);
      args := args[1..];
      functionName := Some(configName);
      status := ParseOptions();
    }

    /**
     * `run`: without `force`, the prompt reply (line ending dropped) becomes
     * `force`; only "y" goes on to remove the function, whose errors, if
     * any, end the command.
     */
    method Run(reply: string, destroyErrors: seq<string>) returns (status: Status, destroyed: bool)
      modifies this`options
      ensures options == if "force" in old(options) then old(options) else old(options)["force" := Chomp(reply)]
      ensures destroyed <==> options["force"] == "y"
      ensures status ==
        if !destroyed then Exit(["Cancelled"])
        else if destroyErrors != [] then Exit(destroyErrors)
        else Finished("Done!")
    {
      if "force" !in options {
        options := options["force" := Chomp(reply)];
      }
      if options["force"] != "y" {
        return Exit(["Cancelled"]), false;
      }
      destroyed := true;
      if destroyErrors != [] {
        return Exit(destroyErrors), destroyed;
      }
      status := Finished("Done!");
    }
  }
}
