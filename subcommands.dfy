/**
 A model of a command-line dispatcher: a program registers named subcommands,
 and one call of `Execute` picks the subcommand named by the first positional
 argument (or the one after `help`), hands it the arguments after its token,
 and returns its result; the bare, `help` and unknown-command paths print
 guidance text and return no error.

 The positional arguments are those left after top-level flag parsing; the
 program name is passed in explicitly instead of being read from the process.
 */
module Subcommands {

  datatype Option<+T> = None | Some(value: T)

  /** The result of a Go function returning `error`: nil, or a failure with its message. */
  datatype Error = Nil | Failed(msg: string)

  /**
   A registered command. `exec` stands for everything the command itself does
   once dispatched to: registering its flags into a fresh flag set, parsing
   the arguments it is handed, and running; it maps those arguments to the
   command's result.
   */
  datatype Cmd = Cmd(name: string, intro: string, exec: seq<string> -> Error)

  /** Calls the dispatcher makes into the registered command at index `cmd`. */
  datatype Call =
    | SetFlagsOf(cmd: nat)
    | ParseFlagsOf(cmd: nat, args: seq<string>)
    | ExecuteOf(cmd: nat)

  /** What the dispatcher writes to its output. */
  datatype Output =
    | Printed(text: string)  // text rendered by the dispatcher itself
    | FlagUsage(cmd: nat)    // the flag set usage of the command at index `cmd`
    | Silent                 // nothing: the command ran

  /** The decision `Execute` makes from the positional arguments. */
  datatype Resolution =
    | Usage
    | Help(idx: nat)
    | Run(idx: nat, rest: seq<string>)
    | Unknown(name: string)

  /** The i-th positional argument, or "" when there are not that many. */
  function Arg(args: seq<string>, i: nat): string
  {
    if i < |args| then args[i] else ""
  }

  /** The lowest index of a registered command called `name`, if any. */
  function FirstMatch(cmds: seq<Cmd>, name: string): (r: Option<nat>)
    ensures r.Some? ==> r.value < |cmds| && cmds[r.value].name == name
    ensures r.Some? ==> forall j :: 0 <= j < r.value ==> cmds[j].name != name
    ensures r.None? <==> forall j :: 0 <= j < |cmds| ==> cmds[j].name != name
  {
    if cmds == [] then None
    else if cmds[0].name == name then Some(0)
    else match FirstMatch(cmds[1..], name)
      case None => None
      case Some(i) => Some(i + 1)
  }

  /** How a list of positional arguments is dispatched over the registry `cmds`. */
  function Resolve(args: seq<string>, cmds: seq<Cmd>): (r: Resolution)
    ensures r.Help? ==> r.idx < |cmds|
    ensures r.Run? ==> r.idx < |cmds|
  {
    var first := Arg(args, 0);
    if first == "" then Usage
    else if first == "help" then
      var target := Arg(args, 1);
      if target == "" then Usage
      else match FirstMatch(cmds, target)
        case Some(i) => Help(i)
        case None => Unknown(target)
    else match FirstMatch(cmds, first)
      case Some(i) => Run(i, args[1..])
      case None => Unknown(first)
  }

  /** The second line of the usage text, present when commands are registered. */
  function Header(prog: string): string
  {
    "\t" + prog + " <command> [arguments]\n\nThe commands are:\n"
  }

  /** The usage line of one command: its name, four spaces and a tab, its intro. */
  function CommandLine(c: Cmd): string
  {
    "\t" + c.name + "    \t" + c.intro + "\n"
  }

  /** The usage lines of `cmds`, in registry order. */
  function Listing(cmds: seq<Cmd>): string
  {
    if cmds == [] then "" else Listing(cmds[..|cmds| - 1]) + CommandLine(cmds[|cmds| - 1])
  }

  /** Listing one more command of a registry adds its line at the end. */
  lemma ListingStep(cmds: seq<Cmd>, i: nat)
    requires i < |cmds|
    ensures Listing(cmds[..i + 1]) == Listing(cmds[..i]) + CommandLine(cmds[i])
  {
    assert cmds[..i + 1][..i] == cmds[..i];
  }

  /** The closing hint of the usage text. */
  function Hint(prog: string): string
  {
    "\nUse \"" + prog + " help <command>\" for more information about a command.\n"
  }

  /** The full usage text for program `prog` with registry `cmds`. */
  function UsageText(prog: string, cmds: seq<Cmd>): (r: string)
    ensures |r| >= 7 && r[..7] == "Usage:\n"
    ensures |r| >= |Hint(prog)| && r[|r| - |Hint(prog)|..] == Hint(prog)
    ensures cmds == [] ==> r == "Usage:\n" + Hint(prog)
  {
    "Usage:\n" + (if |cmds| > 0 then Header(prog) + Listing(cmds) else "") + Hint(prog)
  }

  const UnknownTail := ": unknown command\n"

  /** The message printed for a command name that matches no registered command. */
  function UnknownText(prog: string, name: string): (r: string)
    ensures |r| > |prog| + |name| && r[..|prog| + 1] == prog + " "
    ensures r[|prog| + 1..|prog| + 1 + |name|] == name
    ensures r[|prog| + 1 + |name|..] == UnknownTail + "Run '" + prog + " help' for usage.\n"
  {
    prog + " " + name + UnknownTail + "Run '" + prog + " help' for usage.\n"
  }

  /** The dispatcher: its registry of commands, in registration order. */
  class Dispatcher {
    var cmds: seq<Cmd>

    /** A dispatcher with nothing registered. */
    constructor ()
      ensures cmds == []
    {
      cmds := [];
    }

    /** Appends `c` at the end of the registry; duplicate names are accepted. */
    method Register(c: Cmd)
      modifies this
      ensures cmds == old(cmds) + [c]
    {
      cmds := cmds + [c];
    }

    /** Builds the usage text piece by piece, one line per registered command. */
    method PrintUsage(prog: string) returns (text: string)
      ensures text == UsageText(prog, cmds)
    {
      text := "Usage:\n";
      if |cmds| > 0 {
        text := text + Header(prog);
        for i := 0 to |cmds|
          invariant text == "Usage:\n" + Header(prog) + Listing(cmds[..i])
        {
          ListingStep(cmds, i);
          text := text + CommandLine(cmds[i]);
        }
        assert cmds[..|cmds|] == cmds;
      }
      text := text + Hint(prog);
    }

    /**
     Dispatches the positional arguments `args` of program `prog`: returns the
     error to report, what was written to the output, and the calls made into
     registered commands, in order.
     */
    method Execute(prog: string, args: seq<string>) returns (err: Error, out: Output, calls: seq<Call>)
      ensures match Resolve(args, cmds)
        case Usage => err == Nil && out == Printed(UsageText(prog, cmds)) && calls == []
        case Help(i) => err == Nil && out == FlagUsage(i) && calls == [SetFlagsOf(i)]
        case Run(i, rest) =>
          && err == cmds[i].exec(rest)
          && out == Silent
          && calls == [SetFlagsOf(i), ParseFlagsOf(i, rest), ExecuteOf(i)]
        case Unknown(name) => err == Nil && out == Printed(UnknownText(prog, name)) && calls == []
    {
      var name := Arg(args, 0);
      if name == "" {
        var usage := PrintUsage(prog);
        return Nil, Printed(usage), [];
      }

      var help := false;
      if name == "help" {
        help := true;
        name := Arg(args, 1);
        if name == "" {
          var usage := PrintUsage(prog);
          return Nil, Printed(usage), [];
        }
      }

      for i := 0 to |cmds|
        invariant forall j :: 0 <= j < i ==> cmds[j].name != name
      {
        if cmds[i].name != name {
          continue;
        }
        calls := [SetFlagsOf(i)];
        if help {
          return Nil, FlagUsage(i), calls;
        }
        var rest := args[1..];
        calls := calls + [ParseFlagsOf(i, rest)];
        err := cmds[i].exec(rest);
        return err, Silent, calls + [ExecuteOf(i)];
      }

      return Nil, Printed(prog + " " + name + UnknownTail + "Run '" + prog + " help' for usage.\n"), [];
    }
  }
}
