/**
 Properties of the dispatch rule and the usage text of module Subcommands:
 exactly when each path is taken, first-match resolution, what registering
 one more command changes, and the layout of the usage text.
 */
module SubcommandsProperties {
  import opened Subcommands

  // ---------------------------------------------------------------------------
  // When each path is taken

  /** Usage is printed exactly for a missing or empty first argument, or a bare `help`. */
  lemma UsageExactly(args: seq<string>, cmds: seq<Cmd>)
    ensures Resolve(args, cmds) == Usage <==>
      Arg(args, 0) == "" || (Arg(args, 0) == "help" && Arg(args, 1) == "")
  {
  }

  /** `help X` shows the flag usage of the first command named X, and only then is Help chosen. */
  lemma HelpExactly(args: seq<string>, cmds: seq<Cmd>, i: nat)
    ensures Resolve(args, cmds) == Help(i) <==>
      && Arg(args, 0) == "help"
      && Arg(args, 1) != ""
      && i < |cmds|
      && cmds[i].name == Arg(args, 1)
      && forall j :: 0 <= j < i ==> cmds[j].name != Arg(args, 1)
  {
    if Arg(args, 0) == "help" && i < |cmds| && cmds[i].name == Arg(args, 1) {
      FirstIsLowest(cmds, Arg(args, 1), i);
    }
  }

  /**
   A command runs exactly when the first argument is neither empty nor `help`
   and names it first in the registry; it is handed everything after its token.
   */
  lemma RunExactly(args: seq<string>, cmds: seq<Cmd>, i: nat, rest: seq<string>)
    ensures Resolve(args, cmds) == Run(i, rest) <==>
      && |args| > 0
      && args[0] != ""
      && args[0] != "help"
      && i < |cmds|
      && cmds[i].name == args[0]
      && (forall j :: 0 <= j < i ==> cmds[j].name != args[0])
      && rest == args[1..]
  {
    if |args| > 0 && i < |cmds| && cmds[i].name == args[0] {
      FirstIsLowest(cmds, args[0], i);
    }
  }

  /** The unknown-command path names the token that matched nothing. */
  lemma UnknownExactly(args: seq<string>, cmds: seq<Cmd>, name: string)
    ensures Resolve(args, cmds) == Unknown(name) <==>
      && name != ""
      && (forall j :: 0 <= j < |cmds| ==> cmds[j].name != name)
      && ((Arg(args, 0) != "help" && name == Arg(args, 0))
          || (Arg(args, 0) == "help" && name == Arg(args, 1)))
  {
  }

  /** A command named `name` with no earlier command of that name is the first match. */
  lemma FirstIsLowest(cmds: seq<Cmd>, name: string, i: nat)
    requires i < |cmds| && cmds[i].name == name
    ensures (forall j :: 0 <= j < i ==> cmds[j].name != name) <==> FirstMatch(cmds, name) == Some(i)
  {
    var r := FirstMatch(cmds, name);
    assert r.Some?;
    if r.value < i {
      assert cmds[r.value].name == name;
    }
  }

  /** A command registered under the name `help` is never run, whatever the arguments. */
  lemma HelpCommandNeverRuns(args: seq<string>, cmds: seq<Cmd>)
    ensures Resolve(args, cmds).Run? ==> cmds[Resolve(args, cmds).idx].name != "help"
  {
    var r := Resolve(args, cmds);
    if r.Run? {
      RunExactly(args, cmds, r.idx, r.rest);
    }
  }

  /** A command whose name is taken by an earlier registration is never run nor helped. */
  lemma ShadowedNeverDispatched(args: seq<string>, cmds: seq<Cmd>, i: nat, j: nat)
    requires i < j < |cmds| && cmds[i].name == cmds[j].name
    ensures Resolve(args, cmds) != Help(j)
    ensures !(Resolve(args, cmds).Run? && Resolve(args, cmds).idx == j)
  {
    var r := Resolve(args, cmds);
    if r == Help(j) {
      HelpExactly(args, cmds, j);
      assert false;
    }
    if r.Run? && r.idx == j {
      RunExactly(args, cmds, j, r.rest);
      assert false;
    }
  }

  // ---------------------------------------------------------------------------
  // Registering one more command

  /** The first match in an extended registry: the old one if any, else the new command if named so. */
  lemma FirstMatchAppend(cmds: seq<Cmd>, c: Cmd, name: string)
    ensures FirstMatch(cmds + [c], name) ==
      match FirstMatch(cmds, name)
      case Some(i) => Some(i)
      case None => if c.name == name then Some(|cmds|) else None
  {
    var ext := cmds + [c];
    assert forall j :: 0 <= j < |cmds| ==> ext[j] == cmds[j];
    match FirstMatch(cmds, name)
    case Some(i) =>
      assert ext[i].name == name;
    case None =>
      if c.name == name {
        assert ext[|cmds|].name == name;
      }
  }

  /** Registering a command changes nothing but the outcome for an unknown name. */
  lemma RegisterKeepsResolution(args: seq<string>, cmds: seq<Cmd>, c: Cmd)
    ensures !Resolve(args, cmds).Unknown? ==> Resolve(args, cmds + [c]) == Resolve(args, cmds)
  {
    FirstMatchAppend(cmds, c, Arg(args, 0));
    FirstMatchAppend(cmds, c, Arg(args, 1));
  }

  /** A name unknown so far resolves to a newly registered command of that name, at the end. */
  lemma RegisterResolvesUnknown(args: seq<string>, cmds: seq<Cmd>, c: Cmd, name: string)
    requires Resolve(args, cmds) == Unknown(name)
    ensures Resolve(args, cmds + [c]) ==
      if c.name != name then Unknown(name)
      else if Arg(args, 0) == "help" then Help(|cmds|)
      else Run(|cmds|, args[1..])
  {
    FirstMatchAppend(cmds, c, Arg(args, 0));
    FirstMatchAppend(cmds, c, Arg(args, 1));
  }

  // ---------------------------------------------------------------------------
  // The usage text

  /** The listing of two registries one after the other is the concatenation of their listings. */
  lemma {:induction false} ListingAppend(a: seq<Cmd>, b: seq<Cmd>)
    ensures Listing(a + b) == Listing(a) + Listing(b)
  {
    if b == [] {
      assert a + b == a;
    } else {
      var init, last := b[..|b| - 1], b[|b| - 1];
      assert (a + b)[..|a + b| - 1] == a + init;
      assert (a + b)[|a + b| - 1] == last;
      calc {
        Listing(a + b);
        Listing(a + init) + CommandLine(last);
        { ListingAppend(a, init); }
        (Listing(a) + Listing(init)) + CommandLine(last);
        Listing(a) + (Listing(init) + CommandLine(last));
        Listing(a) + Listing(b);
      }
    }
  }

  /** The k-th command's line stands after the lines of all earlier commands and before the later ones. */
  lemma ListingInOrder(cmds: seq<Cmd>, k: nat)
    requires k < |cmds|
    ensures Listing(cmds) == Listing(cmds[..k]) + CommandLine(cmds[k]) + Listing(cmds[k + 1..])
  {
    var pre, post := cmds[..k + 1], cmds[k + 1..];
    assert cmds == pre + post;
    ListingAppend(pre, post);
    assert pre[..|pre| - 1] == cmds[..k];
  }

  /**
   Usage with a non-empty registry: the header, then one line per command in
   registry order, with the k-th command's line after those of its predecessors.
   */
  lemma UsageListsInOrder(prog: string, cmds: seq<Cmd>, k: nat)
    requires k < |cmds|
    ensures UsageText(prog, cmds) ==
      "Usage:\n" + Header(prog) + Listing(cmds[..k]) + CommandLine(cmds[k]) + Listing(cmds[k + 1..]) + Hint(prog)
  {
    ListingInOrder(cmds, k);
  }

  /**
   After registering `c`, the usage text holds the header, the lines of the
   commands registered before, in their order, then the line of `c`, then the hint.
   */
  lemma UsageAfterRegister(prog: string, cmds: seq<Cmd>, c: Cmd)
    ensures UsageText(prog, cmds + [c]) ==
      "Usage:\n" + Header(prog) + Listing(cmds) + CommandLine(c) + Hint(prog)
  {
    assert (cmds + [c])[..|cmds|] == cmds;
    assert Listing(cmds + [c]) == Listing(cmds) + CommandLine(c);
  }

  /** The unknown-command message determines the offending name. */
  lemma UnknownTextInjective(prog: string, a: string, b: string)
    requires UnknownText(prog, a) == UnknownText(prog, b)
    ensures a == b
  {
    var t := UnknownText(prog, a);
    assert |t| == |prog| + 1 + |a| + |UnknownTail + "Run '" + prog + " help' for usage.\n"|;
    assert |t| == |prog| + 1 + |b| + |UnknownTail + "Run '" + prog + " help' for usage.\n"|;
  }

  // ---------------------------------------------------------------------------
  // The package's own test, replayed on the model

  /** The test command: `foo`, whose run succeeds. */
  function Foo(): Cmd
  {
    Cmd("foo", "i am the subcommand foo", _ => Nil)
  }

  /** `foo -bar` with `foo` registered runs foo, handing it `-bar`, and returns nil. */
  method SubCmdTest() returns (err: Error, calls: seq<Call>)
    ensures err == Nil
    ensures calls == [SetFlagsOf(0), ParseFlagsOf(0, ["-bar"]), ExecuteOf(0)]
  {
    var d := new Dispatcher();
    d.Register(Foo());
    assert d.cmds == [Foo()];
    var out;
    err, out, calls := d.Execute("subcmdtest", ["foo", "-bar"]);
  }

  /** `bogus` with only `foo` registered prints the unknown-command message naming `bogus`. */
  method BogusTest() returns (err: Error, out: Output, calls: seq<Call>)
    ensures err == Nil && calls == []
    ensures out == Printed(UnknownText("subcmdtest", "bogus"))
  {
    var d := new Dispatcher();
    d.Register(Foo());
    assert d.cmds == [Foo()];
    assert FirstMatch(d.cmds, "bogus") == None;
    err, out, calls := d.Execute("subcmdtest", ["bogus"]);
  }
}
