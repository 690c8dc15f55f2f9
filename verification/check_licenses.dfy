/**
 * The `check licenses` command of the cobra-era command line: the same
 * header check as the `check` module, reached with its own defaults for
 * the extensions, the header length and the location.
 */
module LicensesCommand {
  import opened Wrappers
  import opened Check
  import Promu
  import Strs

  /** The extensions inspected when none are given: Go sources only. */
  const DefaultSourceExtensions: seq<string> := [".go"]

  /** The number of lines read from each file when no length is given. */
  const DefaultHeaderLength: int := 10

  /**
   * The command's Run: the first argument, or ".", is the location; the
   * flags fall back to their defaults. `walk` gives the entries visited
   * from a root.
   */
  method Run(args: seq<string>, extensions: Option<seq<string>>, length: Option<int>,
             walk: string -> seq<WalkEntry>) returns (r: Result<seq<string>>)
    ensures var exts := if extensions.Some? then extensions.value else DefaultSourceExtensions;
            var n := if length.Some? then length.value else DefaultHeaderLength;
            var checked := CheckEntries(walk(WalkRoot(Promu.OptArg(args, 0, "."))), n, exts);
            r == (if checked.Ok? then checked else Err("Failed to check files for license header: " + checked.msg))
  {
    var exts := if extensions.Some? then extensions.value else DefaultSourceExtensions;
    var n := if length.Some? then length.value else DefaultHeaderLength;
    r := RunCheckLicenses(Promu.OptArg(args, 0, "."), n, exts, walk);
  }

  /** With no location argument the walk starts at "./". */
  lemma DefaultRoot()
    ensures WalkRoot(Promu.OptArg([], 0, ".")) == "./"
  {
    assert Strs.Split(".", '/') == ["."];
  }

  /** A line past the end of the file reads as empty, and an empty line mentions no header word. */
  lemma EmptyLineNoMention()
    ensures !Mentions("")
  {
    forall k | 0 <= k < |ValidHeaderStrings|
      ensures !Strs.Contains(Strs.ToLower(""), ValidHeaderStrings[k])
    {
      assert Strs.ToLower("") == "";
    }
  }

  /** Under the defaults a file passes only with a header word in its first ten lines. */
  lemma DefaultLengthTenLines(lines: seq<string>)
    ensures HasHeader(lines, DefaultHeaderLength) <==>
              exists i :: 0 <= i < 10 && i < |lines| && Mentions(lines[i])
  {
    EmptyLineNoMention();
    if HasHeader(lines, DefaultHeaderLength) {
      var i :| 0 <= i < 10 && Mentions(LineAt(lines, i));
      assert i < |lines|;
    }
    if exists i :: 0 <= i < 10 && i < |lines| && Mentions(lines[i]) {
      var i :| 0 <= i < 10 && i < |lines| && Mentions(lines[i]);
      assert LineAt(lines, i) == lines[i];
    }
  }
}
