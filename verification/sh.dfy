/**
 * The shell helpers (util/sh/sh.go): running a command, splitting a flag
 * string into parameters with single-quote grouping, and quoting
 * parameters for display.
 */
module Sh {
  import opened Wrappers
  import opened Strs

  /** `'…'` with no quote inside: the first alternative of the parameter pattern. */
  predicate IsQuoted(t: string) {
    |t| >= 2 && t[0] == '\'' && t[|t| - 1] == '\'' && '\'' !in t[1..|t| - 1]
  }

  /** The length of the longest prefix without a space. */
  function NonSpaceRun(s: string): (n: nat)
    ensures n <= |s|
    ensures ' ' !in s[..n]
    ensures n < |s| ==> s[n] == ' '
    decreases |s|
  {
    if s == [] || s[0] == ' ' then 0
    else
      var n := 1 + NonSpaceRun(s[1..]);
      assert s[..n] == [s[0]] + s[1..][..n - 1];
      n
  }

  /**
   * The length of the match at the start of `s`: a quoted run when a
   * closing quote follows, otherwise the run of non-space characters.
   */
  function TokenLength(s: string): (n: nat)
    requires s != [] && s[0] != ' '
    ensures 1 <= n <= |s|
    ensures ' ' in s[..n] ==> IsQuoted(s[..n])
  {
    if s[0] == '\'' && IndexOf(s[1..], '\'') >= 0 then
      var n := IndexOf(s[1..], '\'') + 2;
      assert s[..n][1..n - 1] == s[1..][..n - 2];
      n
    else
      NonSpaceRun(s)
  }

  /**
   * SplitParameters: every match of `'[^']*'|[^ ]+`, left to right. Each
   * parameter is non-empty, and holds a space only when it is a quoted run.
   */
  function SplitParameters(s: string): (r: seq<string>)
    ensures forall t :: t in r ==> t != [] && t[0] != ' '
    ensures forall t :: t in r && ' ' in t ==> IsQuoted(t)
    decreases |s|
  {
    if s == [] then []
    else if s[0] == ' ' then SplitParameters(s[1..])
    else
      var n := TokenLength(s);
      [s[..n]] + SplitParameters(s[n..])
  }

  /** A string of spaces has no parameters. */
  lemma {:induction false} SplitParametersBlank(s: string)
    requires forall i :: 0 <= i < |s| ==> s[i] == ' '
    ensures SplitParameters(s) == []
    decreases |s|
  {
    if s != [] {
      SplitParametersBlank(s[1..]);
    }
  }

  /** A parameter that splits back to itself: a quoted run, or a word that neither holds a space nor opens a quote. */
  predicate Word(w: string) {
    IsQuoted(w) || (w != [] && ' ' !in w && w[0] != '\'')
  }

  lemma WordLength(w: string, rest: string)
    requires Word(w)
    requires rest == [] || rest[0] == ' '
    ensures TokenLength(w + rest) == |w|
    ensures (w + rest)[..|w|] == w && (w + rest)[|w|..] == rest
  {
    var s := w + rest;
    assert s[..|w|] == w;
    if IsQuoted(w) {
      assert s[1..] == w[1..] + rest;
      assert w[1..] == w[1..|w| - 1] + ['\''];
      assert s[1..] == w[1..|w| - 1] + ['\''] + rest;
      IndexOfJoin(w[1..|w| - 1], '\'', rest);
    } else {
      NonSpaceRunAppend(w, rest);
    }
  }

  lemma {:induction false} NonSpaceRunAppend(w: string, rest: string)
    requires ' ' !in w
    requires rest == [] || rest[0] == ' '
    ensures NonSpaceRun(w + rest) == |w|
    decreases |w|
  {
    if w == [] {
      assert w + rest == rest;
    } else {
      assert (w + rest)[1..] == w[1..] + rest;
      NonSpaceRunAppend(w[1..], rest);
    }
  }

  /** Words joined by single spaces split back into the same words. */
  lemma {:induction false} SplitParametersJoin(ws: seq<string>)
    requires forall w :: w in ws ==> Word(w)
    ensures SplitParameters(Join(ws, " ")) == ws
    decreases |ws|
  {
    if |ws| == 1 {
      WordLength(ws[0], []);
      assert ws[0] + [] == ws[0];
      assert Join(ws, " ") == ws[0];
      assert ws[0][|ws[0]|..] == [];
    } else if |ws| > 1 {
      var rest := Join(ws[1..], " ");
      assert Join(ws, " ") == ws[0] + (" " + rest);
      WordLength(ws[0], " " + rest);
      assert (" " + rest)[1..] == rest;
      SplitParametersJoin(ws[1..]);
    }
  }

  /** The words of the example below: two plain words and one quoted word. */
  lemma ExampleWords()
    ensures forall w :: w in ["-a", "-tags", "'netgo static_build'"] ==> Word(w)
  {
    assert IsQuoted("'netgo static_build'");
  }

  /** The example's command line is its words joined by spaces. */
  lemma ExampleLine()
    ensures Join(["-a", "-tags", "'netgo static_build'"], " ") == "-a -tags 'netgo static_build'"
  {
    var ws := ["-a", "-tags", "'netgo static_build'"];
    assert ws[1..][1..] == ["'netgo static_build'"];
    assert Join(ws[1..], " ") == "-tags" + " " + "'netgo static_build'";
    assert "-a" + " " + ("-tags" + " " + "'netgo static_build'") == "-a -tags 'netgo static_build'";
  }

  /** The behaviour util/sh/sh_test.go checks: the quoted build tags stay one parameter. */
  lemma SplitParametersExample()
    ensures SplitParameters("-a -tags 'netgo static_build'") == ["-a", "-tags", "'netgo static_build'"]
  {
    ExampleWords();
    ExampleLine();
    SplitParametersJoin(["-a", "-tags", "'netgo static_build'"]);
  }

  /** What QuoteParams puts in place of each double quote: two backslashes and the quote. */
  const EscapedQuote := "\\\\\""

  /**
   * The display form of one parameter: a parameter holding a space and not
   * already starting with a quote is wrapped in double quotes, its double
   * quotes preceded by two backslashes.
   */
  function Quote(v: string): (r: string)
    ensures r == v <==> (' ' !in v || v[0] == '\'' || v[0] == '"')
    ensures r != v ==> |r| >= 2 && r[0] == '"' && r[|r| - 1] == '"'
  {
    if IndexOf(v, ' ') != -1 && v[0] != '\'' && v[0] != '"' then
      "\"" + ReplaceChar(v, '"', EscapedQuote) + "\""
    else v
  }

  /** Reading an escaped text back: each two backslashes followed by a double quote stand for the quote. */
  function Unescape(s: string): string
    decreases |s|
  {
    if |s| >= 3 && s[..3] == EscapedQuote then "\"" + Unescape(s[3..])
    else if s == [] then ""
    else [s[0]] + Unescape(s[1..])
  }

  /** An escaped text never has a double quote in its first two places. */
  lemma EscapedHead(v: string)
    ensures var e := ReplaceChar(v, '"', EscapedQuote);
            (|e| >= 1 ==> e[0] != '"') && (|e| >= 2 ==> e[1] != '"')
  {
    if v != [] && v[0] != '"' && |v| >= 2 {
      var rest := ReplaceChar(v[1..], '"', EscapedQuote);
      assert rest == (if v[1] == '"' then EscapedQuote else [v[1]]) + ReplaceChar(v[2..], '"', EscapedQuote);
    }
  }

  /** Unescaping undoes the escaping of double quotes, whatever backslashes the text holds. */
  lemma {:induction false} UnescapeEscaped(v: string)
    ensures Unescape(ReplaceChar(v, '"', EscapedQuote)) == v
    decreases |v|
  {
    if v != [] {
      var rest := ReplaceChar(v[1..], '"', EscapedQuote);
      UnescapeEscaped(v[1..]);
      if v[0] == '"' {
        var e := EscapedQuote + rest;
        assert e[..3] == EscapedQuote && e[3..] == rest;
      } else {
        var e := [v[0]] + rest;
        EscapedHead(v[1..]);
        if |e| >= 3 {
          assert e[2] == rest[1] != '"';
          assert e[..3] != EscapedQuote;
        }
        assert e[1..] == rest;
      }
    }
  }

  /** Between the added quotes a quoted parameter holds the parameter itself, read back by Unescape. */
  lemma QuoteUnescape(v: string)
    requires Quote(v) != v
    ensures var r := Quote(v); Unescape(r[1..|r| - 1]) == v
  {
    var r := Quote(v);
    var mid := ReplaceChar(v, '"', EscapedQuote);
    assert r == "\"" + mid + "\"";
    assert r[1..|r| - 1] == mid;
    UnescapeEscaped(v);
  }

  /** QuoteParams: fills a fresh slice with the display form of each parameter. */
  method QuoteParams(params: seq<string>) returns (quoted: seq<string>)
    ensures |quoted| == |params|
    ensures forall k :: 0 <= k < |params| ==> quoted[k] == Quote(params[k])
  {
    var a := new string[|params|];
    for k := 0 to |params|
      invariant forall j :: 0 <= j < k ==> a[j] == Quote(params[j])
    {
      a[k] := Quote(params[k]);
    }
    quoted := a[..];
  }

  /** The text RunCommand echoes and puts in its error: empty unless verbose. */
  function CommandText(verbose: bool, name: string, args: seq<string>): string {
    if verbose then name + " " + Join(seq(|args|, k requires 0 <= k < |args| => Quote(args[k])), " ") else ""
  }

  /**
   * RunCommand: runs `name args`; `fails` says which command lines exit
   * unsuccessfully and `cause` gives the error the process run reports for
   * one (such as "exit status 2"). A failure is that error wrapped with
   * "command failed: " and the echoed text; success gives no error.
   */
  method RunCommand(verbose: bool, name: string, args: seq<string>, fails: seq<string> -> bool, cause: seq<string> -> string)
    returns (err: Option<string>)
    ensures err.Some? <==> fails([name] + args)
    ensures err.Some? ==> err.value == "command failed: " + CommandText(verbose, name, args) + ": " + cause([name] + args)
  {
    var cmdText := "";
    if verbose {
      var quoted := QuoteParams(args);
      assert quoted == seq(|args|, k requires 0 <= k < |args| => Quote(args[k]));
      cmdText := name + " " + Join(quoted, " ");
    }
    if fails([name] + args) {
      return Some("command failed: " + cmdText + ": " + cause([name] + args));
    }
    return None;
  }

  /** The text RunCommandWithEnv echoes and puts in its error: empty unless verbose. */
  function CommandWithEnvText(verbose: bool, name: string, dir: string, env: seq<string>, args: seq<string>): string {
    if verbose then
      (if |dir| > 0 then "PWD=" + dir + " " else "") + Join(env, " ") + " " + name + " "
      + Join(seq(|args|, k requires 0 <= k < |args| => Quote(args[k])), " ")
    else ""
  }

  /**
   * RunCommandWithEnv: runs `name args` in `dir` (the current directory when
   * empty) with `env` added to the process environment; `fails` and `cause`
   * see the environment additions and the command line.
   */
  method RunCommandWithEnv(verbose: bool, name: string, dir: string, env: seq<string>, args: seq<string>,
                           fails: (seq<string>, seq<string>) -> bool, cause: (seq<string>, seq<string>) -> string)
    returns (err: Option<string>)
    ensures err.Some? <==> fails(env, [name] + args)
    ensures err.Some? ==>
              err.value == "command failed: " + CommandWithEnvText(verbose, name, dir, env, args) + ": " + cause(env, [name] + args)
  {
    var cmdText := "";
    if verbose {
      if |dir| > 0 {
        cmdText := "PWD=" + dir + " ";
      }
      var quoted := QuoteParams(args);
      assert quoted == seq(|args|, k requires 0 <= k < |args| => Quote(args[k]));
      cmdText := cmdText + Join(env, " ") + " " + name + " " + Join(quoted, " ");
    }
    if fails(env, [name] + args) {
      return Some("command failed: " + cmdText + ": " + cause(env, [name] + args));
    }
    return None;
  }
}
