/**
 * The lexical path functions of Go's `path` and `path/filepath` packages on a
 * Unix host (separator '/'): Clean, Join, Base and Dir.
 */
module Paths {
  import opened Strs

  /** A path element that Clean keeps as it is. */
  predicate Plain(e: string) {
    e != "" && e != "." && e != ".." && '/' !in e
  }

  /**
   * The element rules of path.Clean, applied left to right: empty and "."
   * elements vanish, ".." removes the element before it, and a ".." that
   * would climb above the root of a rooted path vanishes.
   */
  function CleanElems(elems: seq<string>, rooted: bool, kept: seq<string>): seq<string>
    decreases |elems|
  {
    if elems == [] then kept
    else
      var e := elems[0];
      var next :=
        if e == "" || e == "." then kept
        else if e == ".." then
          (if kept != [] && kept[|kept| - 1] != ".." then kept[..|kept| - 1]
           else if rooted then kept
           else kept + [".."])
        else kept + [e];
      CleanElems(elems[1..], rooted, next)
  }

  /** path.Clean */
  function Clean(p: string): string {
    if p == "" then "."
    else
      var rooted := p[0] == '/';
      var r := (if rooted then "/" else "") + Join(CleanElems(Split(p, '/'), rooted, []), "/");
      if r == "" then "." else r
  }

  /** path.Join of two elements: empty elements are ignored and the result is cleaned. */
  function Join2(a: string, b: string): string {
    if a == "" && b == "" then ""
    else if a == "" then Clean(b)
    else if b == "" then Clean(a)
    else Clean(a + "/" + b)
  }

  /** path.Base: the last element, after trailing slashes are dropped. */
  function Base(p: string): string {
    if p == "" then "."
    else
      var q := TrimRight(p, {'/'});
      if q == "" then "/" else q[LastIndexOf(q, '/') + 1..]
  }

  /** path.Dir: everything before the last slash, cleaned. */
  function Dir(p: string): string {
    Clean(p[..LastIndexOf(p, '/') + 1])
  }

  lemma {:induction false} CleanElemsPlain(elems: seq<string>, rooted: bool, kept: seq<string>)
    requires forall e :: e in elems ==> Plain(e)
    ensures CleanElems(elems, rooted, kept) == kept + elems
    decreases |elems|
  {
    if elems != [] {
      assert elems[0] in elems;
      CleanElemsPlain(elems[1..], rooted, kept + [elems[0]]);
      assert kept + [elems[0]] + elems[1..] == kept + elems;
    }
  }

  lemma {:induction false} JoinSnoc(elems: seq<string>, sep: string)
    requires |elems| >= 2
    ensures Join(elems, sep) == Join(elems[..|elems| - 1], sep) + sep + elems[|elems| - 1]
    decreases |elems|
  {
    if |elems| > 2 {
      JoinSnoc(elems[1..], sep);
      assert elems[1..][..|elems| - 2] == elems[..|elems| - 1][1..];
    }
  }

  lemma {:induction false} JoinPlainShape(elems: seq<string>)
    requires |elems| >= 1
    requires forall e :: e in elems ==> Plain(e)
    ensures Join(elems, "/") != ""
    ensures Join(elems, "/")[0] != '/'
    ensures Join(elems, "/")[|Join(elems, "/")| - 1] != '/'
    decreases |elems|
  {
    assert elems[0] in elems;
    if |elems| >= 2 {
      JoinSnoc(elems, "/");
      assert elems[|elems| - 1] in elems;
    }
  }

  /** Joining plain elements with '/' gives a path that Clean leaves alone. */
  lemma CleanOfPlainJoin(elems: seq<string>)
    requires |elems| >= 1
    requires forall e :: e in elems ==> Plain(e)
    ensures Clean(Join(elems, "/")) == Join(elems, "/")
  {
    JoinPlainShape(elems);
    SplitJoin(elems, '/');
    CleanElemsPlain(elems, false, []);
    assert [] + elems == elems;
  }

  lemma LastIndexOfAppend(a: string, c: char, b: string)
    requires c !in b
    ensures LastIndexOf(a + [c] + b, c) == |a|
  {
    var s := a + [c] + b;
    assert s[|a|] == c;
    assert s[|a| + 1..] == b;
  }

  lemma BaseOfSuffix(a: string, last: string)
    requires last != [] && '/' !in last
    ensures Base(a + "/" + last) == last
  {
    var p := a + "/" + last;
    assert p[|p| - 1] == last[|last| - 1];
    assert TrimRight(p, {'/'}) == p;
    LastIndexOfAppend(a, '/', last);
    assert p[|a| + 1..] == last;
  }

  /** Base of a '/'-joined list of plain elements is the last element. */
  lemma BaseOfPlainJoin(elems: seq<string>)
    requires |elems| >= 1
    requires forall e :: e in elems ==> Plain(e)
    ensures Base(Join(elems, "/")) == elems[|elems| - 1]
  {
    var last := elems[|elems| - 1];
    assert last in elems;
    if |elems| == 1 {
      var p := Join(elems, "/");
      assert p == last;
      assert p[|p| - 1] != '/';
      assert TrimRight(p, {'/'}) == p;
      assert LastIndexOf(p, '/') == -1;
    } else {
      JoinSnoc(elems, "/");
      BaseOfSuffix(Join(elems[..|elems| - 1], "/"), last);
    }
  }

  lemma DirOfSuffix(a: string, last: string)
    requires '/' !in last
    ensures Dir(a + "/" + last) == Clean(a + "/")
  {
    var p := a + "/" + last;
    LastIndexOfAppend(a, '/', last);
    assert p[..|a| + 1] == a + "/";
  }

  lemma SplitTrailingSlash(init: seq<string>)
    requires |init| >= 1
    requires forall e :: e in init ==> Plain(e)
    ensures Split(Join(init, "/") + "/", '/') == init + [""]
  {
    var elems := init + [""];
    JoinSnoc(elems, "/");
    assert elems[..|elems| - 1] == init;
    var a := Join(init, "/");
    assert Join(elems, "/") == a + "/" + "";
    assert a + "/" + "" == a + "/";
    forall part | part in elems ensures '/' !in part {
      assert part in init || part == "";
    }
    SplitJoin(elems, '/');
  }

  lemma CleanTrailingSlash(init: seq<string>)
    requires |init| >= 1
    requires forall e :: e in init ==> Plain(e)
    ensures Clean(Join(init, "/") + "/") == Join(init, "/")
  {
    var a := Join(init, "/");
    var p := a + "/";
    JoinPlainShape(init);
    assert p[0] == a[0];
    SplitTrailingSlash(init);
    CleanElemsAppendEmpty(init, []);
    assert [] + init == init;
  }

  /** Dir of a '/'-joined list of at least two plain elements drops the last element. */
  lemma DirOfPlainJoin(elems: seq<string>)
    requires |elems| >= 2
    requires forall e :: e in elems ==> Plain(e)
    ensures Dir(Join(elems, "/")) == Join(elems[..|elems| - 1], "/")
  {
    var init := elems[..|elems| - 1];
    var last := elems[|elems| - 1];
    assert last in elems;
    assert forall e :: e in init ==> e in elems;
    JoinSnoc(elems, "/");
    DirOfSuffix(Join(init, "/"), last);
    CleanTrailingSlash(init);
  }

  lemma {:induction false} CleanElemsAppendEmpty(elems: seq<string>, kept: seq<string>)
    requires forall e :: e in elems ==> Plain(e)
    ensures CleanElems(elems + [""], false, kept) == kept + elems
    decreases |elems|
  {
    if elems == [] {
      assert CleanElems([""], false, kept) == CleanElems([], false, kept);
    } else {
      assert (elems + [""])[1..] == elems[1..] + [""];
      assert elems[0] in elems;
      CleanElemsAppendEmpty(elems[1..], kept + [elems[0]]);
      assert kept + [elems[0]] + elems[1..] == kept + elems;
    }
  }
}
