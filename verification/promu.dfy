/**
 * The small helpers of the root command (cmd/promu.go) and the defaults it
 * writes into the configuration store.
 */
module Promu {
  import opened Wrappers
  import opened Strs
  import Platforms

  /** stringInSlice: a search loop that returns as soon as it sees the needle. */
  method StringInSlice(needle: string, haystack: seq<string>) returns (found: bool)
    ensures found <==> needle in haystack
  {
    for i := 0 to |haystack|
      invariant needle !in haystack[..i]
    {
      if haystack[i] == needle {
        return true;
      }
    }
    return false;
  }

  /** stringInMapKeys: whether the key has an entry. */
  function StringInMapKeys(needle: string, haystack: map<string, seq<string>>): (r: bool)
    ensures r <==> needle in haystack.Keys
  {
    needle in haystack
  }

  /** optArg: the i-th argument when there is one, otherwise the default. */
  function OptArg(args: seq<string>, i: nat, def: string): (r: string)
    ensures i < |args| ==> r == args[i]
    ensures |args| <= i ==> r == def
  {
    if i + 1 > |args| then def else args[i]
  }

  /** os.Getenv: an unset variable reads as the empty string. */
  function Getenv(env: map<string, string>, name: string): string {
    if name in env then env[name] else ""
  }

  /** envOr: the variable's value, or the default when it is empty or unset. */
  function EnvOr(env: map<string, string>, name: string, def: string): (r: string)
    ensures Getenv(env, name) == "" ==> r == def
    ensures Getenv(env, name) != "" ==> r == env[name] && r != ""
  {
    var s := Getenv(env, name);
    if s == "" then def else s
  }

  /** The characters readFile strips from both ends of a file. */
  const FileCutset: set<char> := {'\n', '\r', ' '}

  /**
   * readFile: the content trimmed of newlines, carriage returns and spaces
   * at both ends; an unreadable file reads as the empty string.
   */
  function ReadFile(content: Option<string>): (r: string)
    ensures content.None? ==> r == ""
    ensures r == [] || (r[0] !in FileCutset && r[|r| - 1] !in FileCutset)
    ensures content.Some? ==> Trimmed(content.value, r, FileCutset)
  {
    match content
    case None => ""
    case Some(data) => TrimIsTrimmed(data, FileCutset); Trim(data, FileCutset)
  }

  /** shellOutput: the command's output trimmed of spaces, newlines and carriage returns. */
  function ShellOutput(out: string): (r: string)
    ensures r == [] || (r[0] !in FileCutset && r[|r| - 1] !in FileCutset)
    ensures Trimmed(out, r, FileCutset)
  {
    TrimIsTrimmed(out, FileCutset);
    Trim(out, FileCutset)
  }

  /** `r` is `s` with some characters of `cut` removed at each end, and nothing else. */
  predicate Trimmed(s: string, r: string, cut: set<char>) {
    exists lead: nat {:trigger s[lead..]} :: lead + |r| <= |s| && s[lead..][..|r|] == r
      && (forall k :: 0 <= k < lead ==> s[k] in cut)
      && (forall k :: lead + |r| <= k < |s| ==> s[k] in cut)
  }

  lemma TrimIsTrimmed(s: string, cut: set<char>)
    ensures Trimmed(s, Trim(s, cut), cut)
  {
    var l := TrimLeft(s, cut);
    var r := TrimRight(l, cut);
    var lead := |s| - |l|;
    TrimLeftSuffix(s, cut);
    assert s[lead..] == l;
    assert s[lead..][..|r|] == r;
    assert forall k :: 0 <= k < lead ==> s[k] in cut;
    forall k | lead + |r| <= k < |s| ensures s[k] in cut {
      assert s[k] == l[k - lead];
    }
    assert lead + |r| <= |s|;
  }

  /** Trimming a readFile result again changes nothing. */
  lemma ReadFileIdempotent(content: string)
    ensures ReadFile(Some(ReadFile(Some(content)))) == ReadFile(Some(content))
  {
    var r := ReadFile(Some(content));
    assert TrimLeft(r, FileCutset) == r;
    assert TrimRight(r, FileCutset) == r;
  }

  /** A value of the configuration store, as far as these keys use it. */
  datatype Value =
    | Str(s: string)
    | Flag(b: bool)
    | List(items: seq<string>)
    | Binaries(bins: seq<(string, string)>)

  /** The platform list used when none is configured: main, ARM, PowerPC, MIPS (no s390x). */
  const DefaultPlatforms: seq<string> :=
    Platforms.MainPlatforms + Platforms.ARMPlatforms + Platforms.PowerPCPlatforms + Platforms.MIPSPlatforms

  /** The defaulted keys and their defaults, in the order they are set. */
  function DefaultEntries(name: string, repo: string): seq<(string, Value)> {
    [
      ("build.binaries", Binaries([(name, ".")])),
      ("build.prefix", Str(".")),
      ("crossbuild.platforms", List(DefaultPlatforms)),
      ("tarball.prefix", Str(".")),
      ("go.version", Str("1.8.3")),
      ("go.cgo", Flag(false)),
      ("repository.path", Str(repo))
    ]
  }

  /** The store after one IsSet/Set pair. */
  function SetIfUnset(m: map<string, Value>, key: string, v: Value): map<string, Value> {
    if key in m then m else m[key := v]
  }

  /** The key ends up set, an existing value is kept, a missing one gets `v`, and no other key changes. */
  lemma SetIfUnsetSpec(m: map<string, Value>, key: string, v: Value)
    ensures var r := SetIfUnset(m, key, v);
            key in r && (key in m ==> r[key] == m[key]) && (key !in m ==> r[key] == v)
    ensures var r := SetIfUnset(m, key, v);
            forall k :: k != key ==> (k in r <==> k in m) && (k in m ==> r[k] == m[k])
  {
  }

  /** The store after an IsSet/Set pair for each entry, in order. */
  function ApplyDefaults(m: map<string, Value>, entries: seq<(string, Value)>): map<string, Value>
    decreases |entries|
  {
    if entries == [] then m else ApplyDefaults(SetIfUnset(m, entries[0].0, entries[0].1), entries[1..])
  }

  function EntryKeys(entries: seq<(string, Value)>): set<string> {
    set e | e in entries :: e.0
  }

  predicate DistinctKeys(entries: seq<(string, Value)>) {
    forall i, j :: 0 <= i < j < |entries| ==> entries[i].0 != entries[j].0
  }

  /**
   * Defaulting keeps every value already set, adds exactly the defaulted
   * keys that were missing, and gives each of those its default.
   */
  lemma {:induction false} ApplyDefaultsSpec(m: map<string, Value>, entries: seq<(string, Value)>)
    requires DistinctKeys(entries)
    ensures forall k :: k in m ==> k in ApplyDefaults(m, entries) && ApplyDefaults(m, entries)[k] == m[k]
    ensures ApplyDefaults(m, entries).Keys == m.Keys + EntryKeys(entries)
    ensures forall i :: 0 <= i < |entries| && entries[i].0 !in m ==> ApplyDefaults(m, entries)[entries[i].0] == entries[i].1
    decreases |entries|
  {
    if entries != [] {
      var m1 := SetIfUnset(m, entries[0].0, entries[0].1);
      SetIfUnsetSpec(m, entries[0].0, entries[0].1);
      var rest := entries[1..];
      ApplyDefaultsSpec(m1, rest);
      assert EntryKeys(entries) == {entries[0].0} + EntryKeys(rest);
      forall i | 0 <= i < |entries| && entries[i].0 !in m
        ensures ApplyDefaults(m, entries)[entries[i].0] == entries[i].1
      {
        if i > 0 {
          assert rest[i - 1] == entries[i];
        }
      }
    }
  }

  /** The seven defaults have distinct keys, so each unset key gets its own default. */
  lemma DefaultEntriesDistinct(name: string, repo: string)
    ensures DistinctKeys(DefaultEntries(name, repo))
  {
  }

  /** Seven IsSet/Set pairs, one per entry in order, give the defaulted store. */
  lemma ApplySeven(e: seq<(string, Value)>, m0: map<string, Value>, m1: map<string, Value>,
                   m2: map<string, Value>, m3: map<string, Value>, m4: map<string, Value>,
                   m5: map<string, Value>, m6: map<string, Value>, m7: map<string, Value>)
    requires |e| == 7
    requires m1 == SetIfUnset(m0, e[0].0, e[0].1) && m2 == SetIfUnset(m1, e[1].0, e[1].1)
    requires m3 == SetIfUnset(m2, e[2].0, e[2].1) && m4 == SetIfUnset(m3, e[3].0, e[3].1)
    requires m5 == SetIfUnset(m4, e[4].0, e[4].1) && m6 == SetIfUnset(m5, e[5].0, e[5].1)
    requires m7 == SetIfUnset(m6, e[6].0, e[6].1)
    ensures m7 == ApplyDefaults(m0, e)
  {
    assert e[6..][1..] == [];
    assert ApplyDefaults(m6, e[6..]) == m7;
    assert e[5..][1..] == e[6..];
    assert ApplyDefaults(m5, e[5..]) == m7;
    assert e[4..][1..] == e[5..];
    assert ApplyDefaults(m4, e[4..]) == m7;
    assert e[3..][1..] == e[4..];
    assert ApplyDefaults(m3, e[3..]) == m7;
    assert e[2..][1..] == e[3..];
    assert ApplyDefaults(m2, e[2..]) == m7;
    assert e[1..][1..] == e[2..];
    assert ApplyDefaults(m1, e[1..]) == m7;
  }

  /** The process-wide configuration store (viper), keyed by dotted names. */
  class ConfigStore {
    var values: map<string, Value>

    constructor (initial: map<string, Value>)
      ensures values == initial
    {
      values := initial;
    }

    method IsSet(key: string) returns (b: bool)
      ensures b <==> key in values
    {
      b := key in values;
    }

    method Set(key: string, v: Value)
      modifies this
      ensures values == old(values)[key := v]
    {
      values := values[key := v];
    }

    /** viper's IsSet followed by Set when it answered false. */
    method SetDefault(key: string, v: Value)
      modifies this
      ensures values == SetIfUnset(old(values), key, v)
    {
      var isSet := IsSet(key);
      if !isSet {
        Set(key, v);
      }
    }

    /** setDefaultConfigValues: fills in each unset key, one key at a time. */
    method SetDefaultConfigValues(name: string, repo: string)
      modifies this
      ensures values == ApplyDefaults(old(values), DefaultEntries(name, repo))
    {
      ghost var m0 := values;
      SetDefault("build.binaries", Binaries([(name, ".")]));
      ghost var m1 := values;
      SetDefault("build.prefix", Str("."));
      ghost var m2 := values;
      SetDefault("crossbuild.platforms", List(DefaultPlatforms));
      ghost var m3 := values;
      SetDefault("tarball.prefix", Str("."));
      ghost var m4 := values;
      SetDefault("go.version", Str("1.8.3"));
      ghost var m5 := values;
      SetDefault("go.cgo", Flag(false));
      ghost var m6 := values;
      SetDefault("repository.path", Str(repo));
      ApplySeven(DefaultEntries(name, repo), m0, m1, m2, m3, m4, m5, m6, values);
    }
  }
}
