/**
 * Helm chart helpers: the dotted-path lookup over nested values, the chart
 * archive file name serialiser and parser, and the deep copy of a chart
 * repository index.
 */
module Helm {
  import opened Wrappers

  // ---------------------------------------------------------------------------
  // Nested values and the dotted-path lookup
  // ---------------------------------------------------------------------------

  /**
   * A value of a merged Helm values tree: either a nested map (Go's
   * `map[string]interface{}`) or anything else (a scalar, a list, nil),
   * which the lookup treats alike.
   */
  datatype Value = Node(children: map<string, Value>) | Leaf(text: string)

  /**
   * The lookup of a path, already split on dots, in a values map: every key
   * must exist, and every value reached before the last key must itself be
   * a map. The value under the last key may be anything.
   */
  function HasVarPath(name: seq<string>, vals: map<string, Value>): bool
    decreases |name|
  {
    if |name| == 0 then true
    else if name[0] !in vals then false
    else if |name| == 1 then true
    else match vals[name[0]]
      case Node(m) => HasVarPath(name[1..], m)
      case Leaf(_) => false
  }

  /**
   * Reference definition, walking from the other end: the map reached after
   * following `prefix` from `vals`, or None once a key is missing or a
   * value on the way is not a map.
   */
  function Walk(prefix: seq<string>, vals: map<string, Value>): Option<map<string, Value>>
    decreases |prefix|
  {
    if prefix == [] then Some(vals)
    else match Walk(prefix[..|prefix| - 1], vals)
      case None => None
      case Some(m) =>
        var k := prefix[|prefix| - 1];
        if k in m && m[k].Node? then Some(m[k].children) else None
  }

  /** Every key of the path is present in the map reached by the keys before it. */
  ghost predicate PathPresent(path: seq<string>, vals: map<string, Value>)
  {
    forall i :: 0 <= i < |path| ==> Walk(path[..i], vals).Some? && path[i] in Walk(path[..i], vals).value
  }

  /** Walking a path that starts with `k` is walking the rest from the map under `k`. */
  lemma {:induction false} WalkCons(k: string, p: seq<string>, vals: map<string, Value>)
    ensures Walk([k] + p, vals) == (if k in vals && vals[k].Node? then Walk(p, vals[k].children) else None)
    decreases |p|
  {
    var q := [k] + p;
    if p == [] {
      assert q[..|q| - 1] == [];
    } else {
      assert q[..|q| - 1] == [k] + p[..|p| - 1];
      WalkCons(k, p[..|p| - 1], vals);
    }
  }

  /** The lookup holds exactly when every key exists along the chain and every non-final value is a map. */
  lemma {:induction false} HasVarPathIffPresent(path: seq<string>, vals: map<string, Value>)
    ensures HasVarPath(path, vals) <==> PathPresent(path, vals)
    decreases |path|
  {
    if |path| == 0 {
    } else if path[0] !in vals {
      assert path[..0] == [];
      assert !(Walk(path[..0], vals).Some? && path[0] in Walk(path[..0], vals).value);
    } else if |path| == 1 {
      assert path[..0] == [];
    } else {
      var k, rest := path[0], path[1..];
      assert path[..0] == [];
      assert path[..1] == [k] + [];
      WalkCons(k, [], vals);
      match vals[k]
      case Leaf(_) =>
        assert Walk(path[..1], vals) == None;
      case Node(m) =>
        HasVarPathIffPresent(rest, m);
        forall i | 1 <= i <= |rest|
          ensures Walk(path[..i], vals) == Walk(rest[..i - 1], m)
        {
          assert path[..i] == [k] + rest[..i - 1];
          WalkCons(k, rest[..i - 1], vals);
        }
        if PathPresent(rest, m) {
          forall i | 0 <= i < |path|
            ensures Walk(path[..i], vals).Some? && path[i] in Walk(path[..i], vals).value
          {
            if i > 0 {
              assert path[i] == rest[i - 1];
            }
          }
        }
        if PathPresent(path, vals) {
          forall j | 0 <= j < |rest|
            ensures Walk(rest[..j], m).Some? && rest[j] in Walk(rest[..j], m).value
          {
            assert rest[j] == path[j + 1];
            assert Walk(path[..j + 1], vals) == Walk(rest[..j], m);
          }
        }
    }
  }

  /** The empty path is always present; a path whose first key is missing never is. */
  lemma {:induction false} ShortPaths(path: seq<string>, vals: map<string, Value>)
    ensures |path| == 0 ==> HasVarPath(path, vals)
    ensures |path| > 0 && path[0] !in vals ==> !HasVarPath(path, vals)
    ensures |path| == 1 ==> (HasVarPath(path, vals) <==> path[0] in vals)
  {
  }

  /**
   * A value that is not a map anywhere strictly inside the path blocks the
   * lookup, at whatever depth it sits.
   */
  lemma {:induction false} LeafBlocksLookup(path: seq<string>, vals: map<string, Value>, i: nat)
    requires i + 1 < |path|
    requires Walk(path[..i], vals).Some? && path[i] in Walk(path[..i], vals).value
    requires Walk(path[..i], vals).value[path[i]].Leaf?
    ensures !HasVarPath(path, vals)
  {
    HasVarPathIffPresent(path, vals);
    assert path[..i + 1][..i] == path[..i];
    assert Walk(path[..i + 1], vals) == None;
  }

  /** Every prefix of a present path is present. */
  lemma {:induction false} PrefixOfPresentPath(path: seq<string>, vals: map<string, Value>, n: nat)
    requires n <= |path|
    requires HasVarPath(path, vals)
    ensures HasVarPath(path[..n], vals)
  {
    HasVarPathIffPresent(path, vals);
    HasVarPathIffPresent(path[..n], vals);
    forall i | 0 <= i < n
      ensures Walk(path[..n][..i], vals).Some? && path[..n][i] in Walk(path[..n][..i], vals).value
    {
      assert path[..n][..i] == path[..i];
    }
  }

  // ---------------------------------------------------------------------------
  // Chart archive file names
  // ---------------------------------------------------------------------------

  const ChartSuffix: string := ".tgz"
  const Dash: char := '-'

  /** A chart name and version recovered from an archive file name. */
  datatype ChartRef = ChartRef(name: string, version: string)

  datatype HelmError = BadParameter(filename: string)

  /** Go's strings.TrimSuffix: drop one trailing occurrence of `suffix`, if there is one. */
  function TrimSuffix(s: string, suffix: string): (r: string)
    ensures |suffix| <= |s| && s[|s| - |suffix|..] == suffix ==> r + suffix == s
    ensures !(|suffix| <= |s| && s[|s| - |suffix|..] == suffix) ==> r == s
  {
    if |suffix| <= |s| && s[|s| - |suffix|..] == suffix then s[..|s| - |suffix|] else s
  }

  /**
   * Go's strings.Split with a one-character separator: the pieces between
   * separators, so there is always one more piece than separators and the
   * empty string gives one empty piece.
   */
  function Split(s: string, sep: char): (parts: seq<string>)
    ensures |parts| >= 1
    decreases |s|
  {
    if s == [] then [""]
    else
      var rest := Split(s[1..], sep);
      if s[0] == sep then [""] + rest
      else [[s[0]] + rest[0]] + rest[1..]
  }

  /** Go's strings.Join with a one-character separator. */
  function Join(parts: seq<string>, sep: char): string
    decreases |parts|
  {
    if |parts| == 0 then ""
    else if |parts| == 1 then parts[0]
    else parts[0] + [sep] + Join(parts[1..], sep)
  }

  /** No piece of a split contains the separator. */
  lemma {:induction false} SplitPiecesFree(s: string, sep: char)
    ensures forall i :: 0 <= i < |Split(s, sep)| ==> sep !in Split(s, sep)[i]
    decreases |s|
  {
    if s != [] {
      SplitPiecesFree(s[1..], sep);
    }
  }

  /** A string without the separator splits into itself alone. */
  lemma {:induction false} SplitWithoutSep(s: string, sep: char)
    requires sep !in s
    ensures Split(s, sep) == [s]
    decreases |s|
  {
    if s != [] {
      SplitWithoutSep(s[1..], sep);
      assert [s[0]] + s[1..] == s;
    }
  }

  /** A split has two pieces or more exactly when the separator occurs. */
  lemma {:induction false} SplitSeveralIffSep(s: string, sep: char)
    ensures |Split(s, sep)| >= 2 <==> sep in s
    decreases |s|
  {
    if s == [] {
    } else if sep !in s {
      SplitWithoutSep(s, sep);
    } else if s[0] != sep {
      SplitSeveralIffSep(s[1..], sep);
    }
  }

  /** Splitting around one separator splits each side. */
  lemma {:induction false} SplitAroundSep(a: string, b: string, sep: char)
    ensures Split(a + [sep] + b, sep) == Split(a, sep) + Split(b, sep)
    decreases |a|
  {
    if a == [] {
      assert a + [sep] + b == [sep] + b;
      assert ([sep] + b)[1..] == b;
    } else {
      var s := a + [sep] + b;
      assert s[0] == a[0];
      assert s[1..] == a[1..] + [sep] + b;
      SplitAroundSep(a[1..], b, sep);
    }
  }

  /** Joining a split restores the string. */
  lemma {:induction false} JoinSplit(s: string, sep: char)
    ensures Join(Split(s, sep), sep) == s
    decreases |s|
  {
    if s != [] {
      var rest := Split(s[1..], sep);
      JoinSplit(s[1..], sep);
      if s[0] == sep {
        assert Split(s, sep) == [""] + rest;
        assert ([""] + rest)[1..] == rest;
        assert s == [sep] + s[1..];
      } else {
        var parts := Split(s, sep);
        assert parts == [[s[0]] + rest[0]] + rest[1..];
        if |rest| == 1 {
          assert parts == [[s[0]] + rest[0]];
          assert s == [s[0]] + s[1..];
        } else {
          assert parts[1..] == rest[1..];
          assert Join(rest, sep) == rest[0] + [sep] + Join(rest[1..], sep);
          assert s == [s[0]] + s[1..];
        }
      }
    }
  }

  /** Joining several pieces puts a separator between the prefix and the last piece. */
  lemma {:induction false} JoinLast(parts: seq<string>, sep: char)
    requires |parts| >= 2
    ensures Join(parts, sep) == Join(parts[..|parts| - 1], sep) + [sep] + parts[|parts| - 1]
    decreases |parts|
  {
    if |parts| > 2 {
      JoinLast(parts[1..], sep);
      assert parts[1..][..|parts| - 2] == parts[..|parts| - 1][1..];
      assert parts[1..][|parts| - 2] == parts[|parts| - 1];
    }
  }

  /** The archive file name of a chart: `<name>-<version>.tgz`. */
  function ToChartFilename(name: string, version: string): (r: string)
    ensures TrimSuffix(r, ChartSuffix) == name + [Dash] + version
    ensures |r| >= |ChartSuffix| && r[|r| - |ChartSuffix|..] == ChartSuffix
  {
    var stem := name + [Dash] + version;
    assert (stem + ChartSuffix)[|stem|..] == ChartSuffix;
    assert (stem + ChartSuffix)[..|stem|] == stem;
    stem + ChartSuffix
  }

  /**
   * Parse an archive file name: drop one trailing ".tgz", split on dashes,
   * take the last piece as the version and rejoin the others as the name.
   * Fewer than two pieces is a bad parameter.
   */
  function ParseChartFilename(filename: string): (r: Result<ChartRef, HelmError>)
    ensures r.Err? <==> Dash !in TrimSuffix(filename, ChartSuffix)
    ensures r.Err? ==> r.error == BadParameter(filename)
    ensures r.Ok? ==> Dash !in r.value.version
    ensures r.Ok? ==> r.value.name + [Dash] + r.value.version == TrimSuffix(filename, ChartSuffix)
  {
    var stem := TrimSuffix(filename, ChartSuffix);
    var parts := Split(stem, Dash);
    SplitSeveralIffSep(stem, Dash);
    if |parts| < 2 then Err(BadParameter(filename))
    else
      SplitPiecesFree(stem, Dash);
      JoinLast(parts, Dash);
      JoinSplit(stem, Dash);
      Ok(ChartRef(Join(parts[..|parts| - 1], Dash), parts[|parts| - 1]))
  }

  /** Round trip: a file name built from a name and a dash-free version parses back to both. */
  lemma {:induction false} ChartFilenameRoundTrip(name: string, version: string)
    requires Dash !in version
    ensures ParseChartFilename(ToChartFilename(name, version)) == Ok(ChartRef(name, version))
  {
    var stem := name + [Dash] + version;
    assert TrimSuffix(ToChartFilename(name, version), ChartSuffix) == stem;
    SplitAroundSep(name, version, Dash);
    SplitWithoutSep(version, Dash);
    var parts := Split(name, Dash) + [version];
    assert Split(stem, Dash) == parts;
    assert parts[..|parts| - 1] == Split(name, Dash);
    JoinSplit(name, Dash);
  }

  /** Round trip the other way: a parsed ".tgz" file name is rebuilt exactly from its parts. */
  lemma {:induction false} ParsedFilenameRebuilds(filename: string)
    requires |ChartSuffix| <= |filename| && filename[|filename| - |ChartSuffix|..] == ChartSuffix
    requires ParseChartFilename(filename).Ok?
    ensures ToChartFilename(ParseChartFilename(filename).value.name, ParseChartFilename(filename).value.version) == filename
  {
  }

  /**
   * A version with a dash does not survive the round trip: the dash is taken
   * as the boundary between name and version.
   */
  lemma {:induction false} DashedVersionMisparsed()
    ensures ParseChartFilename(ToChartFilename("a", "1-rc")) == Ok(ChartRef("a-1", "rc"))
  {
    var stem := "a-1-rc";
    assert TrimSuffix(ToChartFilename("a", "1-rc"), ChartSuffix) == stem;
    assert stem == "a-1" + [Dash] + "rc";
    assert "a-1" == "a" + [Dash] + "1";
    SplitAroundSep("a-1", "rc", Dash);
    SplitAroundSep("a", "1", Dash);
    SplitWithoutSep("a", Dash);
    SplitWithoutSep("1", Dash);
    SplitWithoutSep("rc", Dash);
    var parts := ["a", "1", "rc"];
    assert Split(stem, Dash) == parts;
    assert parts[..2] == ["a", "1"];
    assert Join(["a", "1"], Dash) == "a" + [Dash] + Join(["1"], Dash);
  }

  // ---------------------------------------------------------------------------
  // Chart repository index
  // ---------------------------------------------------------------------------

  /** One released version of a chart, as listed in a repository index. */
  datatype ChartVersion = ChartVersion(name: string, version: string, digest: string, urls: seq<string>)

  /** A repository index: chart name to its versions, plus the header fields. */
  datatype IndexFile = IndexFile(
    apiVersion: string,
    generated: int,
    entries: map<string, seq<ChartVersion>>,
    publicKeys: seq<string>)

  /**
   * Copy an index: the header fields are kept, and for every chart name the
   * versions are appended one by one to the copy's list for that name. A
   * name whose list is empty therefore never gets an entry in the copy.
   */
  method CopyIndexFile(index: IndexFile) returns (copy: IndexFile)
    ensures copy.apiVersion == index.apiVersion
    ensures copy.generated == index.generated
    ensures copy.publicKeys == index.publicKeys
    ensures forall name :: name in copy.entries <==> name in index.entries && index.entries[name] != []
    ensures forall name :: name in copy.entries ==> copy.entries[name] == index.entries[name]
  {
    var entries: map<string, seq<ChartVersion>> := map[];
    var pending := index.entries.Keys;
    while pending != {}
      invariant pending <= index.entries.Keys
      invariant forall n :: n in entries <==> n in index.entries && n !in pending && index.entries[n] != []
      invariant forall n :: n in entries ==> entries[n] == index.entries[n]
      decreases pending
    {
      var chartName :| chartName in pending;
      var versions := index.entries[chartName];
      var i := 0;
      while i < |versions|
        invariant 0 <= i <= |versions|
        invariant chartName in entries <==> i > 0
        invariant chartName in entries ==> entries[chartName] == versions[..i]
        invariant forall n :: n != chartName ==> (n in entries <==> n in index.entries && n !in pending && index.entries[n] != [])
        invariant forall n :: n != chartName && n in entries ==> entries[n] == index.entries[n]
      {
        var soFar := if chartName in entries then entries[chartName] else [];
        entries := entries[chartName := soFar + [versions[i]]];
        i := i + 1;
      }
      assert versions[..i] == versions;
      pending := pending - {chartName};
    }
    copy := IndexFile(index.apiVersion, index.generated, entries, index.publicKeys);
  }
}
