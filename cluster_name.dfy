/**
 * Deriving the cluster name from the API URL given on the command line:
 * the URL is split on '.' (Go's strings.Split with a one-character
 * separator) and the second field is the cluster name.
 */
module ClusterName {
  import opened Wrappers

  /** Number of occurrences of `c` in `s`. */
  function Count(s: string, c: char): nat
  {
    if s == [] then 0 else (if s[0] == c then 1 else 0) + Count(s[1..], c)
  }

  /** The fields glued back together with `sep` between neighbours. */
  function Join(parts: seq<string>, sep: char): string
  {
    if |parts| == 0 then ""
    else if |parts| == 1 then parts[0]
    else parts[0] + [sep] + Join(parts[1..], sep)
  }

  /**
   * strings.Split(s, string(sep)): the maximal sep-free fields of `s`.
   * There is always one field more than there are separators, so the
   * empty string splits into the single field "".
   */
  function Split(s: string, sep: char): (parts: seq<string>)
    ensures |parts| == Count(s, sep) + 1
    ensures forall k :: 0 <= k < |parts| ==> sep !in parts[k]
    ensures Join(parts, sep) == s
  {
    if s == [] then [""]
    else
      var rest := Split(s[1..], sep);
      if s[0] == sep then
        assert ([""] + rest)[1..] == rest;
        [""] + rest
      else
        var parts := [[s[0]] + rest[0]] + rest[1..];
        assert parts[1..] == rest[1..];
        assert |rest| > 1 ==> Join(rest, sep) == rest[0] + [sep] + Join(rest[1..], sep);
        assert s == [s[0]] + s[1..];
        parts
  }

  /** Index of the first `c` in `s`, or |s| when there is none. */
  function IndexOf(s: string, c: char): (i: nat)
    ensures i <= |s|
    ensures c !in s[..i]
    ensures i < |s| ==> s[i] == c
  {
    if s == [] then 0
    else if s[0] == c then 0
    else
      var j := IndexOf(s[1..], c);
      assert s[..j + 1] == [s[0]] + s[1..][..j];
      1 + j
  }

  /** Mirrors getClusterName: fewer than two fields is a parse error. */
  function GetClusterName(url: string): (r: Result<string, string>)
    ensures r.Failure? <==> '.' !in url
    ensures r.Success? ==> '.' !in r.value
  {
    CountZero(url, '.');
    var parts := Split(url, '.');
    if |parts| < 2 then Failure("could not parse cluster name from URL")
    else Success(parts[1])
  }

  lemma {:induction false} CountZero(s: string, c: char)
    ensures Count(s, c) == 0 <==> c !in s
  {
    if s != [] {
      CountZero(s[1..], c);
      assert s == [s[0]] + s[1..];
    }
  }

  /** Splitting at the first separator: its prefix is the first field. */
  lemma {:induction false} SplitAtFirst(s: string, sep: char)
    requires sep in s
    ensures var i := IndexOf(s, sep);
      Split(s, sep) == [s[..i]] + Split(s[i + 1..], sep)
  {
    if s[0] != sep {
      assert sep in s[1..] by {
        var k :| 0 <= k < |s| && s[k] == sep;
        assert s[1..][k - 1] == sep;
      }
      SplitAtFirst(s[1..], sep);
      var j := IndexOf(s[1..], sep);
      assert s[..j + 1] == [s[0]] + s[1..][..j];
      assert s[j + 2..] == s[1..][j + 1..];
    }
  }

  /** The first field runs up to the first separator (or to the end). */
  lemma {:induction false} SplitHead(s: string, sep: char)
    ensures Split(s, sep)[0] == s[..IndexOf(s, sep)]
  {
    if s != [] && s[0] != sep {
      SplitHead(s[1..], sep);
      var j := IndexOf(s[1..], sep);
      assert s[..j + 1] == [s[0]] + s[1..][..j];
    }
  }

  /**
   * On success the cluster name is the text strictly between the first
   * '.' and the next '.', or the end of the URL when there is no second '.'.
   */
  lemma ClusterNameBetweenDots(url: string)
    requires '.' in url
    ensures var i := IndexOf(url, '.');
      var rest := url[i + 1..];
      GetClusterName(url) == Success(rest[..IndexOf(rest, '.')])
  {
    var i := IndexOf(url, '.');
    SplitAtFirst(url, '.');
    SplitHead(url[i + 1..], '.');
  }

  /** Split is the inverse of Join on sep-free fields: no other decomposition exists. */
  lemma {:induction false} SplitJoin(parts: seq<string>, sep: char)
    requires |parts| >= 1
    requires forall k :: 0 <= k < |parts| ==> sep !in parts[k]
    ensures Split(Join(parts, sep), sep) == parts
  {
    if |parts| > 1 {
      SplitJoin(parts[1..], sep);
      var s := Join(parts, sep);
      assert s == parts[0] + [sep] + Join(parts[1..], sep);
      assert IndexOf(s, sep) == |parts[0]| by {
        assert s == parts[0] + ([sep] + Join(parts[1..], sep));
        IndexOfPrefix(parts[0], [sep] + Join(parts[1..], sep), sep);
      }
      assert sep in s by { assert s[|parts[0]|] == sep; }
      SplitAtFirst(s, sep);
      assert s[..|parts[0]|] == parts[0];
      assert s[|parts[0]| + 1..] == Join(parts[1..], sep);
      assert parts == [parts[0]] + parts[1..];
    } else {
      SplitSingle(parts[0], sep);
    }
  }

  lemma {:induction false} SplitSingle(s: string, sep: char)
    requires sep !in s
    ensures Split(s, sep) == [s]
  {
    CountZero(s, sep);
    assert |Split(s, sep)| == 1;
    assert Join(Split(s, sep), sep) == Split(s, sep)[0];
  }

  lemma {:induction false} IndexOfPrefix(a: string, b: string, c: char)
    requires c !in a
    requires b != [] && b[0] == c
    ensures IndexOf(a + b, c) == |a|
  {
    if a != [] {
      assert (a + b)[1..] == a[1..] + b;
      IndexOfPrefix(a[1..], b, c);
    } else {
      assert a + b == b;
    }
  }

  /** The example URL from the usage text names the cluster "cluster". */
  lemma UsageExample()
    ensures GetClusterName("api.cluster.example.com:6443") == Success("cluster")
  {
    var parts := ["api", "cluster", "example", "com:6443"];
    assert Join(parts, '.') == "api.cluster.example.com:6443";
    SplitJoin(parts, '.');
  }

  /** Two adjacent dots give an empty, but successful, cluster name. */
  lemma EmptyNameExample()
    ensures GetClusterName("a..b") == Success("")
  {
    var parts := ["a", "", "b"];
    assert Join(parts, '.') == "a..b";
    SplitJoin(parts, '.');
  }
}
