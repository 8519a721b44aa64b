/**
 * File names derived by the pipeline: POSIX `os.path.splitext`, the re-encode
 * output `root + "_telegram.mp4"`, and the two conversion outputs.
 */
module PathNames {

  /** Python's `str.rfind` for one character: the last index of `c` in `s`, or -1. */
  function RFind(s: string, c: char): (r: int)
    ensures -1 <= r < |s|
    ensures r >= 0 ==> s[r] == c
    ensures forall k :: r < k < |s| ==> s[k] != c
  {
    if |s| == 0 then -1
    else if s[|s| - 1] == c then |s| - 1
    else RFind(s[..|s| - 1], c)
  }

  /** Searching a concatenation finds the last `c` in the right part, if there is one. */
  lemma {:induction false} RFindAppend(a: string, b: string, c: char)
    ensures RFind(a + b, c) == if c in b then |a| + RFind(b, c) else RFind(a, c)
    decreases |b|
  {
    if |b| == 0 {
      assert a + b == a;
    } else {
      var ab := a + b;
      if b[|b| - 1] != c {
        assert ab[..|ab| - 1] == a + b[..|b| - 1];
        RFindAppend(a, b[..|b| - 1], c);
        assert c in b <==> c in b[..|b| - 1] by {
          if c in b {
            var k :| 0 <= k < |b| && b[k] == c;
            assert b[..|b| - 1][k] == c;
          }
        }
      }
    }
  }

  /** POSIX `os.path.splitext`: the extension starts at the last dot of the last path
      component, unless that component consists of dots up to there (".bashrc" has none). */
  function SplitExt(p: string): (r: (string, string))
    ensures r.0 + r.1 == p
    ensures r.1 == "" || (r.1[0] == '.' && '/' !in r.1 && '.' !in r.1[1..])
    ensures r.1 == "" ==> forall k, d :: 0 <= k < d < |p| && p[k] != '.' && p[d] == '.' && '/' !in p[k..] ==> false
    ensures r.1 != "" ==> exists k :: 0 <= k < |r.0| && r.0[k] != '.' && '/' !in r.0[k..]
  {
    var sep := RFind(p, '/');
    var dot := RFind(p, '.');
    if dot > sep && exists k :: sep + 1 <= k < dot && p[k] != '.' then
      (p[..dot], p[dot..])
    else
      (p, "")
  }

  const ReencodeSuffix := "_telegram.mp4"

  predicate EndsWith(s: string, suffix: string)
  {
    |suffix| <= |s| && s[|s| - |suffix|..] == suffix
  }

  /** The file the re-encode writes: the input's root with "_telegram.mp4" appended.
      It is never the input itself, so re-encoding never overwrites the download. */
  function ReencodedPath(p: string): (r: string)
    ensures r != p
    ensures EndsWith(r, ReencodeSuffix)
  {
    var root := SplitExt(p).0;
    var r := root + ReencodeSuffix;
    assert r[|root|..] == ReencodeSuffix;
    r
  }

  /** Inputs with the same root, such as "v.webm" and "v.mkv", share one re-encode output;
      inputs with different roots never do. */
  lemma ReencodedPathSharedIffSameRoot(p: string, q: string)
    ensures ReencodedPath(p) == ReencodedPath(q) <==> SplitExt(p).0 == SplitExt(q).0
  {
    var a, b := SplitExt(p).0, SplitExt(q).0;
    if ReencodedPath(p) == ReencodedPath(q) {
      assert |a| == |b|;
      assert a == (a + ReencodeSuffix)[..|a|];
    }
  }

  /** Where the suffix's separators are: one dot, at index 9, and no slash. */
  lemma SuffixSeparators()
    ensures '.' in ReencodeSuffix && RFind(ReencodeSuffix, '.') == 9
    ensures '/' !in ReencodeSuffix
  {
    var d := RFind(ReencodeSuffix, '.');
    assert ReencodeSuffix[9] == '.';
    assert d >= 9;
  }

  /** The re-encode output splits into the input's root plus "_telegram" and the
      extension ".mp4": re-encoding its own output would append "_telegram" again. */
  lemma ReencodedPathSplits(p: string)
    ensures SplitExt(ReencodedPath(p)) == (SplitExt(p).0 + "_telegram", ".mp4")
  {
    var root := SplitExt(p).0;
    var r := root + ReencodeSuffix;
    assert r == ReencodedPath(p);
    SuffixSeparators();
    RFindAppend(root, ReencodeSuffix, '/');
    RFindAppend(root, ReencodeSuffix, '.');
    var dot := |root| + 9;
    assert RFind(r, '.') == dot;
    assert RFind(r, '/') < |root|;
    assert r[|root|] == '_';
    assert SplitExt(r) == (r[..dot], r[dot..]);
    assert r[..dot] == root + "_telegram";
    assert r[dot..] == ".mp4";
  }

  /** A conversion output is never named like a re-encode output, so converting never
      overwrites a file that a handle refers to. */
  lemma ConvertedNamesDiffer(p: string)
    ensures !EndsWith(p + ".mp3", ReencodeSuffix)
    ensures !EndsWith(p + ".low.mp4", ReencodeSuffix)
  {
    var a := p + ".mp3";
    assert a[|a| - 1] == '3';
    var b := p + ".low.mp4";
    assert b[|b| - 5] == 'w';
  }
}
