/**
 * The URL detection of the message handler: `re.search(r"https?://\S+", text)`
 * followed by `group(0)`, i.e. the leftmost match of the pattern, extended as far
 * as the greedy `\S+` reaches.
 */
module UrlExtraction {
  import opened Wrappers

  /** The characters that `\s` matches in a Python str pattern (Unicode whitespace). */
  predicate IsSpace(c: char)
  {
    || ('\t' <= c <= '\r')
    || ('\U{1c}' <= c <= ' ')
    || c == '\U{85}' || c == '\U{a0}' || c == '\U{1680}'
    || ('\U{2000}' <= c <= '\U{200a}')
    || c == '\U{2028}' || c == '\U{2029}' || c == '\U{202f}' || c == '\U{205f}' || c == '\U{3000}'
  }

  predicate NoSpace(s: string)
  {
    forall k :: 0 <= k < |s| ==> !IsSpace(s[k])
  }

  /** `u` as a whole matches `https?://\S+`: the reference meaning of the pattern. */
  predicate IsUrlToken(u: string)
  {
    || (|u| > 7 && u[..7] == "http://" && NoSpace(u[7..]))
    || (|u| > 8 && u[..8] == "https://" && NoSpace(u[8..]))
  }

  predicate StartsAt(text: string, i: nat, lit: string)
  {
    i + |lit| <= |text| && text[i..i + |lit|] == lit
  }

  /** The end of the longest run of non-whitespace characters that starts at `k`. */
  function RunEnd(text: string, k: nat): (e: nat)
    requires k <= |text|
    ensures k <= e <= |text|
    ensures NoSpace(text[k..e])
    ensures e == |text| || IsSpace(text[e])
    decreases |text| - k
  {
    if k < |text| && !IsSpace(text[k]) then
      var e := RunEnd(text, k + 1);
      assert text[k..e] == [text[k]] + text[k + 1..e];
      e
    else
      k
  }

  /** Where the pattern's `\S+` begins if the pattern matches at `i`: after "https://" or after "http://". */
  function BodyStart(text: string, i: nat): (r: Option<nat>)
    ensures r.Some? ==> i + 7 <= r.value < |text| && !IsSpace(text[r.value])
    ensures r.Some? ==> (StartsAt(text, i, "https://") && r.value == i + 8) || (StartsAt(text, i, "http://") && r.value == i + 7)
  {
    if StartsAt(text, i, "https://") && i + 8 < |text| && !IsSpace(text[i + 8]) then Some(i + 8)
    else if StartsAt(text, i, "http://") && i + 7 < |text| && !IsSpace(text[i + 7]) then Some(i + 7)
    else None
  }

  datatype Span = Span(start: nat, end: nat)

  /** Where the pattern has no body start at `i`, no prefix of `text[i..]` matches it. */
  lemma NoTokenWithoutBody(text: string, i: nat)
    requires i <= |text| && BodyStart(text, i).None?
    ensures forall j :: i <= j <= |text| ==> !IsUrlToken(text[i..j])
  {
    forall j | i <= j <= |text| ensures !IsUrlToken(text[i..j]) {
      var u := text[i..j];
      if |u| > 8 && u[..8] == "https://" {
        assert text[i..i + 8] == u[..8];
        assert text[i + 8] == u[8..][0];
      }
      if |u| > 7 && u[..7] == "http://" {
        assert text[i..i + 7] == u[..7];
        assert text[i + 7] == u[7..][0];
        assert u[4] == ':';
      }
    }
  }

  /** A run of non-whitespace that starts on a non-whitespace character is not empty. */
  lemma RunEndPastStart(text: string, b: nat)
    requires b < |text| && !IsSpace(text[b])
    ensures RunEnd(text, b) > b
  {
  }

  /** Starting at `i`, the pattern matches up to the end of the run that its body starts. */
  lemma TokenAtBody(text: string, i: nat)
    requires BodyStart(text, i).Some?
    ensures IsUrlToken(text[i..RunEnd(text, BodyStart(text, i).value)])
  {
    var b := BodyStart(text, i).value;
    var e := RunEnd(text, b);
    RunEndPastStart(text, b);
    var u := text[i..e];
    assert u[b - i..] == text[b..e];
    if b == i + 8 {
      assert u[..8] == text[i..i + 8];
    } else {
      assert u[..7] == text[i..i + 7];
    }
  }

  /** A match that starts at `i` cannot reach past the whitespace that ends the run from `b`. */
  lemma TokenIsLongest(text: string, i: nat)
    requires BodyStart(text, i).Some?
    ensures forall j :: RunEnd(text, BodyStart(text, i).value) < j <= |text| ==> !IsUrlToken(text[i..j])
  {
    var b := BodyStart(text, i).value;
    var e := RunEnd(text, b);
    forall j | e < j <= |text| ensures !IsUrlToken(text[i..j]) {
      var v := text[i..j];
      assert v[e - i] == text[e];
      if |v| > 7 && v[..7] == "http://" {
        assert v[7..][e - i - 7] == text[e];
      }
      if |v| > 8 && v[..8] == "https://" {
        assert v[8..][e - i - 8] == text[e];
      }
    }
  }

  /** The leftmost match at or after position `i`. */
  function SearchFrom(text: string, i: nat): (r: Option<Span>)
    requires i <= |text|
    ensures r.Some? ==>
      && i <= r.value.start < r.value.end <= |text|
      && IsUrlToken(text[r.value.start..r.value.end])
      && forall j :: r.value.end < j <= |text| ==> !IsUrlToken(text[r.value.start..j])
    ensures forall s, j :: i <= s <= j <= |text| && (r.None? || s < r.value.start) ==> !IsUrlToken(text[s..j])
    decreases |text| - i
  {
    if i == |text| then
      None
    else if BodyStart(text, i).Some? then
      TokenAtBody(text, i);
      TokenIsLongest(text, i);
      Some(Span(i, RunEnd(text, BodyStart(text, i).value)))
    else
      NoTokenWithoutBody(text, i);
      SearchFrom(text, i + 1)
  }

  /** `url_match.group(0)` when `url_match` is truthy: a match of the pattern, starting
      before no other match and extending as far as any match from its start does. */
  function ExtractUrl(text: string): (r: Option<string>)
    ensures r.Some? ==> IsUrlToken(r.value)
    ensures r.Some? ==> exists b, e ::
      && 0 <= b <= e <= |text|
      && text[b..e] == r.value
      && (forall s, j :: 0 <= s < b && s <= j <= |text| ==> !IsUrlToken(text[s..j]))
      && (forall j :: e < j <= |text| ==> !IsUrlToken(text[b..j]))
    ensures r.None? <==> forall s, j :: 0 <= s <= j <= |text| ==> !IsUrlToken(text[s..j])
  {
    match SearchFrom(text, 0)
    case None => None
    case Some(span) => Some(text[span.start..span.end])
  }
}
