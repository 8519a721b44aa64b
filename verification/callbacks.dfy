/**
 * The callback data of the conversion buttons, `f"{action}:{file_id}"`, and how the
 * callback handler reads it back with `data.split(":")`, `data[0]`, `data[1]`.
 */
module Callbacks {
  import opened Wrappers

  /** Python's `sep.join(parts)`. */
  function Join(parts: seq<string>, sep: char): string
  {
    if |parts| == 0 then ""
    else if |parts| == 1 then parts[0]
    else parts[0] + [sep] + Join(parts[1..], sep)
  }

  /** The index of the first `c` in `s`. */
  function IndexOf(s: string, c: char): (k: nat)
    requires c in s
    ensures k < |s| && s[k] == c && c !in s[..k]
  {
    if s[0] == c then 0
    else
      assert c in s[1..] by {
        var j :| 0 <= j < |s| && s[j] == c;
        assert s[1..][j - 1] == c;
      }
      1 + IndexOf(s[1..], c)
  }

  /** Python's `s.split(sep)` for a one-character separator: the pieces between
      separators, at least one, none containing the separator, joined back to `s`. */
  function Split(s: string, sep: char): (parts: seq<string>)
    ensures |parts| >= 1
    ensures |parts| == 1 <==> sep !in s
    ensures forall i :: 0 <= i < |parts| ==> sep !in parts[i]
    ensures Join(parts, sep) == s
    decreases |s|
  {
    if sep !in s then [s]
    else
      var k := IndexOf(s, sep);
      var rest := Split(s[k + 1..], sep);
      assert s == s[..k] + [sep] + s[k + 1..];
      [s[..k]] + rest
  }

  /** In `a + [sep] + t` with no separator in `a`, the first separator follows `a`. */
  lemma FirstSeparator(a: string, sep: char, t: string)
    requires sep !in a
    ensures sep in a + [sep] + t && IndexOf(a + [sep] + t, sep) == |a|
  {
    var s := a + [sep] + t;
    assert s[|a|] == sep;
  }

  /** Splitting text that starts with a separator-free piece and a separator gives that
      piece followed by the split of the rest. */
  lemma SplitCons(a: string, sep: char, t: string)
    requires sep !in a
    ensures Split(a + [sep] + t, sep) == [a] + Split(t, sep)
  {
    var s := a + [sep] + t;
    FirstSeparator(a, sep, t);
    assert s[..|a|] == a;
    assert s[|a| + 1..] == t;
  }

  /** Splitting undoes joining pieces that do not contain the separator. */
  lemma {:induction false} SplitJoin(parts: seq<string>, sep: char)
    requires |parts| >= 1
    requires forall i :: 0 <= i < |parts| ==> sep !in parts[i]
    ensures Split(Join(parts, sep), sep) == parts
    decreases |parts|
  {
    if |parts| > 1 {
      SplitCons(parts[0], sep, Join(parts[1..], sep));
      SplitJoin(parts[1..], sep);
      assert parts == [parts[0]] + parts[1..];
    }
  }

  /** The callback data of one button. */
  function CallbackData(action: string, fileId: string): string
  {
    action + ":" + fileId
  }

  /** The data of the two buttons offered with a delivered file. */
  function Buttons(fileId: string): seq<string>
  {
    [CallbackData("mp3", fileId), CallbackData("mp4_low", fileId)]
  }

  /** The callback handler's reading of the data: the first two colon-separated
      pieces, or None where `data[1]` would raise IndexError (no colon at all). */
  function ParseCallback(data: string): (r: Option<(string, string)>)
    ensures r.Some? <==> ':' in data
    ensures r.Some? ==> ':' !in r.value.0 && ':' !in r.value.1
    ensures r.Some? ==>
      && |r.value.0| + 1 + |r.value.1| <= |data|
      && data[..|r.value.0| + 1 + |r.value.1|] == CallbackData(r.value.0, r.value.1)
      && (|r.value.0| + 1 + |r.value.1| == |data| || data[|r.value.0| + 1 + |r.value.1|] == ':')
  {
    var parts := Split(data, ':');
    if |parts| < 2 then None
    else
      assert data == parts[0] + [':'] + Join(parts[1..], ':');
      assert |parts[1..]| == 1 || Join(parts[1..], ':') == parts[1] + [':'] + Join(parts[2..], ':');
      Some((parts[0], parts[1]))
  }

  /** Callback data built from a colon-free action and id reads back as exactly that
      action and id. */
  lemma CallbackRoundTrip(action: string, fileId: string)
    requires ':' !in action && ':' !in fileId
    ensures ParseCallback(CallbackData(action, fileId)) == Some((action, fileId))
  {
    assert CallbackData(action, fileId) == Join([action, fileId], ':');
    SplitJoin([action, fileId], ':');
  }

  predicate IsLowerHex(c: char)
  {
    '0' <= c <= '9' || 'a' <= c <= 'f'
  }

  /** The text of `str(uuid.uuid4())`: 36 characters, hyphens at 8, 13, 18 and 23,
      lower-case hexadecimal digits elsewhere. */
  predicate IsUuidText(s: string)
  {
    && |s| == 36
    && forall k :: 0 <= k < 36 ==>
         if k == 8 || k == 13 || k == 18 || k == 23 then s[k] == '-' else IsLowerHex(s[k])
  }

  /** Both buttons of a delivered file read back as their action and the file's id. */
  lemma ButtonsRoundTrip(fileId: string)
    requires IsUuidText(fileId)
    ensures ParseCallback(Buttons(fileId)[0]) == Some(("mp3", fileId))
    ensures ParseCallback(Buttons(fileId)[1]) == Some(("mp4_low", fileId))
  {
    assert ':' !in fileId;
    CallbackRoundTrip("mp3", fileId);
    CallbackRoundTrip("mp4_low", fileId);
  }
}
