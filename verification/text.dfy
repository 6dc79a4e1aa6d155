/** The few Python string operations the scripts rely on: `str.isspace` per
    character, `str.strip()`, `str.lower()` (ASCII letters only),
    `str.startswith` and `"".join`. Lengths are counted in code points, as
    Python's `len` does. */
module Text {

  /** The characters for which Python's `str.isspace()` is true. */
  predicate IsSpace(c: char) {
    || ('\t' <= c <= '\r')
    || ('\U{1C}' <= c <= '\U{1F}')
    || c == ' ' || c == '\U{85}' || c == '\U{A0}' || c == '\U{1680}'
    || ('\U{2000}' <= c <= '\U{200A}')
    || c == '\U{2028}' || c == '\U{2029}' || c == '\U{202F}' || c == '\U{205F}' || c == '\U{3000}'
  }

  predicate IsBlank(s: string) {
    forall i :: 0 <= i < |s| ==> IsSpace(s[i])
  }

  /** Number of leading whitespace characters. */
  function LeadingSpaces(s: string): (n: nat)
    ensures n <= |s| && IsBlank(s[..n])
    ensures n < |s| ==> !IsSpace(s[n])
    decreases |s|
  {
    if s == [] || !IsSpace(s[0]) then 0
    else
      var n := 1 + LeadingSpaces(s[1..]);
      assert forall i :: 1 <= i < n ==> s[..n][i] == s[1..][..n - 1][i - 1];
      n
  }

  /** Length of `s` without its trailing whitespace. */
  function TrimmedEnd(s: string): (m: nat)
    ensures m <= |s| && IsBlank(s[m..])
    ensures m > 0 ==> !IsSpace(s[m - 1])
    decreases |s|
  {
    if s == [] || !IsSpace(s[|s| - 1]) then |s|
    else
      var m := TrimmedEnd(s[..|s| - 1]);
      assert forall i :: m <= i < |s| - 1 ==> s[i] == s[..|s| - 1][i];
      m
  }

  /** Python's `s.strip()`. */
  function Strip(s: string): (r: string)
    ensures r == [] <==> IsBlank(s)
    ensures r != [] ==> !IsSpace(r[0]) && !IsSpace(r[|r| - 1])
    ensures exists i, j :: 0 <= i <= j <= |s| && r == s[i..j] && IsBlank(s[..i]) && IsBlank(s[j..])
  {
    var i := LeadingSpaces(s);
    var t := s[i..];
    var m := TrimmedEnd(t);
    StripFacts(s, i, m);
    t[..m]
  }

  /** A string that starts and ends with a non-space is its own strip. */
  lemma StripUntrimmed(s: string)
    ensures |s| > 0 && !IsSpace(s[0]) && !IsSpace(s[|s| - 1]) ==> Strip(s) == s
  {
    if |s| > 0 && !IsSpace(s[0]) && !IsSpace(s[|s| - 1]) {
      assert LeadingSpaces(s) == 0;
      assert s[0..] == s;
      assert TrimmedEnd(s) == |s|;
    }
  }

  lemma StripFacts(s: string, i: nat, m: nat)
    requires i == LeadingSpaces(s) && m == TrimmedEnd(s[i..])
    ensures s[i..][..m] == [] <==> IsBlank(s)
    ensures s[i..][..m] == s[i..i + m] && IsBlank(s[..i]) && IsBlank(s[i + m..])
  {
    var t := s[i..];
    assert t[..m] == s[i..i + m] && t[m..] == s[i + m..];
    assert i < |s| ==> t[0] == s[i];
    assert m == 0 ==> i == |s|;
    if m == 0 {
      forall k | 0 <= k < |s| ensures IsSpace(s[k]) {
        assert s[..i][k] == s[k];
      }
    }
    if IsBlank(s) {
      assert i == |s|;
    }
  }

  function LowerChar(c: char): (r: char)
    ensures 'A' <= c <= 'Z' ==> 'a' <= r <= 'z' && r as int - 'a' as int == c as int - 'A' as int
    ensures !('A' <= c <= 'Z') ==> r == c
  {
    if 'A' <= c <= 'Z' then (c as int + 32) as char else c
  }

  /** Python's `s.lower()`, restricted to the ASCII letters. */
  function Lower(s: string): (r: string)
    ensures |r| == |s|
    ensures forall i :: 0 <= i < |s| ==> r[i] == LowerChar(s[i])
  {
    seq(|s|, i requires 0 <= i < |s| => LowerChar(s[i]))
  }

  predicate StartsWith(s: string, prefix: string) {
    |prefix| <= |s| && s[..|prefix|] == prefix
  }

  /** Python's `"".join(parts)`. */
  function Concat(parts: seq<string>): string
    decreases |parts|
  {
    if parts == [] then "" else parts[0] + Concat(parts[1..])
  }

  lemma {:induction false} ConcatAppend(a: seq<string>, b: seq<string>)
    ensures Concat(a + b) == Concat(a) + Concat(b)
    decreases |a|
  {
    if a == [] {
      assert a + b == b;
    } else {
      assert (a + b)[1..] == a[1..] + b;
      ConcatAppend(a[1..], b);
    }
  }

  lemma ConcatSplit(parts: seq<string>, i: nat, j: nat)
    requires i <= j <= |parts|
    ensures Concat(parts[i..j]) + Concat(parts[j..]) == Concat(parts[i..])
  {
    assert parts[i..] == parts[i..j] + parts[j..];
    ConcatAppend(parts[i..j], parts[j..]);
  }

  lemma ConcatSnoc(parts: seq<string>, i: nat, j: nat)
    requires i <= j < |parts|
    ensures Concat(parts[i..j + 1]) == Concat(parts[i..j]) + parts[j]
  {
    assert parts[i..j + 1] == parts[i..j] + [parts[j]];
    ConcatAppend(parts[i..j], [parts[j]]);
    assert Concat([parts[j]]) == parts[j] + Concat([]);
  }
}
