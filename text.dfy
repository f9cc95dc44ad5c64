/** The JavaScript string primitives the service layer relies on:
    `String.prototype.trim`, `indexOf`, `lastIndexOf` and `substring`.
    Strings are sequences of characters; UTF-16 code units are not modelled. */
module Text {

  /** ECMAScript WhiteSpace and LineTerminator code points: what `trim` removes. */
  predicate IsWhitespace(c: char) {
    || c == '\t' || c == '\U{000B}' || c == '\U{000C}' || c == ' ' || c == '\U{00A0}'
    || c == '\U{FEFF}' || c == '\U{1680}' || ('\U{2000}' <= c <= '\U{200A}')
    || c == '\U{202F}' || c == '\U{205F}' || c == '\U{3000}'
    || c == '\n' || c == '\r' || c == '\U{2028}' || c == '\U{2029}'
  }

  /** Neither the first nor the last character is whitespace. */
  predicate IsTrimmed(s: string) {
    s == [] || (!IsWhitespace(s[0]) && !IsWhitespace(s[|s| - 1]))
  }

  predicate AllWhitespace(s: string) {
    forall i :: 0 <= i < |s| ==> IsWhitespace(s[i])
  }

  /** The first position at or after `i` that does not hold whitespace, or
      `|s|` when only whitespace follows. */
  function TextStart(s: string, i: nat): (k: nat)
    requires i <= |s|
    ensures i <= k <= |s|
    ensures k < |s| ==> !IsWhitespace(s[k])
    decreases |s| - i
  {
    if i < |s| && IsWhitespace(s[i]) then TextStart(s, i + 1) else i
  }

  /** The end of the text in `s[lo..j]` once the whitespace before `j` is
      dropped; it never moves below `lo`. */
  function TextEnd(s: string, lo: nat, j: nat): (k: nat)
    requires lo <= j <= |s|
    ensures lo <= k <= j
    ensures k > lo ==> !IsWhitespace(s[k - 1])
    decreases j
  {
    if j > lo && IsWhitespace(s[j - 1]) then TextEnd(s, lo, j - 1) else j
  }

  /** `String.prototype.trim`: no whitespace is left at either end. */
  function Trim(s: string): (r: string)
    ensures |r| <= |s|
    ensures IsTrimmed(r)
  {
    var a := TextStart(s, 0);
    s[a..TextEnd(s, a, |s|)]
  }

  lemma {:induction false} TextStartSkipsWhitespace(s: string, i: nat)
    requires i <= |s|
    ensures forall j :: i <= j < TextStart(s, i) ==> IsWhitespace(s[j])
    decreases |s| - i
  {
    if i < |s| && IsWhitespace(s[i]) {
      TextStartSkipsWhitespace(s, i + 1);
    }
  }

  lemma {:induction false} TextEndSkipsWhitespace(s: string, lo: nat, j: nat)
    requires lo <= j <= |s|
    ensures forall m :: TextEnd(s, lo, j) <= m < j ==> IsWhitespace(s[m])
    decreases j
  {
    if j > lo && IsWhitespace(s[j - 1]) {
      TextEndSkipsWhitespace(s, lo, j - 1);
    }
  }

  /** `trim` keeps the slice of `s` that starts at the first non-whitespace
      character; only whitespace precedes and follows it. */
  lemma {:induction false} TrimSlice(s: string)
    ensures var a := TextStart(s, 0);
      a + |Trim(s)| <= |s| && Trim(s) == s[a..a + |Trim(s)|]
      && (forall j :: 0 <= j < a ==> IsWhitespace(s[j]))
      && (forall j :: a + |Trim(s)| <= j < |s| ==> IsWhitespace(s[j]))
  {
    var a := TextStart(s, 0);
    TextStartSkipsWhitespace(s, 0);
    TextEndSkipsWhitespace(s, a, |s|);
  }

  /** The text starts at `k` when only whitespace precedes it from `i` on. */
  lemma {:induction false} TextStartAt(s: string, i: nat, k: nat)
    requires i <= k <= |s|
    requires forall j :: i <= j < k ==> IsWhitespace(s[j])
    requires k < |s| ==> !IsWhitespace(s[k])
    ensures TextStart(s, i) == k
    decreases k - i
  {
    if i < k {
      TextStartAt(s, i + 1, k);
    }
  }

  /** The text ends at `k` when only whitespace follows it up to `j`. */
  lemma {:induction false} TextEndAt(s: string, lo: nat, j: nat, k: nat)
    requires lo <= k <= j <= |s|
    requires forall m :: k <= m < j ==> IsWhitespace(s[m])
    requires k > lo ==> !IsWhitespace(s[k - 1])
    ensures TextEnd(s, lo, j) == k
    decreases j - k
  {
    if k < j {
      TextEndAt(s, lo, j - 1, k);
    }
  }

  /** Whitespace around a trimmed text is exactly what `trim` removes. */
  lemma {:induction false} TrimOfPadded(p: string, body: string, q: string)
    requires AllWhitespace(p) && AllWhitespace(q) && IsTrimmed(body)
    ensures Trim(p + body + q) == body
  {
    var s := p + body + q;
    var e := |p| + |body|;
    forall j | 0 <= j < |p| ensures IsWhitespace(s[j]) {
      assert s[j] == p[j];
    }
    forall m | e <= m < |s| ensures IsWhitespace(s[m]) {
      assert s[m] == q[m - e];
    }
    if body == [] {
      TextStartAt(s, 0, |s|);
      assert s[|s|..|s|] == body;
    } else {
      assert s[|p|] == body[0] && s[e - 1] == body[|body| - 1];
      TextStartAt(s, 0, |p|);
      TextEndAt(s, |p|, |s|, e);
      assert s[|p|..e] == body;
    }
  }

  /** `trim` leaves a trimmed string alone, so it is idempotent. */
  lemma {:induction false} TrimTrimmed(s: string)
    requires IsTrimmed(s)
    ensures Trim(s) == s
  {
    if s != [] {
      TextStartAt(s, 0, 0);
      TextEndAt(s, 0, |s|, |s|);
    }
    assert s[0..|s|] == s;
  }

  /** `s.indexOf(c)`: the first position of `c`, or -1 when `c` does not occur. */
  function IndexOf(s: string, c: char): (i: int)
    ensures -1 <= i < |s|
    ensures i == -1 <==> c !in s
    ensures 0 <= i ==> s[i] == c && c !in s[..i]
  {
    if s == [] then -1
    else if s[0] == c then 0
    else
      var j := IndexOf(s[1..], c);
      assert s == [s[0]] + s[1..];
      if j == -1 then -1
      else
        assert s[..j + 1] == [s[0]] + s[1..][..j];
        j + 1
  }

  /** `s.lastIndexOf(c)`: the last position of `c`, or -1 when `c` does not occur. */
  function LastIndexOf(s: string, c: char): (i: int)
    ensures -1 <= i < |s|
    ensures i == -1 <==> c !in s
    ensures 0 <= i ==> s[i] == c && c !in s[i + 1..]
  {
    if s == [] then -1
    else if s[|s| - 1] == c then |s| - 1
    else
      var j := LastIndexOf(s[..|s| - 1], c);
      assert s == s[..|s| - 1] + [s[|s| - 1]];
      if j != -1 then
        assert s[j + 1..] == s[..|s| - 1][j + 1..] + [s[|s| - 1]];
        j
      else j
  }

  function Clamp(x: int, len: nat): (r: nat)
    ensures r <= len
    ensures 0 <= x <= len ==> r == x
  {
    if x < 0 then 0 else if x > len then len else x
  }

  /** `s.substring(start, end)`: both arguments are clamped to the string, and
      when the start lies after the end the two are swapped. */
  function Substring(s: string, start: int, end: int): (r: string)
    ensures 0 <= start <= end <= |s| ==> r == s[start..end]
    ensures 0 <= end <= start <= |s| ==> r == s[end..start]
  {
    var a := Clamp(start, |s|);
    var b := Clamp(end, |s|);
    if a <= b then s[a..b] else s[b..a]
  }

  /** The order of the two arguments of `substring` does not matter. */
  lemma {:induction false} SubstringSymmetric(s: string, start: int, end: int)
    ensures Substring(s, start, end) == Substring(s, end, start)
  {
  }
}
