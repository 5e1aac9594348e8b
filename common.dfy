/** Shared vocabulary of the handlers: optional values, results, and the
    handful of JavaScript string operations the handlers rely on
    (`includes`, `replace` with a string pattern, ASCII case mapping,
    `trim`, and number-to-string conversion in template literals). */
module Common {

  datatype Option<+T> = None | Some(value: T) {
    function GetOr(default: T): T {
      match this
      case Some(v) => v
      case None => default
    }
  }

  datatype Result<+T, +E> = Ok(value: T) | Err(error: E)

  /** `w` occurs in `s` starting at index `i`. */
  predicate OccursAt(s: string, w: string, i: nat) {
    i + |w| <= |s| && s[i..i + |w|] == w
  }

  /** `String.prototype.includes`: some occurrence of `w` in `s`. */
  predicate Contains(s: string, w: string) {
    exists i: nat :: i <= |s| && OccursAt(s, w, i)
  }

  predicate StartsWith(s: string, p: string) {
    OccursAt(s, p, 0)
  }

  /** An occurrence requires the first letter of the word at that index,
      so a text without that letter contains no occurrence. */
  lemma NotContainsWithoutFirstLetter(s: string, w: string)
    requires |w| > 0 && w[0] !in s
    ensures !Contains(s, w)
  {
    forall i: nat | i <= |s| ensures !OccursAt(s, w, i) {
      if i + |w| <= |s| {
        assert s[i..i + |w|][0] == s[i] && s[i] in s;
      }
    }
  }

  /** `s.replace(pat, rep)` with a string pattern: only the first (leftmost)
      occurrence is replaced; without an occurrence `s` is returned. */
  function ReplaceFirst(s: string, pat: string, rep: string): (r: string)
    ensures !Contains(s, pat) ==> r == s
    ensures StartsWith(s, pat) ==> r == rep + s[|pat|..]
    decreases |s|
  {
    if StartsWith(s, pat) then rep + s[|pat|..]
    else if |s| == 0 then s
    else
      ContainsTail(s, pat);
      [s[0]] + ReplaceFirst(s[1..], pat, rep)
  }

  /** An occurrence in the tail is an occurrence in `s`. */
  lemma ContainsTail(s: string, pat: string)
    requires |s| > 0
    ensures Contains(s[1..], pat) ==> Contains(s, pat)
  {
    if Contains(s[1..], pat) {
      var i: nat :| i <= |s[1..]| && OccursAt(s[1..], pat, i);
      OccursInTail(s, pat, i);
      assert OccursAt(s, pat, i + 1);
    }
  }

  /** An occurrence in the tail is an occurrence one place later in `s`. */
  lemma OccursInTail(s: string, pat: string, j: nat)
    requires |s| > 0
    ensures OccursAt(s[1..], pat, j) <==> OccursAt(s, pat, j + 1)
  {
    if j + |pat| <= |s[1..]| {
      assert s[1..][j..j + |pat|] == s[j + 1..j + 1 + |pat|];
    }
  }

  /** Without an occurrence at the start, the first character is kept and
      the rest is searched. */
  lemma ReplaceFirstSkips(s: string, pat: string, rep: string)
    requires |s| > 0 && !StartsWith(s, pat)
    ensures ReplaceFirst(s, pat, rep) == [s[0]] + ReplaceFirst(s[1..], pat, rep)
  {
  }

  /** Splicing `rep` between `s[..i]` and `s[k..]` keeps the head of `s`
      in front of the same splice on its tail. */
  lemma SpliceHead(s: string, rep: string, i: nat, k: nat)
    requires 0 < i <= k <= |s|
    ensures s[..i] + rep + s[k..] == [s[0]] + (s[1..][..i - 1] + rep + s[1..][k - 1..])
  {
    assert s[..i] == [s[0]] + s[1..][..i - 1];
    assert s[k..] == s[1..][k - 1..];
  }

  /** No occurrence of `pat` starts before index `i`, stated one position
      at a time. */
  predicate NoneBefore(s: string, pat: string, i: nat)
    decreases i
  {
    i == 0 || (|s| > 0 && !StartsWith(s, pat) && NoneBefore(s[1..], pat, i - 1))
  }

  lemma {:induction false} NoneBeforeFromForall(s: string, pat: string, i: nat)
    requires i <= |s|
    requires forall j: nat :: j < i ==> !OccursAt(s, pat, j)
    ensures NoneBefore(s, pat, i)
    decreases i
  {
    if i > 0 {
      assert !OccursAt(s, pat, 0);
      forall j: nat | j < i - 1 ensures !OccursAt(s[1..], pat, j) {
        OccursInTail(s, pat, j);
      }
      NoneBeforeFromForall(s[1..], pat, i - 1);
    }
  }

  lemma {:induction false} ReplaceFirstAfter(s: string, pat: string, rep: string, i: nat)
    requires OccursAt(s, pat, i) && NoneBefore(s, pat, i)
    ensures ReplaceFirst(s, pat, rep) == s[..i] + rep + s[i + |pat|..]
    decreases i
  {
    if i > 0 {
      OccursInTail(s, pat, i - 1);
      ReplaceFirstAfter(s[1..], pat, rep, i - 1);
      ReplaceFirstSkips(s, pat, rep);
      SpliceHead(s, rep, i, i + |pat|);
    }
  }

  /** The general case: when the leftmost occurrence of `pat` is at `i`,
      exactly that occurrence is replaced. */
  lemma ReplaceFirstLeftmost(s: string, pat: string, rep: string, i: nat)
    requires OccursAt(s, pat, i)
    requires forall j: nat :: j < i ==> !OccursAt(s, pat, j)
    ensures ReplaceFirst(s, pat, rep) == s[..i] + rep + s[i + |pat|..]
  {
    NoneBeforeFromForall(s, pat, i);
    ReplaceFirstAfter(s, pat, rep, i);
  }

  /** ASCII case mapping; the code points the handlers compare against are
      all ASCII letters. */
  function LowerChar(c: char): (d: char)
    ensures 'A' <= c <= 'Z' ==> 'a' <= d <= 'z'
    ensures !('A' <= c <= 'Z') ==> d == c
  {
    if 'A' <= c <= 'Z' then (c as int + 32) as char else c
  }

  function UpperChar(c: char): (d: char)
    ensures 'a' <= c <= 'z' ==> 'A' <= d <= 'Z'
    ensures !('a' <= c <= 'z') ==> d == c
  {
    if 'a' <= c <= 'z' then (c as int - 32) as char else c
  }

  function Lower(s: string): (r: string)
    ensures |r| == |s|
    ensures forall i :: 0 <= i < |s| ==> r[i] == LowerChar(s[i])
  {
    if s == [] then [] else [LowerChar(s[0])] + Lower(s[1..])
  }

  function Upper(s: string): (r: string)
    ensures |r| == |s|
    ensures forall i :: 0 <= i < |s| ==> r[i] == UpperChar(s[i])
  {
    if s == [] then [] else [UpperChar(s[0])] + Upper(s[1..])
  }

  /** The code points ECMAScript's `trim` removes: WhiteSpace (tab, vertical
      tab, form feed, space, no-break space, byte order mark and the other
      space separators) and LineTerminator (LF, CR, U+2028, U+2029). */
  predicate IsJsSpace(c: char) {
    c == '\t' || c == '\n' || c == '\U{000B}' || c == '\U{000C}' || c == '\r' || c == ' '
    || c == '\U{00A0}' || c == '\U{1680}' || ('\U{2000}' <= c <= '\U{200A}')
    || c == '\U{2028}' || c == '\U{2029}' || c == '\U{202F}' || c == '\U{205F}'
    || c == '\U{3000}' || c == '\U{FEFF}'
  }

  function TrimStart(s: string): (r: string)
    ensures |r| <= |s| && r == s[|s| - |r|..]
    ensures forall i :: 0 <= i < |s| - |r| ==> IsJsSpace(s[i])
    ensures r == [] || !IsJsSpace(r[0])
  {
    if s != [] && IsJsSpace(s[0]) then TrimStart(s[1..]) else s
  }

  function TrimEnd(s: string): (r: string)
    ensures |r| <= |s| && r == s[..|r|]
    ensures forall i :: |r| <= i < |s| ==> IsJsSpace(s[i])
    ensures r == [] || !IsJsSpace(r[|r| - 1])
  {
    if s != [] && IsJsSpace(s[|s| - 1]) then TrimEnd(s[..|s| - 1]) else s
  }

  /** `r` is `s[i..j]` and everything before `i` and from `j` on is white space. */
  predicate TrimmedAt(s: string, r: string, i: int, j: int) {
    && 0 <= i <= j <= |s| && r == s[i..j]
    && (forall k :: 0 <= k < i ==> IsJsSpace(s[k]))
    && (forall k :: j <= k < |s| ==> IsJsSpace(s[k]))
  }

  /** `String.prototype.trim`: the longest slice of `s` that neither starts
      nor ends with white space; everything cut off is white space. */
  function Trim(s: string): (r: string)
    ensures exists i, j :: TrimmedAt(s, r, i, j)
    ensures r == [] || (!IsJsSpace(r[0]) && !IsJsSpace(r[|r| - 1]))
  {
    var t := TrimStart(s);
    var r := TrimEnd(t);
    var i := |s| - |t|;
    assert TrimmedAt(s, r, i, i + |r|) by {
      assert r == s[i..i + |r|];
      forall k | i + |r| <= k < |s| ensures IsJsSpace(s[k]) {
        assert s[k] == t[k - i];
      }
    }
    r
  }

  /** A text with nothing to trim is unchanged by `trim`. */
  lemma TrimOfTrimmed(s: string)
    requires s == [] || (!IsJsSpace(s[0]) && !IsJsSpace(s[|s| - 1]))
    ensures Trim(s) == s
  {
  }

  function DigitChar(d: nat): char
    requires d < 10
  {
    "0123456789"[d]
  }

  function NatToString(n: nat): (r: string)
    ensures |r| > 0 && '0' <= r[0] <= '9'
    decreases n
  {
    if n < 10 then [DigitChar(n)] else NatToString(n / 10) + [DigitChar(n % 10)]
  }

  /** The decimal rendering of a natural number consists of digits only. */
  lemma {:induction false} NatToStringDigits(n: nat)
    ensures forall i :: 0 <= i < |NatToString(n)| ==> '0' <= NatToString(n)[i] <= '9'
    decreases n
  {
    if n >= 10 {
      NatToStringDigits(n / 10);
    }
  }

  /** An integer as a template literal renders it. */
  function IntToString(i: int): (r: string)
    ensures |r| > 0
    ensures i < 0 <==> r[0] == '-'
  {
    if i < 0 then "-" + NatToString(-i) else NatToString(i)
  }

  /** Sequences without repeated elements: the shape of a JavaScript `Set`
      iterated in insertion order. */
  predicate NoDuplicates<T(==)>(s: seq<T>) {
    forall i, j :: 0 <= i < j < |s| ==> s[i] != s[j]
  }

  /** `Set.prototype.add` on an insertion-ordered set. */
  function SetAdd<T(==)>(s: seq<T>, x: T): (r: seq<T>)
    ensures x in r
    ensures NoDuplicates(s) ==> NoDuplicates(r)
    ensures s <= r && |r| <= |s| + 1
    ensures x in s ==> r == s
  {
    if x in s then s else s + [x]
  }

  function Min(a: real, b: real): (m: real)
    ensures m <= a && m <= b && (m == a || m == b)
  {
    if a <= b then a else b
  }

  /** `s.slice(0, n)`. */
  function Take<T>(s: seq<T>, n: nat): (r: seq<T>)
    ensures |r| <= n && r <= s
    ensures |s| <= n ==> r == s
  {
    if |s| <= n then s else s[..n]
  }
}
