/**
 * The string primitives the bot's decision rules are built from:
 * JavaScript's `String.prototype.trim`, `toLowerCase` and `includes`.
 */
module Text {

  /** The code points `trim` removes: ECMAScript WhiteSpace and LineTerminator. */
  predicate IsSpace(c: char) {
    c == '\t' || c == '\n' || c == '\U{000B}' || c == '\U{000C}' || c == '\r' || c == ' '
    || c == '\U{00A0}' || c == '\U{1680}' || ('\U{2000}' <= c <= '\U{200A}')
    || c == '\U{2028}' || c == '\U{2029}' || c == '\U{202F}' || c == '\U{205F}'
    || c == '\U{3000}' || c == '\U{FEFF}'
  }

  function TrimStart(s: string): string {
    if |s| > 0 && IsSpace(s[0]) then TrimStart(s[1..]) else s
  }

  function TrimEnd(s: string): string {
    if |s| > 0 && IsSpace(s[|s| - 1]) then TrimEnd(s[..|s| - 1]) else s
  }

  /** `TrimStart` cuts off exactly the leading whitespace. */
  lemma {:induction false} TrimStartCuts(s: string)
    ensures var r := TrimStart(s);
      && |r| <= |s| && r == s[|s| - |r|..]
      && (r == [] || !IsSpace(r[0]))
      && forall k :: 0 <= k < |s| - |r| ==> IsSpace(s[k])
  {
    if |s| > 0 && IsSpace(s[0]) {
      var t := s[1..];
      TrimStartCuts(t);
      var r := TrimStart(t);
      assert TrimStart(s) == r;
      assert t[|t| - |r|..] == s[|s| - |r|..];
      forall k | 0 <= k < |s| - |r|
        ensures IsSpace(s[k])
      {
        if k > 0 { assert s[k] == t[k - 1]; }
      }
    }
  }

  /** `TrimEnd` cuts off exactly the trailing whitespace. */
  lemma {:induction false} TrimEndCuts(s: string)
    ensures var r := TrimEnd(s);
      && |r| <= |s| && r == s[..|r|]
      && (r == [] || !IsSpace(r[|r| - 1]))
      && forall k :: |r| <= k < |s| ==> IsSpace(s[k])
  {
    if |s| > 0 && IsSpace(s[|s| - 1]) {
      TrimEndCuts(s[..|s| - 1]);
    }
  }

  /** `r` is `s` with the whitespace `s[..i]` and `s[i + |r|..]` cut off. */
  predicate PaddedAt(s: string, r: string, i: int) {
    0 <= i && i + |r| <= |s| && s[i..i + |r|] == r
    && (forall k :: 0 <= k < i ==> IsSpace(s[k]))
    && (forall k :: i + |r| <= k < |s| ==> IsSpace(s[k]))
  }

  /** `String.prototype.trim`. */
  function Trim(s: string): string {
    TrimEnd(TrimStart(s))
  }

  /** `trim` leaves the slice of `s` with no whitespace at either end that only whitespace surrounds. */
  lemma TrimCuts(s: string)
    ensures var r := Trim(s);
      && (r == [] || (!IsSpace(r[0]) && !IsSpace(r[|r| - 1])))
      && exists i :: PaddedAt(s, r, i)
  {
    var t := TrimStart(s);
    var r := TrimEnd(t);
    TrimStartCuts(s);
    TrimEndCuts(t);
    assert PaddedAt(s, r, |s| - |t|) by {
      assert s[|s| - |t|..][..|r|] == s[|s| - |t|..|s| - |t| + |r|];
    }
  }

  /**
   * `toLowerCase` on the letters that occur in the bot's Portuguese
   * messages: ASCII `A`-`Z` and the Latin-1 capitals `À`-`Þ` (except `×`).
   */
  function LowerChar(c: char): char {
    if 'A' <= c <= 'Z' || ('\U{00C0}' <= c <= '\U{00DE}' && c != '\U{00D7}')
    then (c as int + 32) as char
    else c
  }

  /** Lowering never turns a letter into whitespace or whitespace into anything else. */
  lemma LowerCharKeepsSpace(c: char)
    ensures IsSpace(LowerChar(c)) <==> IsSpace(c)
  {
  }

  /** `toLowerCase`, one character at a time. */
  function Lower(s: string): (r: string)
    ensures |r| == |s|
    ensures forall k :: 0 <= k < |s| ==> r[k] == LowerChar(s[k])
  {
    if s == [] then [] else [LowerChar(s[0])] + Lower(s[1..])
  }

  /** `k` occurs in `s` starting at index `i`. */
  predicate OccursAt(s: string, k: string, i: int) {
    0 <= i && i + |k| <= |s| && s[i..i + |k|] == k
  }

  /** `s.includes(k)`, computed by scanning from the left. */
  function Contains(s: string, k: string): bool {
    if |k| <= |s| && s[..|k|] == k then true
    else if |s| == 0 then false
    else Contains(s[1..], k)
  }

  /** The scan finds `k` exactly when `k` occurs somewhere in `s`. */
  lemma {:induction false} ContainsOccurs(s: string, k: string)
    ensures Contains(s, k) <==> exists i :: OccursAt(s, k, i)
  {
    if |k| <= |s| && s[..|k|] == k {
      assert OccursAt(s, k, 0);
    } else if |s| > 0 {
      ContainsOccurs(s[1..], k);
      if i :| OccursAt(s[1..], k, i) {
        assert s[1..][i..i + |k|] == s[i + 1..i + 1 + |k|];
        assert OccursAt(s, k, i + 1);
      }
      if i :| OccursAt(s, k, i) {
        assert i != 0;
        assert s[1..][i - 1..i - 1 + |k|] == s[i..i + |k|];
        assert OccursAt(s[1..], k, i - 1);
      }
    }
  }

  /** `keywords.some(k => s.includes(k))`. */
  predicate ContainsAny(s: string, keywords: seq<string>) {
    exists i | 0 <= i < |keywords| :: Contains(s, keywords[i])
  }

  /** A trimmed string stays trimmed when lowered, so `trim()` after `toLowerCase()` changes nothing. */
  lemma TrimOfLoweredTrimmed(s: string)
    ensures Trim(Lower(Trim(s))) == Lower(Trim(s))
  {
    var r := Trim(s);
    var t := Lower(r);
    TrimCuts(s);
    if t != [] {
      LowerCharKeepsSpace(r[0]);
      LowerCharKeepsSpace(r[|r| - 1]);
    }
    assert TrimStart(t) == t;
    assert TrimEnd(t) == t;
  }
}
