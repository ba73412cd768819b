/**
  Text and byte helpers: Rust's `str::trim` (used on the agent's stderr) and the
  CRLF-to-LF rewrite applied when a cached message is read back.
*/
module Text {

  newtype byte = x: int | 0 <= x < 256
  type Bytes = seq<byte>

  const CR: byte := 13
  const LF: byte := 10

  /** Unicode White_Space, the set Rust's `char::is_whitespace` (and so `str::trim`) uses. */
  const Whitespace: set<char> := {
    '\t', '\n', '\U{B}', '\U{C}', '\r', ' ', '\U{85}', '\U{A0}', '\U{1680}',
    '\U{2000}', '\U{2001}', '\U{2002}', '\U{2003}', '\U{2004}', '\U{2005}', '\U{2006}',
    '\U{2007}', '\U{2008}', '\U{2009}', '\U{200A}',
    '\U{2028}', '\U{2029}', '\U{202F}', '\U{205F}', '\U{3000}'
  }

  predicate IsWhitespace(c: char) {
    c in Whitespace
  }

  /** The index of the first non-whitespace character at or after `i` (or `|s|`). */
  function SkipLeading(s: string, i: nat): (n: nat)
    requires i <= |s|
    ensures i <= n <= |s|
    ensures forall k :: i <= k < n ==> IsWhitespace(s[k])
    ensures n == |s| || !IsWhitespace(s[n])
    decreases |s| - i
  {
    if i == |s| || !IsWhitespace(s[i]) then i else SkipLeading(s, i + 1)
  }

  /** The end of `s[lo..j]` once its trailing whitespace is dropped. */
  function SkipTrailing(s: string, lo: nat, j: nat): (m: nat)
    requires lo <= j <= |s|
    ensures lo <= m <= j
    ensures forall k :: m <= k < j ==> IsWhitespace(s[k])
    ensures m == lo || !IsWhitespace(s[m - 1])
    decreases j
  {
    if j == lo || !IsWhitespace(s[j - 1]) then j else SkipTrailing(s, lo, j - 1)
  }

  /**
    `str::trim`: the input with whitespace removed at both ends. The result is the slice of `s`
    that starts at its first non-whitespace character, and everything around it is whitespace.
  */
  function Trim(s: string): (r: string)
    ensures var lo := SkipLeading(s, 0);
      lo + |r| <= |s| && r == s[lo..lo + |r|]
      && (forall k :: 0 <= k < lo ==> IsWhitespace(s[k]))
      && (forall k :: lo + |r| <= k < |s| ==> IsWhitespace(s[k]))
    ensures r == [] || (!IsWhitespace(r[0]) && !IsWhitespace(r[|r| - 1]))
  {
    var lo := SkipLeading(s, 0);
    var hi := SkipTrailing(s, lo, |s|);
    s[lo..hi]
  }

  /** Trimming a trimmed string changes nothing. */
  lemma TrimIdempotent(s: string)
    ensures Trim(Trim(s)) == Trim(s)
  {
    var r := Trim(s);
    assert SkipLeading(r, 0) == 0;
    assert SkipTrailing(r, 0, |r|) == |r|;
  }

  /** Rust's `replace("\r\n", "\n")`: a left-to-right scan that turns every CR LF pair into LF. */
  function ReplaceCrlf(s: Bytes): (r: Bytes)
    ensures |r| <= |s|
    ensures s == [] <==> r == []
    ensures r != [] ==> r[0] == (if |s| >= 2 && s[0] == CR && s[1] == LF then LF else s[0])
  {
    if s == [] then []
    else if |s| >= 2 && s[0] == CR && s[1] == LF then [LF] + ReplaceCrlf(s[2..])
    else [s[0]] + ReplaceCrlf(s[1..])
  }

  /** The inverse direction: every LF becomes CR LF. */
  function ExpandLf(t: Bytes): (r: Bytes)
    ensures |r| >= |t|
  {
    if t == [] then []
    else if t[0] == LF then [CR, LF] + ExpandLf(t[1..])
    else [t[0]] + ExpandLf(t[1..])
  }

  /** The bytes with every CR taken out. */
  function WithoutCr(s: Bytes): Bytes {
    if s == [] then [] else (if s[0] == CR then [] else [s[0]]) + WithoutCr(s[1..])
  }

  /** Number of CR LF pairs in `s` (they cannot overlap). */
  function CrlfCount(s: Bytes): nat {
    if |s| < 2 then 0 else (if s[0] == CR && s[1] == LF then 1 else 0) + CrlfCount(s[1..])
  }

  predicate HasCrlf(s: Bytes) {
    exists i :: 0 <= i < |s| - 1 && s[i] == CR && s[i + 1] == LF
  }

  /** Rewriting LF line endings to CRLF and back gives the original text, whatever it holds. */
  lemma {:induction false} ReplaceCrlfInvertsExpandLf(t: Bytes)
    ensures ReplaceCrlf(ExpandLf(t)) == t
  {
    if t != [] {
      ReplaceCrlfInvertsExpandLf(t[1..]);
      if t[0] == LF {
        assert ExpandLf(t)[2..] == ExpandLf(t[1..]);
      } else {
        assert ExpandLf(t)[1..] == ExpandLf(t[1..]);
        if t[0] == CR && |ExpandLf(t)| >= 2 {
          assert ExpandLf(t)[1] != LF by {
            if t[1..] != [] && t[1] == LF {
              assert ExpandLf(t[1..])[0] == CR;
            } else if t[1..] != [] {
              assert ExpandLf(t[1..])[0] == t[1];
            }
          }
        }
      }
    }
  }

  /** Only CR bytes are removed: the text with all CRs dropped is the same before and after. */
  lemma {:induction false} ReplaceCrlfRemovesOnlyCr(s: Bytes)
    ensures WithoutCr(ReplaceCrlf(s)) == WithoutCr(s)
  {
    if s != [] {
      if |s| >= 2 && s[0] == CR && s[1] == LF {
        ReplaceCrlfRemovesOnlyCr(s[2..]);
        assert s[1..][1..] == s[2..];
        calc {
          WithoutCr(ReplaceCrlf(s));
          { assert ([LF] + ReplaceCrlf(s[2..]))[1..] == ReplaceCrlf(s[2..]); }
          [LF] + WithoutCr(ReplaceCrlf(s[2..]));
          [LF] + WithoutCr(s[2..]);
          WithoutCr(s[1..]);
          WithoutCr(s);
        }
      } else {
        ReplaceCrlfRemovesOnlyCr(s[1..]);
        assert ([s[0]] + ReplaceCrlf(s[1..]))[1..] == ReplaceCrlf(s[1..]);
      }
    }
  }

  /** Each CR LF pair shrinks the text by exactly one byte. */
  lemma {:induction false} ReplaceCrlfLength(s: Bytes)
    ensures |ReplaceCrlf(s)| == |s| - CrlfCount(s)
  {
    if s != [] {
      if |s| >= 2 && s[0] == CR && s[1] == LF {
        ReplaceCrlfLength(s[2..]);
        assert s[1..][1..] == s[2..];
        assert CrlfCount(s[1..]) == CrlfCount(s[2..]);
      } else {
        ReplaceCrlfLength(s[1..]);
      }
    }
  }

  /** Text without any CR comes back unchanged. */
  lemma {:induction false} ReplaceCrlfWithoutCrIsIdentity(s: Bytes)
    requires CR !in s
    ensures ReplaceCrlf(s) == s
  {
    if s != [] {
      assert forall b :: b in s[1..] ==> b in s;
      ReplaceCrlfWithoutCrIsIdentity(s[1..]);
    }
  }

  /**
    A CR LF pair in the output comes only from CR CR LF in the input (the first CR is kept, the
    CR LF after it becomes LF): an input without CR CR LF gives an output without CR LF.
  */
  lemma {:induction false} ReplaceCrlfLeavesNoCrlf(s: Bytes)
    requires forall i :: 0 <= i < |s| - 2 ==> !(s[i] == CR && s[i + 1] == CR && s[i + 2] == LF)
    ensures !HasCrlf(ReplaceCrlf(s))
  {
    if s != [] {
      var r := ReplaceCrlf(s);
      var skip := if |s| >= 2 && s[0] == CR && s[1] == LF then 2 else 1;
      var rest := ReplaceCrlf(s[skip..]);
      ReplaceCrlfLeavesNoCrlf(s[skip..]);
      assert r == [r[0]] + rest;
      forall i | 0 <= i < |r| - 1
        ensures !(r[i] == CR && r[i + 1] == LF)
      {
        if i > 0 {
          assert r[i] == rest[i - 1] && r[i + 1] == rest[i];
        } else if skip == 1 && s[0] == CR && |s| >= 2 {
          assert s[1] != LF;
          assert rest[0] == (if |s| >= 3 && s[1] == CR && s[2] == LF then LF else s[1]);
        }
      }
    }
  }
}
