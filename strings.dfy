/** The JavaScript string built-ins the components depend on: `split` with a
    one-character separator, `join`, `includes` and `trim`. Strings are
    sequences of characters. */
module Strings {

  /** Index of the first occurrence of `c` in `s`. */
  function IndexOf(s: string, c: char): (i: nat)
    requires c in s
    ensures i < |s| && s[i] == c && c !in s[..i]
  {
    if s[0] == c then 0
    else
      var j := IndexOf(s[1..], c);
      assert s[..j + 1] == [s[0]] + s[1..][..j];
      j + 1
  }

  /** `s.split(sep)`: the pieces of `s` between occurrences of `sep`, in order.
      There is always at least one piece; `"".split(sep)` is `[""]`. */
  function Split(s: string, sep: char): (parts: seq<string>)
    ensures |parts| >= 1
    decreases |s|
  {
    if sep !in s then [s]
    else
      var i := IndexOf(s, sep);
      [s[..i]] + Split(s[i + 1..], sep)
  }

  /** `parts.join(sep)` for a non-empty array of pieces. */
  function Join(parts: seq<string>, sep: char): string
    requires |parts| >= 1
  {
    if |parts| == 1 then parts[0] else parts[0] + [sep] + Join(parts[1..], sep)
  }

  /** Splitting and joining with the same separator gives back the string. */
  lemma {:induction false} SplitJoin(s: string, sep: char)
    ensures Join(Split(s, sep), sep) == s
    decreases |s|
  {
    if sep in s {
      var i := IndexOf(s, sep);
      SplitJoin(s[i + 1..], sep);
      assert s == s[..i] + [sep] + s[i + 1..];
    }
  }

  /** No piece contains the separator, and every character of a piece occurs in `s`. */
  lemma {:induction false} SplitPieces(s: string, sep: char)
    ensures forall k :: 0 <= k < |Split(s, sep)| ==>
      sep !in Split(s, sep)[k] && forall c :: c in Split(s, sep)[k] ==> c in s
    decreases |s|
  {
    if sep in s {
      var i := IndexOf(s, sep);
      SplitPieces(s[i + 1..], sep);
      var parts := Split(s, sep);
      forall k | 0 <= k < |parts|
        ensures sep !in parts[k] && forall c :: c in parts[k] ==> c in s
      {
        if k > 0 {
          assert parts[k] == Split(s[i + 1..], sep)[k - 1];
          forall c | c in parts[k] ensures c in s {
            assert c in s[i + 1..];
          }
        }
      }
    }
  }

  /** When `a` holds no separator, the first piece of `a + [sep] + t` is `a`
      and the rest are the pieces of `t`. */
  lemma SplitAtFirst(a: string, sep: char, t: string)
    requires sep !in a
    ensures Split(a + [sep] + t, sep) == [a] + Split(t, sep)
  {
    var s := a + [sep] + t;
    assert s[|a|] == sep;
    var i := IndexOf(s, sep);
    assert s[..i] == a;
    assert s[i + 1..] == t;
  }

  /** No piece holds the separator. */
  predicate NoSeparator(parts: seq<string>, sep: char) {
    forall k :: 0 <= k < |parts| ==> sep !in parts[k]
  }

  /** Joining separator-free pieces and splitting again gives back the pieces. */
  lemma {:induction false} JoinSplit(parts: seq<string>, sep: char)
    requires |parts| >= 1 && NoSeparator(parts, sep)
    ensures Split(Join(parts, sep), sep) == parts
    decreases |parts|
  {
    if |parts| == 1 {
      assert Join(parts, sep) == parts[0] && sep !in parts[0];
    } else {
      var rest := parts[1..];
      assert NoSeparator(rest, sep) by {
        forall k | 0 <= k < |rest| ensures sep !in rest[k] {
          assert rest[k] == parts[k + 1];
        }
      }
      JoinSplit(rest, sep);
      assert Join(parts, sep) == parts[0] + [sep] + Join(rest, sep);
      assert sep !in parts[0];
      SplitAtFirst(parts[0], sep, Join(rest, sep));
      assert parts == [parts[0]] + rest;
    }
  }

  /** A piece ends where the next separator or the end of the string begins. */
  lemma SplitFirstPiece(t: string, sep: char, rest: string)
    requires sep !in t
    requires rest == [] || rest[0] == sep
    ensures Split(t + rest, sep)[0] == t
  {
    if rest == [] {
      assert t + rest == t;
    } else {
      assert t + rest == t + [sep] + rest[1..];
      SplitAtFirst(t, sep, rest[1..]);
    }
  }

  /** `sub` occurs in `s` starting at index `i`. */
  predicate OccursAt(s: string, sub: string, i: int) {
    0 <= i <= |s| - |sub| && s[i..i + |sub|] == sub
  }

  /** `s.includes(sub)`: `sub` occurs in `s` as a contiguous piece. */
  predicate Includes(s: string, sub: string) {
    exists i | 0 <= i <= |s| - |sub| :: OccursAt(s, sub, i)
  }

  /** A string lacking one of the characters of `sub` does not include `sub`. */
  lemma MissingCharNotIncluded(s: string, sub: string, j: nat)
    requires j < |sub| && sub[j] !in s
    ensures !Includes(s, sub)
  {
  }

  /** The characters `String.prototype.trim` removes: the ECMAScript
      WhiteSpace and LineTerminator code points. */
  predicate IsWhiteSpace(c: char) {
    || c == '\t' || c == '\n' || c == '\U{B}' || c == '\U{C}' || c == '\r'
    || c == ' ' || c == '\U{A0}' || c == '\U{1680}'
    || ('\U{2000}' <= c <= '\U{200A}')
    || c == '\U{2028}' || c == '\U{2029}' || c == '\U{202F}' || c == '\U{205F}'
    || c == '\U{3000}' || c == '\U{FEFF}'
  }

  predicate AllWhiteSpace(s: string) {
    forall i :: 0 <= i < |s| ==> IsWhiteSpace(s[i])
  }

  /** `s.trimStart()`: the longest suffix of `s` that follows only white space. */
  function TrimStart(s: string): (r: string)
    ensures |r| <= |s| && r == s[|s| - |r|..]
    ensures AllWhiteSpace(s[..|s| - |r|])
    ensures r != [] ==> !IsWhiteSpace(r[0])
  {
    if s != [] && IsWhiteSpace(s[0]) then
      var r := TrimStart(s[1..]);
      assert s[..|s| - |r|] == [s[0]] + s[1..][..|s| - 1 - |r|];
      r
    else s
  }

  /** `s.trimEnd()`: the longest prefix of `s` that only white space follows. */
  function TrimEnd(s: string): (r: string)
    ensures |r| <= |s| && r == s[..|r|]
    ensures AllWhiteSpace(s[|r|..])
    ensures r != [] ==> !IsWhiteSpace(r[|r| - 1])
  {
    if s != [] && IsWhiteSpace(s[|s| - 1]) then
      var p := s[..|s| - 1];
      var r := TrimEnd(p);
      assert s[..|r|] == p[..|r|];
      assert s[|r|..] == p[|r|..] + [s[|s| - 1]];
      AllWhiteSpaceConcat(p[|r|..], [s[|s| - 1]]);
      r
    else s
  }

  /** `r` sits in `s` at index `i` with only white space before and after it. */
  predicate TrimmedAt(s: string, r: string, i: int) {
    && 0 <= i <= |s| - |r| && s[i..i + |r|] == r
    && AllWhiteSpace(s[..i]) && AllWhiteSpace(s[i + |r|..])
  }

  /** `s.trim()`: `s` without its leading and trailing white space. */
  function Trim(s: string): (r: string)
    ensures r == [] <==> AllWhiteSpace(s)
    ensures r != [] ==> !IsWhiteSpace(r[0]) && !IsWhiteSpace(r[|r| - 1])
    ensures Includes(s, r)
    ensures TrimmedAt(s, r, |s| - |TrimStart(s)|)
  {
    TrimBlank(s);
    TrimFirst(s);
    TrimPiece(s);
    TrimEnd(TrimStart(s))
  }

  /** What trimming keeps is the piece of `s` between its leading and its
      trailing white space. */
  lemma TrimPiece(s: string)
    ensures TrimmedAt(s, TrimEnd(TrimStart(s)), |s| - |TrimStart(s)|)
    ensures Includes(s, TrimEnd(TrimStart(s)))
  {
    var t := TrimStart(s);
    var i := |s| - |t|;
    assert s == s[..i] + t;
    PieceOfSuffix(s[..i], t, TrimEnd(t));
    assert OccursAt(s, TrimEnd(t), i);
  }

  /** A prefix `r` of `t` followed only by white space, placed after white
      space `w`, sits in `w + t` at index `|w|`. */
  lemma PieceOfSuffix(w: string, t: string, r: string)
    requires AllWhiteSpace(w)
    requires |r| <= |t| && r == t[..|r|] && AllWhiteSpace(t[|r|..])
    ensures TrimmedAt(w + t, r, |w|)
  {
    var s := w + t;
    assert s[..|w|] == w;
    assert s[|w|..|w| + |r|] == r;
    assert s[|w| + |r|..] == t[|r|..];
  }

  /** Trimming keeps a piece of `s` that only white space precedes and follows. */
  lemma TrimKeepsInnerPiece(s: string)
    ensures exists i :: TrimmedAt(s, Trim(s), i)
  {
    assert TrimmedAt(s, Trim(s), |s| - |TrimStart(s)|);
  }

  lemma TrimBlank(s: string)
    ensures TrimEnd(TrimStart(s)) == [] <==> AllWhiteSpace(s)
  {
    var t := TrimStart(s);
    if TrimEnd(t) == [] {
      BlankAfterTrimEnd(t);
      BlankBeforeTrimStart(s);
    }
  }

  lemma TrimFirst(s: string)
    ensures var r := TrimEnd(TrimStart(s)); r != [] ==> !IsWhiteSpace(r[0])
  {
    var t := TrimStart(s);
    var r := TrimEnd(t);
    if r != [] {
      assert r[0] == t[0];
    }
  }

  lemma BlankAfterTrimEnd(t: string)
    requires TrimEnd(t) == []
    ensures AllWhiteSpace(t)
  {
    assert t[|TrimEnd(t)|..] == t;
  }

  lemma BlankBeforeTrimStart(s: string)
    requires AllWhiteSpace(TrimStart(s))
    ensures AllWhiteSpace(s)
  {
    var t := TrimStart(s);
    var i := |s| - |t|;
    AllWhiteSpaceConcat(s[..i], t);
    assert s == s[..i] + t;
  }

  lemma AllWhiteSpaceConcat(a: string, b: string)
    requires AllWhiteSpace(a) && AllWhiteSpace(b)
    ensures AllWhiteSpace(a + b)
  {
    forall k | 0 <= k < |a + b| ensures IsWhiteSpace((a + b)[k]) {
      if k < |a| { assert (a + b)[k] == a[k]; } else { assert (a + b)[k] == b[k - |a|]; }
    }
  }
}
