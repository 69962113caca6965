/**
 * String operations the portfolio's TypeScript code leans on: `toLowerCase`, `trim`,
 * `split` on one character, `join`, `includes`, `startsWith`, `replace` of one character
 * and the last segment of a split (`split('.').pop()`). Strings are sequences of
 * characters; lower-casing covers the ASCII letters only.
 */
module Text {

  datatype Option<T> = None | Some(value: T)

  /** Lower-cases an ASCII upper-case letter and leaves every other character alone. */
  function LowerChar(c: char): (r: char)
    ensures 'A' <= c <= 'Z' ==> 'a' <= r <= 'z' && r as int == c as int + 32
    ensures !('A' <= c <= 'Z') ==> r == c
  {
    if 'A' <= c <= 'Z' then (c as int + 32) as char else c
  }

  /** `s.toLowerCase()`, character by character. */
  function Lower(s: string): (r: string)
    ensures |r| == |s|
    ensures forall i :: 0 <= i < |s| ==> r[i] == LowerChar(s[i])
  {
    if s == [] then [] else [LowerChar(s[0])] + Lower(s[1..])
  }

  lemma LowerIdempotent(s: string)
    ensures Lower(Lower(s)) == Lower(s)
  {
  }

  /** A string without upper-case letters is its own lower case. */
  lemma LowerNoUpper(s: string)
    requires forall i :: 0 <= i < |s| ==> !('A' <= s[i] <= 'Z')
    ensures Lower(s) == s
  {
  }

  /** A string whose only possible capital is its first character. */
  lemma LowerAfterFirst(s: string)
    requires s != [] && forall i :: 1 <= i < |s| ==> !('A' <= s[i] <= 'Z')
    ensures Lower(s) == [LowerChar(s[0])] + s[1..]
  {
    LowerNoUpper(s[1..]);
  }

  /** The characters that JavaScript's `trim` removes and that the regular-expression class `\s`
      matches: WhiteSpace and LineTerminator of the ECMAScript grammar. */
  predicate IsSpace(c: char)
  {
    || c == '\t' || c == '\n' || c == '\U{0B}' || c == '\U{0C}' || c == '\r' || c == ' '
    || c == '\U{A0}' || c == '\U{1680}' || ('\U{2000}' <= c <= '\U{200A}')
    || c == '\U{2028}' || c == '\U{2029}' || c == '\U{202F}' || c == '\U{205F}'
    || c == '\U{3000}' || c == '\U{FEFF}'
  }

  /** The characters the regular-expression `.` does not match. */
  predicate IsLineTerminator(c: char)
  {
    c == '\n' || c == '\r' || c == '\U{2028}' || c == '\U{2029}'
  }

  ghost predicate AllSpace(s: string)
  {
    forall i :: 0 <= i < |s| ==> IsSpace(s[i])
  }

  /** Number of whitespace characters at the start of `s`. */
  function LeadingSpaces(s: string): (k: nat)
    ensures k <= |s|
    ensures AllSpace(s[..k])
    ensures k < |s| ==> !IsSpace(s[k])
  {
    if s != [] && IsSpace(s[0]) then 1 + LeadingSpaces(s[1..]) else 0
  }

  /** Number of whitespace characters at the end of `s`. */
  function TrailingSpaces(s: string): (k: nat)
    ensures k <= |s|
    ensures AllSpace(s[|s| - k..])
    ensures k < |s| ==> !IsSpace(s[|s| - k - 1])
  {
    if s != [] && IsSpace(s[|s| - 1]) then 1 + TrailingSpaces(s[..|s| - 1]) else 0
  }

  /** `s.trim()`: the longest middle slice without whitespace at either end. */
  function Trim(s: string): (r: string)
    ensures r == [] || (!IsSpace(r[0]) && !IsSpace(r[|r| - 1]))
    ensures exists i, j :: 0 <= i <= j <= |s| && r == s[i..j] && AllSpace(s[..i]) && AllSpace(s[j..])
  {
    var i := LeadingSpaces(s);
    var t := s[i..];
    var k := TrailingSpaces(t);
    var j := i + (|t| - k);
    assert t[..|t| - k] == s[i..j];
    assert t[|t| - k..] == s[j..];
    s[i..j]
  }

  /** A string made of whitespace only trims to the empty string, and only such a string does. */
  lemma TrimEmptyIff(s: string)
    ensures Trim(s) == [] <==> AllSpace(s)
  {
    var i := LeadingSpaces(s);
    if AllSpace(s) {
      LeadingAllSpace(s);
    } else {
      var x :| 0 <= x < |s| && !IsSpace(s[x]);
      assert x >= i;
      var t := s[i..];
      assert !IsSpace(t[x - i]);
    }
  }

  /** A sequence is what comes before an index, the element there, and what follows. */
  lemma Around<T>(s: seq<T>, n: nat)
    requires n < |s|
    ensures s == s[..n] + [s[n]] + s[n + 1..]
  {
  }

  /** A string with no whitespace at either end trims to itself. */
  lemma TrimUnchanged(s: string)
    requires s == [] || (!IsSpace(s[0]) && !IsSpace(s[|s| - 1]))
    ensures Trim(s) == s
  {
    assert s[0..] == s;
  }

  lemma {:induction false} LeadingAllSpace(s: string)
    requires AllSpace(s)
    ensures LeadingSpaces(s) == |s|
  {
    if s != [] {
      LeadingAllSpace(s[1..]);
    }
  }

  /** `s.startsWith(p)`. */
  predicate StartsWith(s: string, p: string)
  {
    |p| <= |s| && s[..|p|] == p
  }

  /** A string whose first character differs from the prefix's does not start with it. */
  lemma FirstCharMismatch(s: string, p: string)
    requires s != [] && p != [] && s[0] != p[0]
    ensures !StartsWith(s, p)
  {
    if |p| <= |s| {
      assert s[..|p|][0] == s[0];
    }
  }

  /** `s.includes(sub)`. */
  predicate Contains(s: string, sub: string)
  {
    StartsWith(s, sub) || (s != [] && Contains(s[1..], sub))
  }

  /** `sub` occurs in `s` starting at index `i`. */
  ghost predicate OccursAt(s: string, sub: string, i: int)
  {
    0 <= i <= |s| - |sub| && s[i..i + |sub|] == sub
  }

  /** An occurrence one position into `s` is an occurrence in `s[1..]`, and back. */
  lemma OccursShift(s: string, sub: string, i: int)
    requires s != [] && i >= 0
    ensures OccursAt(s, sub, i + 1) <==> OccursAt(s[1..], sub, i)
  {
    if 0 <= i <= |s[1..]| - |sub| {
      var a, b := s[i + 1..i + 1 + |sub|], s[1..][i..i + |sub|];
      assert |a| == |b|;
      assert forall k :: 0 <= k < |a| ==> a[k] == s[i + 1 + k] == b[k];
      assert a == b;
    }
  }

  lemma {:induction false} OccursContains(s: string, sub: string, i: int)
    requires OccursAt(s, sub, i)
    ensures Contains(s, sub)
    decreases i
  {
    if i == 0 {
      assert s[..|sub|] == s[0..0 + |sub|];
    } else {
      OccursShift(s, sub, i - 1);
      OccursContains(s[1..], sub, i - 1);
    }
  }

  lemma {:induction false} ContainsOccurs(s: string, sub: string)
    requires Contains(s, sub)
    ensures exists i :: OccursAt(s, sub, i)
  {
    if StartsWith(s, sub) {
      assert s[0..0 + |sub|] == s[..|sub|];
      assert OccursAt(s, sub, 0);
    } else {
      ContainsOccurs(s[1..], sub);
      var i :| OccursAt(s[1..], sub, i);
      OccursShift(s, sub, i);
    }
  }

  /** `Contains` holds exactly when `sub` occurs at some position of `s`. */
  lemma ContainsIff(s: string, sub: string)
    ensures Contains(s, sub) <==> exists i :: OccursAt(s, sub, i)
  {
    if Contains(s, sub) {
      ContainsOccurs(s, sub);
    }
    if exists i :: OccursAt(s, sub, i) {
      var i :| OccursAt(s, sub, i);
      OccursContains(s, sub, i);
    }
  }

  /** An occurrence at a known position is enough to conclude `Contains`. */
  lemma ContainsAt(s: string, sub: string, i: nat)
    requires OccursAt(s, sub, i)
    ensures Contains(s, sub)
  {
    OccursContains(s, sub, i);
  }

  /** `s.replace(/a/g, b)` for a single character `a`. */
  function ReplaceChar(s: string, a: char, b: char): (r: string)
    ensures |r| == |s|
    ensures forall i :: 0 <= i < |s| ==> r[i] == (if s[i] == a then b else s[i])
  {
    if s == [] then [] else [if s[0] == a then b else s[0]] + ReplaceChar(s[1..], a, b)
  }

  /** `a` is `b` with some elements left out, the rest in their order. */
  ghost predicate Subsequence<T>(a: seq<T>, b: seq<T>)
  {
    if a == [] then true
    else if b == [] then false
    else (a[0] == b[0] && Subsequence(a[1..], b[1..])) || Subsequence(a, b[1..])
  }

  /** `s.replace(/[...]/g, '')`: `s` with every character of `cs` removed, order kept. */
  function RemoveChars(s: string, cs: set<char>): (r: string)
    ensures |r| <= |s|
    ensures forall i :: 0 <= i < |r| ==> r[i] !in cs && r[i] in s
    ensures forall i :: 0 <= i < |s| && s[i] !in cs ==> s[i] in r
  {
    if s == [] then [] else (if s[0] in cs then [] else [s[0]]) + RemoveChars(s[1..], cs)
  }

  /** `s.split(c)` for a one-character separator: the pieces between occurrences of `c`. */
  function Split(s: string, c: char): (r: seq<string>)
    ensures |r| >= 1
    ensures forall k :: 0 <= k < |r| ==> c !in r[k]
  {
    if s == [] then [""]
    else
      var rest := Split(s[1..], c);
      if s[0] == c then [""] + rest else [[s[0]] + rest[0]] + rest[1..]
  }

  /** `parts.join(sep)`. */
  function Join(parts: seq<string>, sep: string): string
  {
    if parts == [] then ""
    else if |parts| == 1 then parts[0]
    else parts[0] + sep + Join(parts[1..], sep)
  }

  /** Splitting and joining again with the same separator gives back the string. */
  lemma {:induction false} JoinSplit(s: string, c: char)
    ensures Join(Split(s, c), [c]) == s
  {
    if s != [] {
      JoinSplit(s[1..], c);
      var rest := Split(s[1..], c);
      if s[0] != c {
        if |rest| == 1 {
          assert Split(s, c) == [[s[0]] + rest[0]];
        } else {
          assert Split(s, c)[1..] == rest[1..];
          assert Join(rest, [c]) == rest[0] + [c] + Join(rest[1..], [c]);
        }
      }
    }
  }

  /** Joining pieces that do not contain the separator and splitting again gives back the pieces. */
  lemma {:induction false} SplitJoin(parts: seq<string>, c: char)
    requires |parts| >= 1
    requires forall k :: 0 <= k < |parts| ==> c !in parts[k]
    ensures Split(Join(parts, [c]), c) == parts
  {
    if |parts| == 1 {
      SplitNoSeparator(parts[0], c);
    } else {
      SplitJoin(parts[1..], c);
      SplitAfterPiece(parts[0], Join(parts[1..], [c]), c);
    }
  }

  lemma {:induction false} SplitNoSeparator(s: string, c: char)
    requires c !in s
    ensures Split(s, c) == [s]
  {
    if s != [] {
      SplitNoSeparator(s[1..], c);
      assert [s[0]] + s[1..] == s;
    }
  }

  /** One step of `Split`. */
  lemma SplitCons(s: string, c: char)
    requires s != []
    ensures s[0] == c ==> Split(s, c) == [""] + Split(s[1..], c)
    ensures s[0] != c ==> Split(s, c) == [[s[0]] + Split(s[1..], c)[0]] + Split(s[1..], c)[1..]
  {
  }

  /** `Split` of a string given as its first character and the rest. */
  lemma SplitOfCons(h: char, t: string, c: char)
    ensures h == c ==> Split([h] + t, c) == [""] + Split(t, c)
    ensures h != c ==> Split([h] + t, c) == [[h] + Split(t, c)[0]] + Split(t, c)[1..]
  {
    var s := [h] + t;
    assert s[0] == h && s[1..] == t;
  }

  lemma ExtendFirstPiece(h: string, a: seq<string>, b: seq<string>)
    requires a != []
    ensures [h + (a + b)[0]] + (a + b)[1..] == ([h + a[0]] + a[1..]) + b
  {
    assert (a + b)[0] == a[0];
    assert (a + b)[1..] == a[1..] + b;
  }

  lemma ConsAppend<T>(x: seq<T>, w: seq<T>)
    requires x != []
    ensures x + w == [x[0]] + (x[1..] + w)
  {
  }

  /** A prefix one element longer. */
  lemma PrefixSnoc<T>(s: seq<T>, i: nat)
    requires i < |s|
    ensures s[..i + 1] == s[..i] + [s[i]]
  {
  }

  lemma AppendAssoc<T>(p: seq<T>, q: seq<T>, r: seq<T>)
    ensures p + (q + r) == (p + q) + r
  {
  }

  /** Splitting at a separator splits each side independently. */
  lemma {:induction false} SplitConcat(x: string, y: string, c: char)
    ensures Split(x + [c] + y, c) == Split(x, c) + Split(y, c)
  {
    if x == [] {
      assert x + [c] + y == [c] + y;
      SplitOfCons(c, y, c);
    } else {
      var h, t := x[0], x[1..];
      SplitConcat(t, y, c);
      ConsAppend(x, [c] + y);
      AppendAssoc(x, [c], y);
      AppendAssoc(t, [c], y);
      ConsAppend(x, []);
      assert x == [h] + t;
      SplitOfCons(h, t + [c] + y, c);
      SplitOfCons(h, t, c);
      var a, b := Split(t, c), Split(y, c);
      if h == c {
        AppendAssoc([""], a, b);
      } else {
        ExtendFirstPiece([h], a, b);
      }
    }
  }

  lemma SplitAfterPiece(p: string, rest: string, c: char)
    requires c !in p
    ensures Split(p + [c] + rest, c) == [p] + Split(rest, c)
  {
    SplitConcat(p, rest, c);
    SplitNoSeparator(p, c);
  }

  /** Every character of every piece comes from the string. */
  lemma {:induction false} SplitPiecesFrom(s: string, c: char, k: nat, i: nat)
    requires k < |Split(s, c)| && i < |Split(s, c)[k]|
    ensures Split(s, c)[k][i] in s
  {
    var rest := Split(s[1..], c);
    if s[0] == c {
      SplitPiecesFrom(s[1..], c, k - 1, i);
    } else if k == 0 {
      if i > 0 {
        SplitPiecesFrom(s[1..], c, 0, i - 1);
      }
    } else {
      SplitPiecesFrom(s[1..], c, k, i);
    }
  }

  /** Number of occurrences of `c` in `s`. */
  function Count(s: string, c: char): nat
  {
    if s == [] then 0 else (if s[0] == c then 1 else 0) + Count(s[1..], c)
  }

  /** There is one more piece than there are separators. */
  lemma {:induction false} SplitLength(s: string, c: char)
    ensures |Split(s, c)| == Count(s, c) + 1
  {
    if s != [] {
      SplitLength(s[1..], c);
    }
  }

  /** `s.split(c).pop()`: the text after the last `c`, or all of `s` when it has none. */
  function LastPart(s: string, c: char): (r: string)
    ensures c !in r
  {
    var parts := Split(s, c);
    parts[|parts| - 1]
  }

  /** The last part is a suffix of the string, and what precedes it ends in the separator. */
  lemma LastPartIsSuffix(s: string, c: char)
    ensures |LastPart(s, c)| <= |s|
    ensures s[|s| - |LastPart(s, c)|..] == LastPart(s, c)
    ensures c in s ==> |LastPart(s, c)| < |s| && s[|s| - |LastPart(s, c)| - 1] == c
    ensures c !in s ==> LastPart(s, c) == s
  {
    if c !in s {
      SplitNoSeparator(s, c);
    } else {
      var i := LastOccurrence(s, c);
      var x, y := s[..i], s[i + 1..];
      Around(s, i);
      LastPartAfterSeparator(x, y, c);
      assert s[|s| - |y| - 1] == s[i];
    }
  }

  /** The index of the last occurrence of `c` in `s`. */
  lemma {:induction false} LastOccurrence(s: string, c: char) returns (i: nat)
    requires c in s
    ensures i < |s| && s[i] == c && c !in s[i + 1..]
  {
    if s[|s| - 1] == c {
      i := |s| - 1;
    } else {
      var t := s[..|s| - 1];
      assert s == t + [s[|s| - 1]];
      i := LastOccurrence(t, c);
      assert s[i + 1..] == t[i + 1..] + [s[|s| - 1]];
    }
  }

  /** Whatever precedes the last separator does not change the last part. */
  lemma LastPartAfterSeparator(p: string, e: string, c: char)
    requires c !in e
    ensures LastPart(p + [c] + e, c) == e
  {
    SplitConcat(p, e, c);
    SplitNoSeparator(e, c);
  }

  /** Decimal digits of a natural number, as `String(n)` writes it. */
  function NatToString(n: nat): (r: string)
    ensures |r| >= 1
    ensures forall i :: 0 <= i < |r| ==> '0' <= r[i] <= '9'
  {
    var d := ['0' + ((n % 10) as char)];
    assert '0' <= d[0] <= '9';
    if n < 10 then d else NatToString(n / 10) + d
  }
}
