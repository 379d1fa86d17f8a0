/** The few Python string operations the inference code relies on:
    `str.lower`, the substring test `sub in s`, `str.replace` with
    one-character arguments, and `repr` of a list of plain identifiers;
    plus a prefix test, used by the intended column rename. */
module Text {

  predicate IsUpper(c: char) {
    'A' <= c <= 'Z'
  }

  /** No character of `s` is an upper-case ASCII letter. */
  predicate IsLowerCase(s: string) {
    forall i :: 0 <= i < |s| ==> !IsUpper(s[i])
  }

  /** Lower-casing of one character (ASCII letters only). */
  function LowerChar(c: char): (d: char)
    ensures !IsUpper(d)
    ensures IsUpper(c) ==> 'a' <= d <= 'z' && d as int - c as int == 'a' as int - 'A' as int
    ensures !IsUpper(c) ==> d == c
  {
    if IsUpper(c) then (c as int - 'A' as int + 'a' as int) as char else c
  }

  /** `s.lower()`: same length, every upper-case letter replaced by its
      lower-case partner, every other character kept. */
  function Lower(s: string): (r: string)
    ensures |r| == |s| && IsLowerCase(r)
    ensures forall i :: 0 <= i < |s| && IsUpper(s[i]) ==>
      r[i] as int == s[i] as int + ('a' as int - 'A' as int)
    ensures forall i :: 0 <= i < |s| && !IsUpper(s[i]) ==> r[i] == s[i]
  {
    seq(|s|, i requires 0 <= i < |s| => LowerChar(s[i]))
  }

  /** Lower-casing leaves an already lower-case string unchanged, so it is
      idempotent. */
  lemma LowerOfLowerCase(s: string)
    requires IsLowerCase(s)
    ensures Lower(s) == s
  {
  }

  lemma LowerIdempotent(s: string)
    ensures Lower(Lower(s)) == Lower(s)
  {
    LowerOfLowerCase(Lower(s));
  }

  /** `p` is a prefix of `s`, as `s.startswith(p)` tests it. */
  predicate StartsWith(s: string, p: string) {
    |p| <= |s| && s[..|p|] == p
  }

  /** `sub` occurs in `s` starting at position `i`. */
  predicate OccursAt(s: string, sub: string, i: int) {
    0 <= i && i + |sub| <= |s| && s[i..i + |sub|] == sub
  }

  /** `sub in s` for strings, checked position by position from the left:
      it holds exactly when `sub` occurs in `s` at some position. */
  predicate Contains(s: string, sub: string)
    ensures Contains(s, sub) <==> exists i :: OccursAt(s, sub, i)
    decreases |s|
  {
    if StartsWith(s, sub) then
      assert OccursAt(s, sub, 0);
      true
    else if |s| == 0 then
      false
    else
      OccursAfterFirst(s, sub);
      Contains(s[1..], sub)
  }

  /** When `sub` is not a prefix of `s`, it occurs in `s` exactly when it
      occurs in `s` without its first character. */
  lemma OccursAfterFirst(s: string, sub: string)
    requires |s| > 0 && !StartsWith(s, sub)
    ensures (exists j :: OccursAt(s[1..], sub, j)) <==> (exists i :: OccursAt(s, sub, i))
  {
    if j :| OccursAt(s[1..], sub, j) {
      assert s[1..][j..j + |sub|] == s[j + 1..j + 1 + |sub|];
      assert OccursAt(s, sub, j + 1);
    }
    if i :| OccursAt(s, sub, i) {
      assert i != 0;
      assert s[i..i + |sub|] == s[1..][i - 1..i - 1 + |sub|];
      assert OccursAt(s[1..], sub, i - 1);
    }
  }

  /** A string holding a character that `s` lacks cannot occur in `s`. */
  lemma {:induction false} NotContainedByMissingChar(s: string, sub: string, c: char)
    requires c in sub && c !in s
    ensures !Contains(s, sub)
    decreases |s|
  {
    if |s| > 0 {
      assert forall x :: x in s[1..] ==> x in s;
      NotContainedByMissingChar(s[1..], sub, c);
    }
  }

  /** `s.replace(from, to)` where both arguments are one character long:
      every occurrence is replaced. */
  function ReplaceChar(s: string, from: char, to: char): (r: string)
    ensures |r| == |s|
    ensures from != to ==> from !in r
    ensures forall i :: 0 <= i < |s| && s[i] == from ==> r[i] == to
    ensures forall i :: 0 <= i < |s| && s[i] != from ==> r[i] == s[i]
  {
    seq(|s|, i requires 0 <= i < |s| => if s[i] == from then to else s[i])
  }

  /** `repr(s)` for a string with no quote or backslash in it. */
  function Quote(s: string): string {
    "'" + s + "'"
  }

  /** The body of `repr(xs)` for a list of plain strings, without brackets:
      the quoted items separated by ", ". */
  function QuotedItems(xs: seq<string>): (r: string)
    ensures xs == [] <==> r == []
    ensures xs != [] ==> r[0] == '\'' && r[|r| - 1] == '\''
    decreases |xs|
  {
    if |xs| == 0 then ""
    else if |xs| == 1 then Quote(xs[0])
    else Quote(xs[0]) + ", " + QuotedItems(xs[1..])
  }

  /** In a concatenation of four parts, the first is a prefix, the second
      sits right after it and the last is a suffix. */
  lemma ConcatParts(p: string, n: string, q: string, t: string)
    ensures StartsWith(p + n + q + t, p)
    ensures (p + n + q + t)[|p|..|p| + |n|] == n
    ensures (p + n + q + t)[|p + n + q|..] == t
  {
    var m := p + n + q + t;
    assert m[..|p|] == p;
    assert m[|p|..|p| + |n|] == n;
    assert m[|p + n + q|..] == t;
  }

  /** Four items are quoted one by one and joined by ", ". */
  lemma QuotedFour(a: string, b: string, c: string, d: string)
    ensures QuotedItems([a, b, c, d]) == Quote(a) + ", " + Quote(b) + ", " + Quote(c) + ", " + Quote(d)
  {
    assert [a, b, c, d][1..] == [b, c, d] && [b, c, d][1..] == [c, d] && [c, d][1..] == [d];
    assert QuotedItems([d]) == Quote(d);
    assert QuotedItems([c, d]) == Quote(c) + ", " + QuotedItems([d]);
    assert QuotedItems([b, c, d]) == Quote(b) + ", " + QuotedItems([c, d]);
    assert QuotedItems([a, b, c, d]) == Quote(a) + ", " + QuotedItems([b, c, d]);
  }

  /** `repr(xs)` for a list of plain strings, as an f-string prints it. */
  function ListRepr(xs: seq<string>): (r: string)
    ensures |r| >= 2 && r[0] == '[' && r[|r| - 1] == ']'
    ensures xs == [] <==> r == "[]"
    ensures |xs| == 1 ==> r == "['" + xs[0] + "']"
  {
    "[" + QuotedItems(xs) + "]"
  }
}
