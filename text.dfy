/** Substring search and one-character replacement on strings, as Python's
    `in` and `str.replace` behave on them. */
module Text {

  /** `sub` occurs in `s` starting at index `i`. */
  predicate OccursAt(s: string, sub: string, i: int)
  {
    0 <= i && i + |sub| <= |s| && s[i..i + |sub|] == sub
  }

  /** Python's `sub in s` on strings: some suffix of `s` starts with `sub`. */
  predicate Contains(s: string, sub: string)
  {
    sub <= s || (s != [] && Contains(s[1..], sub))
  }

  /** `Contains` agrees with the positional definition of a substring. */
  lemma {:induction false} ContainsIff(s: string, sub: string)
    ensures Contains(s, sub) <==> exists i :: OccursAt(s, sub, i)
    decreases |s|
  {
    if sub <= s {
      assert OccursAt(s, sub, 0);
    } else if s != [] {
      ContainsIff(s[1..], sub);
      if exists i :: OccursAt(s[1..], sub, i) {
        var i :| OccursAt(s[1..], sub, i);
        assert s[1..][i..i + |sub|] == s[i + 1..i + 1 + |sub|];
        assert OccursAt(s, sub, i + 1);
      }
      if exists i :: OccursAt(s, sub, i) {
        var i :| OccursAt(s, sub, i);
        assert i != 0;
        assert s[1..][i - 1..i - 1 + |sub|] == s[i..i + |sub|];
        assert OccursAt(s[1..], sub, i - 1);
      }
    }
  }

  /** A non-empty pattern whose first character never appears in `s` is not in `s`. */
  lemma {:induction false} NotContainsWithoutHead(s: string, sub: string)
    requires sub != [] && sub[0] !in s
    ensures !Contains(s, sub)
    decreases |s|
  {
    if s != [] {
      assert s[0] != sub[0];
      assert forall c :: c in s[1..] ==> c in s;
      NotContainsWithoutHead(s[1..], sub);
    }
  }

  /** Python's `s.replace(from, to)` for a one-character pattern and a
      one-character replacement. */
  function ReplaceChar(s: string, from: char, to: char): (r: string)
    ensures |r| == |s|
    ensures forall i :: 0 <= i < |s| ==> r[i] == (if s[i] == from then to else s[i])
  {
    if s == [] then []
    else [if s[0] == from then to else s[0]] + ReplaceChar(s[1..], from, to)
  }

  /** Replacing a character that does not occur leaves the string unchanged. */
  lemma ReplaceCharAbsent(s: string, from: char, to: char)
    requires from !in s
    ensures ReplaceChar(s, from, to) == s
  {
  }

  /** No occurrence of the replaced character survives. */
  lemma ReplaceCharRemovesAll(s: string, from: char, to: char)
    requires from != to
    ensures from !in ReplaceChar(s, from, to)
  {
  }

  /** Replacement distributes over concatenation. */
  lemma ReplaceCharAppend(a: string, b: string, from: char, to: char)
    ensures ReplaceChar(a + b, from, to) == ReplaceChar(a, from, to) + ReplaceChar(b, from, to)
  {
  }

  /** Replacing back undoes a replacement when the new character was not there before. */
  lemma ReplaceCharRoundTrip(s: string, from: char, to: char)
    requires to !in s
    ensures ReplaceChar(ReplaceChar(s, from, to), to, from) == s
  {
  }
}
