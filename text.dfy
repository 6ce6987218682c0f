/** String helpers standing in for the Python built-ins the service relies on:
    `str.lower()`, `str.strip()`, `sep.join(...)`, the `in` substring test and
    `reversed(...)`. Lower-casing and the word/space classes are ASCII only. */
module Text {

  function Min(a: int, b: int): int
  {
    if a <= b then a else b
  }

  // ---------------------------------------------------------------------------
  // Lower-casing
  // ---------------------------------------------------------------------------

  /** `c.lower()` for ASCII letters; every other character is left alone. */
  function LowerChar(c: char): char
  {
    if 'A' <= c <= 'Z' then (c as int + 32) as char else c
  }

  function Lower(s: string): string
  {
    seq(|s|, i requires 0 <= i < |s| => LowerChar(s[i]))
  }

  predicate IsUpper(c: char)
  {
    'A' <= c <= 'Z'
  }

  /** Lower-casing leaves no upper-case letter behind and is therefore idempotent. */
  lemma LowerIsLower(s: string)
    ensures |Lower(s)| == |s|
    ensures forall i :: 0 <= i < |s| ==> !IsUpper(Lower(s)[i])
    ensures Lower(Lower(s)) == Lower(s)
  {
    assert forall i :: 0 <= i < |s| ==> Lower(Lower(s))[i] == Lower(s)[i];
  }

  lemma LowerAppend(a: string, b: string)
    ensures Lower(a + b) == Lower(a) + Lower(b)
  {
    assert forall i :: 0 <= i < |a + b| ==> Lower(a + b)[i] == (Lower(a) + Lower(b))[i];
  }

  // ---------------------------------------------------------------------------
  // Character classes
  // ---------------------------------------------------------------------------

  /** Membership in the regular-expression class `\w` (ASCII letters, digits, `_`). */
  predicate IsWordChar(c: char)
  {
    ('a' <= c <= 'z') || ('A' <= c <= 'Z') || ('0' <= c <= '9') || c == '_'
  }

  lemma LowerKeepsWordChar(c: char)
    ensures IsWordChar(LowerChar(c)) == IsWordChar(c)
  {
  }

  /** `c.isspace()` restricted to ASCII: space, tab, line feed, vertical tab,
      form feed, carriage return and the four separators 0x1C-0x1F. */
  predicate IsSpace(c: char)
  {
    c == ' ' || (9 <= c as int <= 13) || (28 <= c as int <= 31)
  }

  ghost predicate AllSpace(s: string)
  {
    forall i :: 0 <= i < |s| ==> IsSpace(s[i])
  }

  // ---------------------------------------------------------------------------
  // Stripping
  // ---------------------------------------------------------------------------

  /** Length of the whitespace run at the front of `s`. */
  function LeadingSpace(s: string): (n: nat)
    ensures n <= |s|
    ensures forall i :: 0 <= i < n ==> IsSpace(s[i])
    ensures n < |s| ==> !IsSpace(s[n])
  {
    if s == [] || !IsSpace(s[0]) then 0 else 1 + LeadingSpace(s[1..])
  }

  /** Length of the whitespace run at the back of `s`. */
  function TrailingSpace(s: string): (n: nat)
    ensures n <= |s|
    ensures forall i :: |s| - n <= i < |s| ==> IsSpace(s[i])
    ensures n < |s| ==> !IsSpace(s[|s| - 1 - n])
  {
    if s == [] || !IsSpace(s[|s| - 1]) then 0 else 1 + TrailingSpace(s[..|s| - 1])
  }

  /** `s.strip()`: the longest slice of `s` that neither starts nor ends with
      whitespace, obtained by removing only whitespace from both ends. */
  function Strip(s: string): (r: string)
    ensures |r| <= |s|
    ensures r == [] || (!IsSpace(r[0]) && !IsSpace(r[|r| - 1]))
    ensures LeadingSpace(s) + |r| <= |s| && r == s[LeadingSpace(s)..LeadingSpace(s) + |r|]
    ensures AllSpace(s[..LeadingSpace(s)]) && AllSpace(s[LeadingSpace(s) + |r|..])
  {
    var t := s[LeadingSpace(s)..];
    t[..|t| - TrailingSpace(t)]
  }

  /** `r` is what remains of `s` once whitespace is removed from both ends:
      a slice of `s` with only whitespace around it and none at its edges. */
  ghost predicate TrimmedFrom(r: string, s: string)
  {
    (r == [] || (!IsSpace(r[0]) && !IsSpace(r[|r| - 1])))
    && exists i :: 0 <= i && i + |r| <= |s| && r == s[i..i + |r|]
                   && AllSpace(s[..i]) && AllSpace(s[i + |r|..])
  }

  /** Stripping yields the empty string exactly for all-whitespace input. */
  lemma StripEmptyIff(s: string)
    ensures Strip(s) == [] <==> AllSpace(s)
  {
  }

  lemma StripIdempotent(s: string)
    ensures Strip(Strip(s)) == Strip(s)
  {
    var r := Strip(s);
    assert LeadingSpace(r) == 0;
    assert TrailingSpace(r) == 0;
  }

  // ---------------------------------------------------------------------------
  // Joining
  // ---------------------------------------------------------------------------

  /** `sep.join(xs)`. */
  function Join(xs: seq<string>, sep: string): string
  {
    if xs == [] then "" else if |xs| == 1 then xs[0] else xs[0] + sep + Join(xs[1..], sep)
  }

  /** Joining one more item adds the separator and the item at the end. */
  lemma {:induction false} JoinSnoc(xs: seq<string>, x: string, sep: string)
    ensures Join(xs + [x], sep) == if xs == [] then x else Join(xs, sep) + sep + x
  {
    if xs == [] {
    } else if |xs| == 1 {
      assert (xs + [x])[1..] == [x];
    } else {
      assert (xs + [x])[1..] == xs[1..] + [x];
      JoinSnoc(xs[1..], x, sep);
    }
  }

  predicate StartsWith(s: string, prefix: string)
  {
    |prefix| <= |s| && s[..|prefix|] == prefix
  }

  predicate EndsWith(s: string, suffix: string)
  {
    |suffix| <= |s| && s[|s| - |suffix|..] == suffix
  }

  // ---------------------------------------------------------------------------
  // Substring search
  // ---------------------------------------------------------------------------

  /** `w` occurs in `s` starting at index `i`. */
  predicate OccursAt(w: string, s: string, i: int)
  {
    0 <= i && i + |w| <= |s| && s[i..i + |w|] == w
  }

  ghost predicate IsSubstring(w: string, s: string)
  {
    exists i :: OccursAt(w, s, i)
  }

  function ContainsFrom(s: string, w: string, i: nat): bool
    decreases |s| - i
  {
    if i + |w| > |s| then false else OccursAt(w, s, i) || ContainsFrom(s, w, i + 1)
  }

  /** Python's `w in s` for strings: a left-to-right scan of start positions. */
  function Contains(s: string, w: string): bool
  {
    ContainsFrom(s, w, 0)
  }

  lemma {:induction false} ContainsFromSpec(s: string, w: string, i: nat)
    ensures ContainsFrom(s, w, i) <==> exists j :: i <= j && OccursAt(w, s, j)
    decreases |s| - i
  {
    if i + |w| <= |s| {
      ContainsFromSpec(s, w, i + 1);
      assert forall j :: i <= j && OccursAt(w, s, j) ==> j == i || i + 1 <= j;
    }
  }

  /** An occurrence inside `s` is still one once text is put around `s`. */
  lemma OccursWithin(w: string, a: string, s: string, b: string, i: int)
    requires OccursAt(w, s, i)
    ensures OccursAt(w, a + s + b, |a| + i)
  {
    assert (a + s + b)[|a| + i..|a| + i + |w|] == s[i..i + |w|];
  }

  /** Every item of `xs` occurs in `sep.join(xs)`. */
  lemma {:induction false} JoinHoldsItems(xs: seq<string>, sep: string)
    ensures forall k :: 0 <= k < |xs| ==> IsSubstring(xs[k], Join(xs, sep))
  {
    if |xs| == 1 {
      assert OccursAt(xs[0], Join(xs, sep), 0);
    } else if |xs| > 1 {
      var rest := Join(xs[1..], sep);
      JoinHoldsItems(xs[1..], sep);
      forall k | 0 <= k < |xs|
        ensures IsSubstring(xs[k], Join(xs, sep))
      {
        if k == 0 {
          OccursWithin(xs[0], [], xs[0], sep + rest, 0);
          assert [] + xs[0] + (sep + rest) == Join(xs, sep);
        } else {
          assert xs[k] == xs[1..][k - 1];
          var i :| OccursAt(xs[k], rest, i);
          OccursWithin(xs[k], xs[0] + sep, rest, [], i);
          assert xs[0] + sep + rest + [] == Join(xs, sep);
        }
      }
    }
  }

  /** The scan finds `w` exactly when `w` is a substring of `s`. */
  lemma ContainsSpec(s: string, w: string)
    ensures Contains(s, w) <==> IsSubstring(w, s)
  {
    ContainsFromSpec(s, w, 0);
  }

  /** A string holding a character that `s` lacks is no substring of `s`. */
  lemma MissingCharNotSubstring(w: string, s: string, c: char)
    requires c in w && c !in s
    ensures !IsSubstring(w, s)
  {
  }

  /** Appending two items one at a time appends the pair. */
  lemma AppendTwice<T>(s: seq<T>, a: T, b: T)
    ensures s + [a] + [b] == s + [a, b]
    ensures s + [a] + [] == s + [a]
  {
  }

  // ---------------------------------------------------------------------------
  // Reversal
  // ---------------------------------------------------------------------------

  function Reverse<T>(s: seq<T>): seq<T>
  {
    seq(|s|, i requires 0 <= i < |s| => s[|s| - 1 - i])
  }

  /** Taking the first `k` of the reversed sequence and reversing them back
      gives the last `k` items in their original order. */
  lemma NewestWindow<T>(s: seq<T>, k: nat)
    requires k <= |s|
    ensures Reverse(Reverse(s)[..k]) == s[|s| - k..]
  {
  }
}
