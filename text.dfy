/**
  The string primitives app.py relies on: `str.lower()`, the substring test
  `needle in haystack`, and `str.strip()`.  Lower-casing is modelled on ASCII
  letters only; every other character is left unchanged.
 */
module Text {

  /** ASCII lower-casing of one character. */
  function LowerChar(c: char): char {
    if 'A' <= c <= 'Z' then (c as int + 32) as char else c
  }

  /**
    `s.lower()`, character by character: the length is kept, each ASCII capital
    becomes its lower-case letter, no ASCII capital remains, and every character
    that is not an ASCII capital is kept as it is.
   */
  function Lower(s: string): (r: string)
    ensures |r| == |s|
    ensures forall i :: 0 <= i < |s| && 'A' <= s[i] <= 'Z' ==> r[i] == (s[i] as int + 32) as char
    ensures forall i :: 0 <= i < |r| ==> !('A' <= r[i] <= 'Z')
    ensures forall i :: 0 <= i < |s| && !('A' <= s[i] <= 'Z') ==> r[i] == s[i]
  {
    seq(|s|, i requires 0 <= i < |s| => LowerChar(s[i]))
  }

  lemma LowerCharIdempotent(c: char)
    ensures LowerChar(LowerChar(c)) == LowerChar(c)
  {
  }

  /** Lower-casing twice is lower-casing once. */
  lemma LowerIdempotent(s: string)
    ensures Lower(Lower(s)) == Lower(s)
  {
    forall i | 0 <= i < |s|
      ensures Lower(Lower(s))[i] == Lower(s)[i]
    {
      LowerCharIdempotent(s[i]);
    }
  }

  /** Lower-casing distributes over concatenation. */
  lemma LowerAppend(a: string, b: string)
    ensures Lower(a + b) == Lower(a) + Lower(b)
  {
  }

  /** `w` occurs in `s` starting at index `i`. */
  predicate OccursAt(s: string, w: string, i: nat) {
    i + |w| <= |s| && s[i..i + |w|] == w
  }

  lemma OccursShift(s: string, w: string, i: nat)
    requires |s| > 0
    ensures OccursAt(s[1..], w, i) <==> OccursAt(s, w, i + 1)
  {
    if i + 1 + |w| <= |s| {
      assert s[1..][i..i + |w|] == s[i + 1..i + 1 + |w|];
    }
  }

  /**
    Python's `w in s` on strings: `w` is a contiguous substring of `s`.  The
    empty word is in every string, and a word longer than the text is in none.
   */
  function Contains(s: string, w: string): (r: bool)
    ensures w == [] ==> r
    ensures r ==> |w| <= |s|
    decreases |s|
  {
    if |w| > |s| then false
    else if s[..|w|] == w then true
    else Contains(s[1..], w)
  }

  /** The substring test holds exactly when the word occurs at some position. */
  lemma {:induction false} ContainsIff(s: string, w: string)
    ensures Contains(s, w) <==> exists i :: 0 <= i <= |s| && OccursAt(s, w, i)
    decreases |s|
  {
    if |w| > |s| {
    } else if s[..|w|] == w {
      assert OccursAt(s, w, 0);
    } else {
      assert !OccursAt(s, w, 0);
      ContainsIff(s[1..], w);
      forall j | 1 <= j <= |s| ensures OccursAt(s, w, j) ==> OccursAt(s[1..], w, j - 1) {
        OccursShift(s, w, j - 1);
      }
      forall k | 0 <= k <= |s[1..]| ensures OccursAt(s[1..], w, k) ==> OccursAt(s, w, k + 1) {
        OccursShift(s, w, k);
      }
    }
  }

  /** A word written between two strings is contained in the result. */
  lemma ContainsInfix(a: string, w: string, b: string)
    ensures Contains(a + w + b, w)
  {
    ContainsIff(a + w + b, w);
    assert OccursAt(a + w + b, w, |a|) by {
      assert (a + w + b)[|a|..|a| + |w|] == w;
    }
  }

  /** Containment survives putting text in front. */
  lemma ContainsAfterPrefix(u: string, s: string, w: string)
    requires Contains(s, w)
    ensures Contains(u + s, w)
  {
    ContainsIff(s, w);
    var i :| 0 <= i <= |s| && OccursAt(s, w, i);
    assert (u + s)[|u| + i..|u| + i + |w|] == s[i..i + |w|];
    assert OccursAt(u + s, w, |u| + i);
    ContainsIff(u + s, w);
  }

  /** The characters Python's `str.isspace()` (and so `str.strip()`) treats as whitespace. */
  predicate IsSpace(c: char) {
    var n := c as int;
    n == 0x20 || 0x09 <= n <= 0x0D || 0x1C <= n <= 0x1F || n == 0x85 || n == 0xA0
    || n == 0x1680 || 0x2000 <= n <= 0x200A || n == 0x2028 || n == 0x2029
    || n == 0x202F || n == 0x205F || n == 0x3000
  }

  /** Every character of `s` is whitespace (vacuously so for the empty string). */
  predicate IsBlank(s: string) {
    forall i :: 0 <= i < |s| ==> IsSpace(s[i])
  }

  /** `s.lstrip()`. */
  function TrimStart(s: string): string {
    if s == [] || !IsSpace(s[0]) then s else TrimStart(s[1..])
  }

  /** `s.rstrip()`. */
  function TrimEnd(s: string): string {
    if s == [] || !IsSpace(s[|s| - 1]) then s else TrimEnd(s[..|s| - 1])
  }

  /**
    `s.strip()`: whitespace removed from both ends.  The result is the slice of
    `s` between a blank prefix and a blank suffix, and it is empty or begins
    and ends with a non-space.
   */
  function Strip(s: string): (r: string)
    ensures |r| <= |s|
    ensures exists i :: 0 <= i && i + |r| <= |s| && r == s[i..i + |r|]
                        && IsBlank(s[..i]) && IsBlank(s[i + |r|..])
    ensures r == [] || (!IsSpace(r[0]) && !IsSpace(r[|r| - 1]))
  {
    var e := TrimEnd(s);
    TrimEndShape(s);
    TrimStartShape(e);
    TrimStartBlankPrefix(e);
    var r := TrimStart(e);
    var i := |e| - |r|;
    assert r == s[i..i + |r|] by {
      assert e[i..] == s[..|e|][i..];
    }
    assert s[..i] == e[..i];
    r
  }

  /** What left-stripping removes is blank. */
  lemma {:induction false} TrimStartBlankPrefix(s: string)
    ensures |TrimStart(s)| <= |s| && IsBlank(s[..|s| - |TrimStart(s)|])
  {
    if s != [] && IsSpace(s[0]) {
      TrimStartBlankPrefix(s[1..]);
      var k := |s[1..]| - |TrimStart(s[1..])|;
      forall j | 0 <= j < k + 1 ensures IsSpace(s[j]) {
        if j > 0 {
          assert s[j] == s[1..][..k][j - 1];
        }
      }
    }
  }

  /** Left-stripping leaves a suffix that is empty or begins with a non-space. */
  lemma {:induction false} TrimStartShape(s: string)
    ensures |TrimStart(s)| <= |s| && TrimStart(s) == s[|s| - |TrimStart(s)|..]
    ensures TrimStart(s) == [] || !IsSpace(TrimStart(s)[0])
  {
    if s != [] && IsSpace(s[0]) {
      TrimStartShape(s[1..]);
      assert s[1..][|s[1..]| - |TrimStart(s[1..])|..] == s[|s| - |TrimStart(s)|..];
    }
  }

  /** Left-stripping leaves nothing exactly when the string is blank. */
  lemma {:induction false} TrimStartEmptyIffBlank(s: string)
    ensures TrimStart(s) == [] <==> IsBlank(s)
  {
    if s != [] && IsSpace(s[0]) {
      TrimStartEmptyIffBlank(s[1..]);
      assert IsBlank(s[1..]) ==> IsBlank(s) by {
        if IsBlank(s[1..]) {
          forall i | 0 <= i < |s| ensures IsSpace(s[i]) {
            if i > 0 {
              assert s[i] == s[1..][i - 1];
            }
          }
        }
      }
    }
  }

  /** Right-stripping leaves a prefix that is empty or ends in a non-space, followed by blanks. */
  lemma {:induction false} TrimEndShape(s: string)
    ensures |TrimEnd(s)| <= |s| && TrimEnd(s) == s[..|TrimEnd(s)|]
    ensures TrimEnd(s) == [] || !IsSpace(TrimEnd(s)[|TrimEnd(s)| - 1])
    ensures IsBlank(s[|TrimEnd(s)|..])
    decreases |s|
  {
    if s != [] && IsSpace(s[|s| - 1]) {
      var t := s[..|s| - 1];
      TrimEndShape(t);
      var r := TrimEnd(t);
      assert TrimEnd(s) == r;
      assert t[..|r|] == s[..|r|];
      forall i | |r| <= i < |s| ensures IsSpace(s[i]) {
        if i < |s| - 1 {
          assert s[i] == t[|r|..][i - |r|];
        }
      }
    }
  }

  /** `not s.strip()` holds exactly when the string is blank. */
  lemma StripEmptyIffBlank(s: string)
    ensures Strip(s) == [] <==> IsBlank(s)
  {
    var e := TrimEnd(s);
    TrimEndShape(s);
    TrimStartEmptyIffBlank(e);
    if Strip(s) == [] {
      assert e == [];
      assert s[0..] == s;
    }
  }
}
