/**
 * String.Replace(pattern, replacement) as the generator uses it: every
 * occurrence of a non-empty pattern, found scanning left to right without
 * overlaps, is replaced.
 */
module Text {

  /** The pattern occurs in s starting at position i. */
  predicate OccursAt(s: string, pattern: string, i: nat) {
    i + |pattern| <= |s| && s[i..i + |pattern|] == pattern
  }

  function ReplaceAll(s: string, pattern: string, replacement: string): string
    requires |pattern| > 0
    decreases |s|
  {
    if |s| < |pattern| then s
    else if s[..|pattern|] == pattern then replacement + ReplaceAll(s[|pattern|..], pattern, replacement)
    else [s[0]] + ReplaceAll(s[1..], pattern, replacement)
  }

  /** A string without any occurrence of the pattern is left as it is. */
  lemma {:induction false} ReplaceAllWithoutOccurrence(s: string, pattern: string, replacement: string)
    requires |pattern| > 0
    requires forall i: nat :: !OccursAt(s, pattern, i)
    ensures ReplaceAll(s, pattern, replacement) == s
    decreases |s|
  {
    if |s| >= |pattern| {
      assert !OccursAt(s, pattern, 0);
      forall i: nat ensures !OccursAt(s[1..], pattern, i) {
        assert !OccursAt(s, pattern, i + 1);
        if i + |pattern| <= |s[1..]| {
          assert s[1..][i..i + |pattern|] == s[i + 1..i + 1 + |pattern|];
        }
      }
      ReplaceAllWithoutOccurrence(s[1..], pattern, replacement);
      assert s == [s[0]] + s[1..];
    }
  }

  /** Replacing a pattern by itself changes nothing. */
  lemma {:induction false} ReplaceAllBySelf(s: string, pattern: string)
    requires |pattern| > 0
    ensures ReplaceAll(s, pattern, pattern) == s
    decreases |s|
  {
    if |s| >= |pattern| {
      if s[..|pattern|] == pattern {
        ReplaceAllBySelf(s[|pattern|..], pattern);
        assert s == s[..|pattern|] + s[|pattern|..];
      } else {
        ReplaceAllBySelf(s[1..], pattern);
        assert s == [s[0]] + s[1..];
      }
    }
  }

  /** The placeholders of the instructions all begin with an opening brace. */
  lemma PlaceholderAbsentWithoutBrace(s: string, placeholder: string, replacement: string)
    requires |placeholder| > 0 && placeholder[0] == '{'
    requires '{' !in s
    ensures ReplaceAll(s, placeholder, replacement) == s
  {
    forall i: nat ensures !OccursAt(s, placeholder, i) {
      if i + |placeholder| <= |s| {
        assert s[i..i + |placeholder|][0] == s[i] != '{';
      }
    }
    ReplaceAllWithoutOccurrence(s, placeholder, replacement);
  }

  /** Text without an opening brace before a brace-led pattern is copied through unchanged. */
  lemma {:induction false} BraceFreePrefixIsKept(pre: string, t: string, pattern: string, replacement: string)
    requires |pattern| > 0 && pattern[0] == '{'
    requires '{' !in pre
    ensures ReplaceAll(pre + t, pattern, replacement) == pre + ReplaceAll(t, pattern, replacement)
    decreases |pre|
  {
    if pre != [] {
      var s := pre + t;
      if |s| >= |pattern| {
        assert s[..|pattern|][0] == pre[0] != '{';
        assert s[..|pattern|] != pattern;
        assert ReplaceAll(s, pattern, replacement) == [s[0]] + ReplaceAll(s[1..], pattern, replacement);
        assert s[1..] == pre[1..] + t;
        BraceFreePrefixIsKept(pre[1..], t, pattern, replacement);
        assert pre == [pre[0]] + pre[1..];
      } else {
        assert ReplaceAll(t, pattern, replacement) == t;
      }
    } else {
      assert pre + t == t;
    }
  }

  /** A placeholder that occurs once, among text without braces, is replaced there and nowhere else. */
  lemma PlaceholderReplacedOnce(pre: string, placeholder: string, post: string, replacement: string)
    requires |placeholder| > 0 && placeholder[0] == '{'
    requires '{' !in pre && '{' !in post
    ensures ReplaceAll(pre + placeholder + post, placeholder, replacement) == pre + replacement + post
  {
    BraceFreePrefixIsKept(pre, placeholder + post, placeholder, replacement);
    var s := placeholder + post;
    assert s[..|placeholder|] == placeholder;
    assert s[|placeholder|..] == post;
    PlaceholderAbsentWithoutBrace(post, placeholder, replacement);
    assert pre + placeholder + post == pre + s;
  }

  /**
   * A different placeholder, which already differs from the pattern in its
   * second character, is left as it is.
   */
  lemma OtherPlaceholderIsKept(pre: string, other: string, post: string, pattern: string, replacement: string)
    requires |pattern| > 1 && pattern[0] == '{'
    requires |other| > 1 && other[0] == '{' && '{' !in other[1..]
    requires other[1] != pattern[1]
    requires '{' !in pre && '{' !in post
    ensures ReplaceAll(pre + other + post, pattern, replacement) == pre + other + post
  {
    BraceFreePrefixIsKept(pre, other + post, pattern, replacement);
    var s := other + post;
    if |s| >= |pattern| {
      assert s[..|pattern|][1] == other[1];
      assert s[1..] == other[1..] + post;
      PlaceholderAbsentWithoutBrace(other[1..] + post, pattern, replacement);
      assert s == [s[0]] + s[1..];
    }
    assert pre + other + post == pre + s;
  }

  /** The characters of s other than c, in order: an independent definition of removing c. */
  function Without(s: string, c: char): (r: string)
    ensures c !in r
    ensures forall x :: x != c ==> (x in r <==> x in s)
    ensures |r| <= |s|
  {
    if s == [] then []
    else (if s[0] == c then [] else [s[0]]) + Without(s[1..], c)
  }

  /** Replacing one character by the empty string removes exactly that character. */
  lemma {:induction false} ReplaceCharacterByNothing(s: string, c: char)
    ensures ReplaceAll(s, [c], "") == Without(s, c)
    decreases |s|
  {
    if s != [] {
      ReplaceCharacterByNothing(s[1..], c);
      if s[..1] == [c] {
        assert s[0] == c;
      } else {
        assert s[0] != c;
      }
    }
  }
}
