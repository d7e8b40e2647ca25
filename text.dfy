/** The string operations the prompt builder uses: `String.prototype.indexOf`,
    `String.prototype.replace` with a string pattern, and the decimal rendering of
    an integer inside a template literal. */
module Text {
  import opened Wrappers

  /** `pattern` occurs in `text` starting at position `k`. */
  predicate OccursAt(text: string, pattern: string, k: int) {
    0 <= k && k + |pattern| <= |text| && text[k..k + |pattern|] == pattern
  }

  /** `pattern` does not occur anywhere in `text`. */
  predicate Clean(text: string, pattern: string) {
    forall k | 0 <= k <= |text| :: !OccursAt(text, pattern, k)
  }

  /** `pattern` occurs at `k` and at no earlier position. */
  predicate FirstOccurrence(text: string, pattern: string, k: int) {
    OccursAt(text, pattern, k) && forall j | 0 <= j < k :: !OccursAt(text, pattern, j)
  }

  /** `text.indexOf(pattern)`, with `None` for -1. */
  function IndexOf(text: string, pattern: string): (r: Option<nat>)
    ensures r.Some? ==> FirstOccurrence(text, pattern, r.value)
    ensures r.None? ==> Clean(text, pattern)
    decreases |text|
  {
    if |text| < |pattern| then None
    else if text[..|pattern|] == pattern then Some(0)
    else
      match IndexOf(text[1..], pattern)
      case None =>
        assert forall k | 1 <= k :: OccursAt(text, pattern, k) ==> OccursAt(text[1..], pattern, k - 1) by {
          forall k | 1 <= k && OccursAt(text, pattern, k) ensures OccursAt(text[1..], pattern, k - 1) {
            assert text[1..][k - 1..k - 1 + |pattern|] == text[k..k + |pattern|];
          }
        }
        None
      case Some(k) =>
        assert text[1..][k..k + |pattern|] == text[k + 1..k + 1 + |pattern|];
        assert forall j | 1 <= j <= k :: OccursAt(text, pattern, j) ==> OccursAt(text[1..], pattern, j - 1) by {
          forall j | 1 <= j <= k && OccursAt(text, pattern, j) ensures OccursAt(text[1..], pattern, j - 1) {
            assert text[1..][j - 1..j - 1 + |pattern|] == text[j..j + |pattern|];
          }
        }
        Some(k + 1)
  }

  /** `text.replace(pattern, replacement)` for a string pattern: only the first
      occurrence is replaced, and a text without one comes back unchanged. */
  function ReplaceFirst(text: string, pattern: string, replacement: string): (r: string)
    ensures Clean(text, pattern) ==> r == text
    ensures forall k | FirstOccurrence(text, pattern, k) ::
      r == text[..k] + replacement + text[k + |pattern|..]
  {
    match IndexOf(text, pattern)
    case None => text
    case Some(k) =>
      assert forall j | FirstOccurrence(text, pattern, j) :: j == k;
      text[..k] + replacement + text[k + |pattern|..]
  }

  /** When nothing before the pattern's first full occurrence matches, the replacement
      lands exactly there. */
  lemma ReplaceAt(a: string, pattern: string, post: string, replacement: string)
    requires |pattern| > 0
    requires Clean(a + pattern[..|pattern| - 1], pattern)
    ensures ReplaceFirst(a + pattern + post, pattern, replacement) == a + replacement + post
  {
    var text := a + pattern + post;
    var n := |pattern|;
    assert text[|a|..|a| + n] == pattern;
    assert a + pattern[..n - 1] == text[..|a| + n - 1];
    forall j | 0 <= j < |a| ensures !OccursAt(text, pattern, j) {
      assert (a + pattern[..n - 1])[j..j + n] == text[j..j + n];
      assert !OccursAt(a + pattern[..n - 1], pattern, j);
    }
    assert FirstOccurrence(text, pattern, |a|);
    assert text[..|a|] == a && text[|a| + n..] == post;
  }

  /** Only the first occurrence is replaced: an occurrence after it survives, shifted by
      the difference in length. */
  lemma ReplaceKeepsLaterOccurrence(text: string, pattern: string, replacement: string, k: int, j: int)
    requires FirstOccurrence(text, pattern, k)
    requires OccursAt(text, pattern, j) && j >= k + |pattern|
    ensures OccursAt(ReplaceFirst(text, pattern, replacement), pattern, j - |pattern| + |replacement|)
  {
    ReplaceFirstAt(text, pattern, replacement, k);
    OccursAfterSplice(text, pattern, replacement, k, j);
  }

  /** Splicing a replacement over `text[k..k + |pattern|]` moves a later occurrence by the
      difference in length. */
  lemma OccursAfterSplice(text: string, pattern: string, replacement: string, k: int, j: int)
    requires 0 <= k && OccursAt(text, pattern, j) && j >= k + |pattern|
    ensures OccursAt(text[..k] + replacement + text[k + |pattern|..], pattern, j - |pattern| + |replacement|)
  {
    var n := |pattern|;
    var rest := text[k + n..];
    var d := j - k - n;
    assert rest[d..d + n] == text[j..j + n];
    ShiftOccurrence(text[..k] + replacement, rest, pattern, d);
  }

  lemma ReplaceFirstAt(text: string, pattern: string, replacement: string, k: int)
    requires FirstOccurrence(text, pattern, k)
    ensures ReplaceFirst(text, pattern, replacement) == text[..k] + replacement + text[k + |pattern|..]
  {
  }

  /** An occurrence moves by the length of whatever is put in front of it. */
  lemma ShiftOccurrence(head: string, rest: string, pattern: string, d: int)
    requires OccursAt(rest, pattern, d)
    ensures OccursAt(head + rest, pattern, |head| + d)
  {
    assert (head + rest)[|head| + d..|head| + d + |pattern|] == rest[d..d + |pattern|];
  }

  /** No occurrence can start inside a prefix that lacks the pattern's first character. */
  lemma CleanAfterPrefix(u: string, v: string, pattern: string)
    requires |pattern| > 0 && pattern[0] !in u
    requires Clean(v, pattern)
    ensures Clean(u + v, pattern)
  {
    var s := u + v;
    var n := |pattern|;
    forall k | 0 <= k <= |s| ensures !OccursAt(s, pattern, k) {
      if k + n <= |s| {
        if k < |u| {
          assert s[k..k + n][0] == u[k];
        } else {
          assert s[k..k + n] == v[k - |u|..k - |u| + n];
          assert !OccursAt(v, pattern, k - |u|);
        }
      }
    }
  }

  /** Two clean texts stay clean when joined, if the second starts with a character
      the pattern does not contain, so that no occurrence can straddle the seam. */
  lemma CleanFenced(u: string, v: string, pattern: string)
    requires Clean(u, pattern) && Clean(v, pattern)
    requires v != [] && v[0] !in pattern
    ensures Clean(u + v, pattern)
  {
    var s := u + v;
    var n := |pattern|;
    forall k | 0 <= k <= |s| ensures !OccursAt(s, pattern, k) {
      if k + n <= |s| {
        if k + n <= |u| {
          assert s[k..k + n] == u[k..k + n];
          assert !OccursAt(u, pattern, k);
        } else if k < |u| {
          assert s[k..k + n][|u| - k] == v[0];
        } else {
          assert s[k..k + n] == v[k - |u|..k - |u| + n];
          assert !OccursAt(v, pattern, k - |u|);
        }
      }
    }
  }

  /** The text up to a first occurrence, extended by all but the last character of the
      pattern, holds no occurrence yet. */
  lemma CleanBeforeFirst(text: string, pattern: string, k: int)
    requires |pattern| > 0 && FirstOccurrence(text, pattern, k)
    ensures text[..k] + pattern[..|pattern| - 1] == text[..k + |pattern| - 1]
    ensures Clean(text[..k + |pattern| - 1], pattern)
  {
    var n := |pattern|;
    var t := text[..k + n - 1];
    assert text[k..k + n] == pattern;
    assert text[..k] + pattern[..n - 1] == t by {
      assert text[k..k + n - 1] == pattern[..n - 1];
    }
    forall j | 0 <= j <= |t| ensures !OccursAt(t, pattern, j) {
      if j + n <= |t| {
        assert t[j..j + n] == text[j..j + n];
        assert !OccursAt(text, pattern, j);
      }
    }
  }

  /** A placeholder: it opens with `{` and stays on one line. */
  predicate Placeholder(key: string) {
    |key| > 0 && key[0] == '{' && '\n' !in key
  }

  lemma Assoc(a: string, b: string, c: string)
    ensures a + (b + c) == a + b + c
  {
  }

  /** Cutting a text at an occurrence of a pattern. */
  lemma SplitAt(v: string, key: string, k: int)
    requires OccursAt(v, key, k)
    ensures v == v[..k] + key + v[k + |key|..]
  {
  }

  /** A placeholder behind a head without `{` is replaced where the template has it. */
  lemma FillPlaceholder(head: string, key: string, post: string, value: string)
    requires Placeholder(key) && '{' !in head
    ensures ReplaceFirst(head + key + post, key, value) == head + value + post
  {
    assert Clean(key[..|key| - 1], key);
    CleanAfterPrefix(head, key[..|key| - 1], key);
    ReplaceAt(head, key, post, value);
  }

  /** A placeholder behind a clean text and a middle part that starts a new line without
      `{` is replaced where the template has it. */
  lemma FillAfterClean(pre: string, middle: string, key: string, post: string, value: string)
    requires Placeholder(key) && '{' !in middle && middle != [] && middle[0] == '\n'
    requires Clean(pre, key)
    ensures ReplaceFirst(pre + middle + key + post, key, value) == pre + middle + value + post
  {
    var short := key[..|key| - 1];
    assert Clean(short, key);
    CleanAfterPrefix(middle, short, key);
    CleanFenced(pre, middle + short, key);
    Assoc(pre, middle, short);
    ReplaceAt(pre + middle, key, post, value);
  }

  /** A placeholder inside an inserted value captures the replacement at its first
      occurrence, when nothing in front of the value can hold the placeholder. */
  lemma FillInside(head: string, value: string, key: string, post: string, replacement: string, k: int)
    requires |key| > 0 && key[0] !in head && FirstOccurrence(value, key, k)
    ensures ReplaceFirst(head + value + post, key, replacement)
         == head + value[..k] + replacement + (value[k + |key|..] + post)
  {
    var n := |key|;
    CleanBeforeFirst(value, key, k);
    CleanAfterPrefix(head, value[..k + n - 1], key);
    Assoc(head, value[..k], key[..n - 1]);
    SplitAt(value, key, k);
    Assoc(head + value[..k] + key, value[k + n..], post);
    Assoc(head, value[..k] + key, value[k + n..]);
    Assoc(head, value[..k], key);
    ReplaceAt(head + value[..k], key, value[k + n..] + post, replacement);
  }

  /** Sequential replacement in a template with two placeholders: when the first value
      does not hold the second placeholder, each value lands at its own placeholder. */
  lemma FillTwo(head: string, key1: string, middle: string, key2: string, tail: string, value1: string, value2: string)
    requires Placeholder(key1) && Placeholder(key2)
    requires '{' !in head && '{' !in middle && middle != [] && middle[0] == '\n'
    requires Clean(value1, key2)
    ensures ReplaceFirst(ReplaceFirst(head + key1 + middle + key2 + tail, key1, value1), key2, value2)
         == head + value1 + middle + value2 + tail
  {
    FillFirst(head, key1, middle, key2, tail, value1);
    CleanAfterPrefix(head, value1, key2);
    FillAfterClean(head + value1, middle, key2, tail, value2);
  }

  /** The first of the template's placeholders lands where the template has it. */
  lemma FillFirst(head: string, key1: string, middle: string, key2: string, tail: string, value1: string)
    requires Placeholder(key1) && '{' !in head
    ensures ReplaceFirst(head + key1 + middle + key2 + tail, key1, value1) == head + value1 + middle + key2 + tail
  {
    Regroup(head, key1, middle, key2, tail);
    Regroup(head, value1, middle, key2, tail);
    FillPlaceholder(head, key1, middle + key2 + tail, value1);
  }

  lemma Regroup(a: string, b: string, c: string, d: string, e: string)
    ensures a + b + c + d + e == a + b + (c + d + e)
  {
  }

  /** Sequential replacement in a template with two placeholders: when the first value
      holds the second placeholder, the second value replaces the first occurrence inside
      the first value, and the template's own second placeholder survives. */
  lemma CaptureTwo(head: string, key1: string, middle: string, key2: string, tail: string, value1: string, value2: string, k: int)
    requires Placeholder(key1) && Placeholder(key2) && '{' !in head
    requires FirstOccurrence(value1, key2, k)
    ensures ReplaceFirst(ReplaceFirst(head + key1 + middle + key2 + tail, key1, value1), key2, value2)
         == head + value1[..k] + value2 + value1[k + |key2|..] + middle + key2 + tail
  {
    FillFirst(head, key1, middle, key2, tail, value1);
    Regroup(head, value1, middle, key2, tail);
    FillInside(head, value1, key2, middle + key2 + tail, value2, k);
    Regroup(head + value1[..k], value2, value1[k + |key2|..], middle + key2, tail);
    Regroup(head + value1[..k] + value2, value1[k + |key2|..], middle, key2, tail);
    Assoc(head + value1[..k] + value2 + value1[k + |key2|..], middle + key2, tail);
    Assoc(head + value1[..k] + value2 + value1[k + |key2|..], middle, key2);
  }

  lemma Regroup7(a: string, b: string, c: string, d: string, e: string, f: string, g: string)
    ensures a + b + c + d + e + f + g == a + b + (c + d + e + f + g)
  {
  }

  /** The first two of a three-placeholder template's placeholders land where the
      template has them, when the first value does not hold the second placeholder. */
  lemma FillFirstTwoOfThree(head: string, key1: string, middle1: string, key2: string, middle2: string, key3: string,
                            tail: string, value1: string, value2: string)
    requires Placeholder(key1) && Placeholder(key2)
    requires '{' !in head && '{' !in middle1 && middle1 != [] && middle1[0] == '\n'
    requires Clean(value1, key2)
    ensures ReplaceFirst(ReplaceFirst(head + key1 + middle1 + key2 + middle2 + key3 + tail, key1, value1), key2, value2)
         == head + value1 + middle1 + value2 + middle2 + key3 + tail
  {
    var post1 := middle1 + key2 + middle2 + key3 + tail;
    Regroup7(head, key1, middle1, key2, middle2, key3, tail);
    Regroup7(head, value1, middle1, key2, middle2, key3, tail);
    FillPlaceholder(head, key1, post1, value1);
    Regroup(head + value1 + middle1, key2, middle2, key3, tail);
    CleanAfterPrefix(head, value1, key2);
    FillAfterClean(head + value1, middle1, key2, middle2 + key3 + tail, value2);
    Regroup(head + value1 + middle1, value2, middle2, key3, tail);
  }

  /** Sequential replacement in a template with three placeholders: when no value holds a
      later placeholder, each value lands at its own placeholder. */
  lemma FillThree(head: string, key1: string, middle1: string, key2: string, middle2: string, key3: string, tail: string,
                  value1: string, value2: string, value3: string)
    requires Placeholder(key1) && Placeholder(key2) && Placeholder(key3)
    requires '{' !in head && '{' !in middle1 && '{' !in middle2
    requires middle1 != [] && middle1[0] == '\n' && middle2 != [] && middle2[0] == '\n'
    requires Clean(value1, key2) && Clean(value1, key3) && Clean(value2, key3)
    ensures ReplaceFirst(ReplaceFirst(ReplaceFirst(head + key1 + middle1 + key2 + middle2 + key3 + tail,
              key1, value1), key2, value2), key3, value3)
         == head + value1 + middle1 + value2 + middle2 + value3 + tail
  {
    FillFirstTwoOfThree(head, key1, middle1, key2, middle2, key3, tail, value1, value2);
    CleanAfterPrefix(head, value1, key3);
    CleanAfterPrefix(middle1, value2, key3);
    CleanFenced(head + value1, middle1 + value2, key3);
    Assoc(head + value1, middle1, value2);
    FillAfterClean(head + value1 + middle1 + value2, middle2, key3, tail, value3);
  }

  /** Sequential replacement in a template with three placeholders: when the first value
      holds the third placeholder (and not the second), the third value replaces the first
      occurrence inside the first value, and the template's own third placeholder survives. */
  lemma CaptureThree(head: string, key1: string, middle1: string, key2: string, middle2: string, key3: string, tail: string,
                     value1: string, value2: string, value3: string, k: int)
    requires Placeholder(key1) && Placeholder(key2) && Placeholder(key3)
    requires '{' !in head && '{' !in middle1 && middle1 != [] && middle1[0] == '\n'
    requires Clean(value1, key2) && FirstOccurrence(value1, key3, k)
    ensures ReplaceFirst(ReplaceFirst(ReplaceFirst(head + key1 + middle1 + key2 + middle2 + key3 + tail,
              key1, value1), key2, value2), key3, value3)
         == head + value1[..k] + value3 + value1[k + |key3|..] + middle1 + value2 + middle2 + key3 + tail
  {
    FillFirstTwoOfThree(head, key1, middle1, key2, middle2, key3, tail, value1, value2);
    var post := middle1 + value2 + middle2 + key3 + tail;
    Regroup7(head, value1, middle1, value2, middle2, key3, tail);
    FillInside(head, value1, key3, post, value3, k);
    var x := head + value1[..k] + value3;
    Assoc(x, value1[k + |key3|..], post);
    Regroup7(x, value1[k + |key3|..], middle1, value2, middle2, key3, tail);
  }

  /** The first two replacements of a three-placeholder template, when the first value
      holds the second placeholder: the second value lands inside the first. */
  lemma SecondInsideFirst(head: string, key1: string, middle1: string, key2: string, rest: string,
                          value1: string, value2: string, k: int)
    requires Placeholder(key1) && Placeholder(key2) && '{' !in head
    requires FirstOccurrence(value1, key2, k)
    ensures ReplaceFirst(ReplaceFirst(head + key1 + (middle1 + key2 + rest), key1, value1), key2, value2)
         == head + (value1[..k] + value2 + value1[k + |key2|..]) + (middle1 + key2 + rest)
  {
    var post1 := middle1 + key2 + rest;
    FillPlaceholder(head, key1, post1, value1);
    FillInside(head, value1, key2, post1, value2, k);
  }

  /** Sequential replacement in a template with three placeholders: when the first value
      holds the second placeholder, the second value replaces the first occurrence inside
      the first value, and the template's own second placeholder survives. */
  lemma CaptureSecondOfThree(head: string, key1: string, middle1: string, key2: string, middle2: string, key3: string,
                             tail: string, value1: string, value2: string, value3: string, k: int)
    requires Placeholder(key1) && Placeholder(key2) && Placeholder(key3) && Clean(key2, key3)
    requires '{' !in head && '{' !in middle1 && '{' !in middle2
    requires middle1 != [] && middle1[0] == '\n' && middle2 != [] && middle2[0] == '\n'
    requires FirstOccurrence(value1, key2, k)
    requires Clean(value1[..k] + value2 + value1[k + |key2|..], key3)
    ensures ReplaceFirst(ReplaceFirst(ReplaceFirst(head + key1 + middle1 + key2 + middle2 + key3 + tail,
              key1, value1), key2, value2), key3, value3)
         == head + (value1[..k] + value2 + value1[k + |key2|..]) + middle1 + key2 + middle2 + value3 + tail
  {
    var rest := middle2 + key3 + tail;
    var w := value1[..k] + value2 + value1[k + |key2|..];
    var pre := head + w + middle1 + key2;
    Regroup7(head, key1, middle1, key2, middle2, key3, tail);
    Regroup(middle1, key2, middle2, key3, tail);
    SecondInsideFirst(head, key1, middle1, key2, rest, value1, value2, k);
    Regroup7(head, w, middle1, key2, middle2, key3, tail);
    CleanAfterPrefix(middle1, key2, key3);
    CleanFenced(w, middle1 + key2, key3);
    CleanAfterPrefix(head, w + (middle1 + key2), key3);
    Assoc(head, w, middle1 + key2);
    Assoc(head + w, middle1, key2);
    assert Clean(pre, key3);
    FillAfterClean(pre, middle2, key3, tail, value3);
  }

  /** Sequential replacement in a template with three placeholders: when the second value
      holds the third placeholder (and the first value no later placeholder), the third
      value replaces the first occurrence inside the second value, and the template's own
      third placeholder survives. */
  lemma CaptureThirdInSecond(head: string, key1: string, middle1: string, key2: string, middle2: string, key3: string,
                             tail: string, value1: string, value2: string, value3: string, k: int)
    requires Placeholder(key1) && Placeholder(key2) && Placeholder(key3)
    requires '{' !in head && '{' !in middle1 && middle1 != [] && middle1[0] == '\n'
    requires Clean(value1, key2) && Clean(value1, key3) && FirstOccurrence(value2, key3, k)
    ensures ReplaceFirst(ReplaceFirst(ReplaceFirst(head + key1 + middle1 + key2 + middle2 + key3 + tail,
              key1, value1), key2, value2), key3, value3)
         == head + value1 + middle1 + value2[..k] + value3 + value2[k + |key3|..] + middle2 + key3 + tail
  {
    var n := |key3|;
    var a := head + value1 + middle1;
    var x, y := value2[..k], value2[k + n..];
    var r2 := middle2 + key3 + tail;
    var t2 := ReplaceFirst(ReplaceFirst(head + key1 + middle1 + key2 + middle2 + key3 + tail, key1, value1), key2, value2);
    FillFirstTwoOfThree(head, key1, middle1, key2, middle2, key3, tail, value1, value2);
    CleanUpToInside(head, value1, middle1, value2, key3, k);
    SpliceAround(a, value2, key3, middle2, tail, k);
    ReplaceAtEq(t2, a + x, key3, y + r2, value3);
    Assoc(a + x + value3, y, r2);
    Regroup(a + x + value3, y, middle2, key3, tail);
  }

  /** Nothing in front of the first occurrence of a pattern inside `value`, behind a
      clean head, a head without its first character and a fence, holds the pattern. */
  lemma CleanUpToInside(head: string, value1: string, middle1: string, value: string, key: string, k: int)
    requires Placeholder(key) && '{' !in head && '{' !in middle1 && middle1 != [] && middle1[0] == '\n'
    requires Clean(value1, key) && FirstOccurrence(value, key, k)
    ensures Clean(head + value1 + middle1 + value[..k] + key[..|key| - 1], key)
  {
    var n := |key|;
    var z := value[..k + n - 1];
    CleanBeforeFirst(value, key, k);
    CleanAfterPrefix(middle1, z, key);
    CleanAfterPrefix(head, value1, key);
    CleanFenced(head + value1, middle1 + z, key);
    Assoc(head + value1, middle1, z);
    Assoc(head + value1 + middle1, value[..k], key[..n - 1]);
  }

  /** Cutting the template text after two replacements at the occurrence inside `value`. */
  lemma SpliceAround(a: string, value: string, key: string, middle2: string, tail: string, k: int)
    requires OccursAt(value, key, k)
    ensures a + value + middle2 + key + tail == a + value[..k] + key + (value[k + |key|..] + (middle2 + key + tail))
  {
    SplitAt(value, key, k);
    Regroup(a, value, middle2, key, tail);
    Splice(a, value[..k], key, value[k + |key|..], middle2 + key + tail);
  }

  /** `ReplaceAt`, for a text known to be cut that way. */
  lemma ReplaceAtEq(text: string, a: string, pattern: string, post: string, replacement: string)
    requires |pattern| > 0 && text == a + pattern + post
    requires Clean(a + pattern[..|pattern| - 1], pattern)
    ensures ReplaceFirst(text, pattern, replacement) == a + replacement + post
  {
    ReplaceAt(a, pattern, post, replacement);
  }

  lemma Splice(a: string, x: string, key: string, y: string, r: string)
    ensures a + (x + key + y) + r == a + x + key + (y + r)
  {
  }


  /** The decimal digits of a natural number, most significant first, as
      JavaScript renders a non-negative integer. */
  function NatToDecimal(n: nat): (r: string)
    ensures |r| > 0 && forall i | 0 <= i < |r| :: '0' <= r[i] <= '9'
    ensures |r| > 1 ==> r[0] != '0'
  {
    if n < 10 then [Digit(n)] else NatToDecimal(n / 10) + [Digit(n % 10)]
  }

  function Digit(d: nat): (c: char)
    requires d < 10
    ensures '0' <= c <= '9' && (c as int) - ('0' as int) == d
  {
    (('0' as int) + d) as char
  }

  /** The value of a string of decimal digits. */
  function DecimalValue(s: string): (n: nat)
    requires forall i | 0 <= i < |s| :: '0' <= s[i] <= '9'
  {
    if s == [] then 0 else 10 * DecimalValue(s[..|s| - 1]) + ((s[|s| - 1] as int) - ('0' as int))
  }

  /** Reading the digits back gives the number. */
  lemma {:induction false} DecimalRoundTrip(n: nat)
    ensures DecimalValue(NatToDecimal(n)) == n
  {
    if n >= 10 {
      DecimalRoundTrip(n / 10);
      var s := NatToDecimal(n);
      assert s[..|s| - 1] == NatToDecimal(n / 10);
    }
  }

  /** `${n}` for an integer `n`. */
  function IntToString(n: int): (r: string)
    ensures n < 0 <==> (|r| > 0 && r[0] == '-')
  {
    if n < 0 then "-" + NatToDecimal(-n) else NatToDecimal(n)
  }

  /** Different integers render differently. */
  lemma IntToStringInjective(a: int, b: int)
    requires IntToString(a) == IntToString(b)
    ensures a == b
  {
    if a < 0 {
      assert IntToString(a)[1..] == NatToDecimal(-a);
      assert IntToString(b)[1..] == NatToDecimal(-b);
      DecimalRoundTrip(-a);
      DecimalRoundTrip(-b);
    } else {
      DecimalRoundTrip(a);
      DecimalRoundTrip(b);
    }
  }

  /** The part between a known prefix and suffix can be read back. */
  lemma MiddleOf(p: string, x: string, q: string)
    ensures (p + x + q)[|p|..|p| + |x|] == x
  {
  }

  /** Putting `x` in front of a known tail is inserting it at the tail's start. */
  lemma InsertBeforeTail(head: string, x: string, tail: string)
    ensures var w := head + "" + tail;
            0 <= |w| - |tail| && head + x + tail == w[..|w| - |tail|] + x + w[|w| - |tail|..]
  {
    var w := head + "" + tail;
    assert w[..|w| - |tail|] == head && w[|w| - |tail|..] == tail;
  }

  /** A text ends with its last part. */
  lemma OccursAtEnd(p: string, x: string)
    ensures OccursAt(p + x, x, |p|)
  {
    assert (p + x)[|p|..|p| + |x|] == x;
  }

  /** An occurrence survives appending. */
  lemma OccursExtend(t: string, u: string, x: string, k: int)
    requires OccursAt(t, x, k)
    ensures OccursAt(t + u, x, k)
  {
    assert (t + u)[k..k + |x|] == t[k..k + |x|];
  }

  /** In a concatenation of nine parts, the even-numbered parts occur where the parts
      before them end. */
  lemma OccursInNine(a1: string, a2: string, a3: string, a4: string, a5: string, a6: string, a7: string, a8: string,
                     a9: string)
    ensures var s := a1 + a2 + a3 + a4 + a5 + a6 + a7 + a8 + a9;
            OccursAt(s, a2, |a1|)
            && OccursAt(s, a4, |a1| + |a2| + |a3|)
            && OccursAt(s, a6, |a1| + |a2| + |a3| + |a4| + |a5|)
            && OccursAt(s, a8, |a1| + |a2| + |a3| + |a4| + |a5| + |a6| + |a7|)
  {
    var s2 := a1 + a2;
    var s4 := s2 + a3 + a4;
    var s6 := s4 + a5 + a6;
    var s8 := s6 + a7 + a8;
    OccursAtEnd(a1, a2);
    OccursAtEnd(s2 + a3, a4);
    OccursAtEnd(s4 + a5, a6);
    OccursAtEnd(s6 + a7, a8);
    OccursExtend(s2, a3, a2, |a1|);
    OccursExtend(s2 + a3, a4, a2, |a1|);
    OccursExtend(s4, a5, a2, |a1|);
    OccursExtend(s4, a5, a4, |s2 + a3|);
    OccursExtend(s4 + a5, a6, a2, |a1|);
    OccursExtend(s4 + a5, a6, a4, |s2 + a3|);
    OccursExtend(s6, a7, a2, |a1|);
    OccursExtend(s6, a7, a4, |s2 + a3|);
    OccursExtend(s6, a7, a6, |s4 + a5|);
    OccursExtend(s6 + a7, a8, a2, |a1|);
    OccursExtend(s6 + a7, a8, a4, |s2 + a3|);
    OccursExtend(s6 + a7, a8, a6, |s4 + a5|);
    OccursExtend(s8, a9, a2, |a1|);
    OccursExtend(s8, a9, a4, |s2 + a3|);
    OccursExtend(s8, a9, a6, |s4 + a5|);
    OccursExtend(s8, a9, a8, |s6 + a7|);
  }
}
