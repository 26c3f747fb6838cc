/**
 * Letter-level questions the Double Metaphone rules ask about the word being encoded.
 *
 * The encoder reads its word through helpers (`getLetters(range:)`, `getLetter(at:)`, `isVowel(at:)`,
 * `isAtEnd`, `isFollowedBy...`, `characterAt`, `charAt`, `isAt`, `isSuffixAt`) that are given here a
 * bounded meaning: a question about a letter or window that lies outside the word is answered "no",
 * never by a trap. Positions are plain integers; the cursor may run past the end of the word.
 */
module MetaphoneText {
  import opened Wrappers

  const Vowels: string := "AEIOUY"

  /** `getLetters(range: i ..< i + |s|) == s`, with a window reaching outside the word never matching. */
  predicate At(w: string, i: int, s: string) {
    0 <= i && i + |s| <= |w| && w[i..i + |s|] == s
  }

  lemma AtHead(w: string, i: int, s: string)
    ensures At(w, i, s) && |s| > 0 ==> w[i] == s[0]
  {
    if At(w, i, s) && |s| > 0 {
      assert w[i..i + |s|][0] == w[i];
    }
  }

  /**
   * `getLetters(range: i ..< i + width) == s`: a window of `width` letters compared with `s`, which
   * can only match when `s` has exactly `width` letters.
   */
  predicate WindowIs(w: string, i: int, width: nat, s: string) {
    0 <= i && i + width <= |w| && w[i..i + width] == s
  }

  lemma WindowOfOtherWidthNeverMatches(w: string, i: int, width: nat, s: string)
    requires |s| != width
    ensures !WindowIs(w, i, width, s)
  {
  }

  /** `getLetter(at: i)`: the letter at `i`, or none outside the word. */
  function LetterAt(w: string, i: int): (r: Option<char>)
    ensures r.Some? <==> 0 <= i < |w|
    ensures r.Some? ==> r.value == w[i]
  {
    if 0 <= i < |w| then Some(w[i]) else None
  }

  predicate LetterIs(w: string, i: int, c: char) {
    0 <= i < |w| && w[i] == c
  }

  /** `letters.contains(getLetter(at: i))`: a letter at `i` that is one of `letters`. */
  predicate LetterIn(w: string, i: int, letters: string) {
    0 <= i < |w| && w[i] in letters
  }

  /** `isVowel(at: i)`. */
  predicate IsVowelAt(w: string, i: int) {
    LetterIn(w, i, Vowels)
  }

  /** A capital letter that is not a vowel. */
  predicate IsConsonantAt(w: string, i: int) {
    0 <= i < |w| && 'A' <= w[i] <= 'Z' && w[i] !in Vowels
  }

  /** `characterAt(i)` / `charAt(i)`: the letter at `i` as a one-letter string, or "" outside the word. */
  function CharAt(w: string, i: int): (r: string)
    ensures |r| <= 1
    ensures r != "" <==> 0 <= i < |w|
  {
    if 0 <= i < |w| then [w[i]] else ""
  }

  /** `isAtEnd(i)` and `isEndOfWord()`: `i` is the last letter of the word. */
  predicate IsAtEnd(w: string, i: int) {
    i == |w| - 1
  }

  /** `isSuffixAt(i, s)`: the word ends with `s`, and that ending starts at `i` or later. */
  predicate IsSuffixAt(w: string, i: int, s: string) {
    |s| <= |w| && i <= |w| - |s| && w[|w| - |s|..] == s
  }

  /** `word.isFollowedBy(c)`: the letter at `i` is `c` and some letter comes after it. */
  predicate FollowedByAny(w: string, i: int, c: char) {
    LetterIs(w, i, c) && i + 1 < |w|
  }

  /** `word.isFollowedBy(c, followedBy: alts)`: the letter at `i` is `c`, and one of `alts` starts right after it. */
  predicate FollowedBy(w: string, i: int, c: char, alts: seq<string>) {
    LetterIs(w, i, c) && exists k :: 0 <= k < |alts| && At(w, i + 1, alts[k])
  }

  lemma FollowedByOne(w: string, i: int, c: char, a: string)
    ensures FollowedBy(w, i, c, [a]) <==> LetterIs(w, i, c) && At(w, i + 1, a)
  {
    var alts := [a];
    if LetterIs(w, i, c) && At(w, i + 1, a) {
      assert At(w, i + 1, alts[0]);
    }
  }

  lemma FollowedByTwo(w: string, i: int, c: char, a: string, b: string)
    ensures FollowedBy(w, i, c, [a, b]) <==> LetterIs(w, i, c) && (At(w, i + 1, a) || At(w, i + 1, b))
  {
    var alts := [a, b];
    if LetterIs(w, i, c) && At(w, i + 1, a) {
      assert At(w, i + 1, alts[0]);
    }
    if LetterIs(w, i, c) && At(w, i + 1, b) {
      assert At(w, i + 1, alts[1]);
    }
  }

  lemma FollowedByThree(w: string, i: int, c: char, a: string, b: string, d: string)
    ensures FollowedBy(w, i, c, [a, b, d]) <==> LetterIs(w, i, c) && (At(w, i + 1, a) || At(w, i + 1, b) || At(w, i + 1, d))
  {
    var alts := [a, b, d];
    if LetterIs(w, i, c) && At(w, i + 1, a) {
      assert At(w, i + 1, alts[0]);
    }
    if LetterIs(w, i, c) && At(w, i + 1, b) {
      assert At(w, i + 1, alts[1]);
    }
    if LetterIs(w, i, c) && At(w, i + 1, d) {
      assert At(w, i + 1, alts[2]);
    }
  }

  /** `nextChar == "A" || nextChar == "E" || ...`: a one-letter string naming a vowel other than Y. */
  predicate IsVowelText(s: string) {
    s == "A" || s == "E" || s == "I" || s == "O" || s == "U"
  }
}
