/**
 * The per-letter rules of the Double Metaphone encoder (`processB` ... `processZ` and
 * `processInitialVowels`), each a pure function of the word and the cursor.
 *
 * A rule does two things in the encoder: it may overwrite the pending outcome `next` (a primary code
 * fragment, an optional alternate fragment and a count of letters), and it may move the cursor itself.
 * `RuleResult.next == None` means the rule left the previous outcome in place; `extra` is how far the
 * rule itself moved the cursor. The main loop then moves the cursor again by `next.consumed`.
 *
 * The ensures clause of each rule states what the rule actually does when it is called on its own
 * letter, after the branches that can never fire are taken into account.
 */
module MetaphoneRules {
  import opened Wrappers
  import opened MetaphoneText

  /** The pending outcome `next: (String?, String?, Int)`. */
  datatype Outcome = Outcome(primary: Option<string>, alternate: Option<string>, consumed: int)

  datatype RuleResult = RuleResult(next: Option<Outcome>, extra: int)

  /** The outcome the encoder starts with, `(nil, nil, 1)`. */
  const Initial: Outcome := Outcome(None, None, 1)

  /** The letters a code fragment may hold ("0" stands for the TH sound). */
  const CodeAlphabet: set<char> := {'A', 'F', 'H', 'J', 'K', 'L', 'M', 'N', 'P', 'R', 'S', 'T', 'V', 'W', 'X', 'Y', '0'}

  /** The rule sets `next = (p, a, consumed)` and moves the cursor by `extra`. */
  function Fire(p: string, a: string, consumed: int, extra: int): RuleResult {
    RuleResult(Some(Outcome(Some(p), Some(a), consumed)), extra)
  }

  /** The rule leaves `next` alone and moves the cursor by `extra`. */
  function Keep(extra: int): RuleResult {
    RuleResult(None, extra)
  }

  predicate Fragment(s: string) {
    |s| <= 1 && forall i :: 0 <= i < |s| ==> s[i] in CodeAlphabet
  }

  /** An outcome the main loop can use: it consumes at least one letter and carries short codes. */
  predicate WellFormed(o: Outcome) {
    o.consumed >= 1
    && (o.primary.Some? ==> Fragment(o.primary.value))
    && (o.alternate.Some? ==> Fragment(o.alternate.value))
  }

  predicate WellFormedResult(r: RuleResult) {
    r.extra >= 0 && (r.next.Some? ==> WellFormed(r.next.value))
  }

  /** `processInitialVowels`: a vowel is coded "A" at the start of the word and is silent elsewhere. */
  function VowelOutcome(p: int): (o: Outcome)
    ensures WellFormed(o) && o.consumed == 1 && o.alternate.None?
    ensures o.primary.Some? <==> p == 0
  {
    if p == 0 then Outcome(Some("A"), None, 1) else Outcome(None, None, 1)
  }

  /** `processB`: B is coded P; a B followed by H is skipped together with the H unless BH ends the word. */
  function RuleB(w: string, p: int): (r: RuleResult)
    ensures WellFormedResult(r)
    ensures LetterIs(w, p, 'B') ==>
      r == Fire("P", "P", 1, if LetterIs(w, p + 1, 'H') && p != |w| - 2 then 2 else 0)
  {
    var next := if p > 0 && At(w, p, "MB") then Outcome(Some("P"), Some("P"), 2) else Outcome(Some("P"), Some("P"), 1);
    var extra := if At(w, p, "BH") && p != |w| - 2 then 2 else 0;
    RuleResult(Some(next), extra)
  }

  /** `processC`. */
  function RuleC(w: string, p: int): (r: RuleResult)
    ensures WellFormedResult(r)
    ensures LetterIs(w, p, 'C') ==> r.next.Some? && r.next.value.primary == r.next.value.alternate
    ensures LetterIs(w, p, 'C') ==> r.next.value.primary == Some("X") || r.next.value.primary == Some("K")
    ensures LetterIs(w, p, 'C') && LetterIs(w, p + 1, 'H') ==>
      r == Fire(if p == 0 || At(w, p - 1, "S") then "X" else "K", if p == 0 || At(w, p - 1, "S") then "X" else "K", 2, 2)
    ensures LetterIs(w, p, 'C') && !LetterIs(w, p + 1, 'H') && !LetterIs(w, p + 1, 'I') && !LetterIs(w, p + 1, 'C') ==>
      r == Fire("K", "K", 1, 0)
  {
    if WindowIs(w, p, 4, "CIA") then Fire("X", "X", 3, 3)
    else if p == 0 && At(w, p, "CH") then Fire("X", "X", 2, 2)
    else if p > 0 && At(w, p, "CH") && At(w, p - 1, "S") then Fire("X", "X", 2, 2)
    else if At(w, p, "CH") then Fire("K", "K", 2, 2)
    else if At(w, p, "CI") && p < |w| - 2 && LetterIn(w, p + 2, "CSZ") then Fire("X", "X", 2, 2)
    else if p > 0 && At(w, p, "CC") && IsVowelAt(w, p - 1)
      && (p < |w| - 2 && IsVowelAt(w, p + 2) && LetterAt(w, p + 2) != Some('H'))
    then Fire("X", "X", 2, 2)
    else if LetterIs(w, p + 1, 'C') then Fire("K", "K", 2, 0)
    else Fire("K", "K", 1, 0)
  }

  /** `processD`: D is coded J before G and E, Y or I, and T otherwise. */
  function RuleD(w: string, p: int): (r: RuleResult)
    ensures WellFormedResult(r)
    ensures r.next.Some? && r.next.value.primary == r.next.value.alternate
    ensures r.next.value.primary == Some("J") <==> p < |w| - 2 && At(w, p, "DG") && LetterIn(w, p + 2, "EYI")
    ensures r.next.value.primary == Some("J") || r.next.value.primary == Some("T")
  {
    if p < |w| - 2 && At(w, p, "DG") && LetterIn(w, p + 2, "EYI") then Fire("J", "J", 2, 2)
    else if p == |w| - 2 && At(w, p, "DT") then Fire("T", "T", 2, 2)
    else Fire("T", "T", 1, 0)
  }

  /** `processF`: F is coded F, and a doubled F is read as one. */
  function RuleF(w: string, p: int): (r: RuleResult)
    ensures WellFormedResult(r)
    ensures r.next.Some? && r.next.value.primary == Some("F") && r.next.value.alternate == Some("F")
    ensures r.next.value.consumed == 2 <==> At(w, p, "FF")
  {
    if At(w, p, "FF") then Fire("F", "F", 2, 2)
    else Fire("F", "F", 1, 0)
  }

  /** `processG`. */
  function RuleG(w: string, p: int): (r: RuleResult)
    ensures WellFormedResult(r)
    ensures LetterIs(w, p, 'G') ==>
      r == Fire(if LetterIs(w, p + 1, 'H') && p != 0 then "J" else "K", if LetterIs(w, p + 1, 'H') && p != 0 then "J" else "K", 1, 1)
  {
    var q := p + 1;
    if LetterIs(w, p, 'G') && (q == |w| || LetterAt(w, q) != Some('H')) then Fire("K", "K", 1, 1)
    else if At(w, p, "GN") && (IsSuffixAt(w, p, "ED") || IsSuffixAt(w, p, "E") || IsSuffixAt(w, p, "ELY")) then Fire("N", "N", 2, 2)
    else if LetterIs(w, p, 'G') && q != |w| && LetterIs(w, q, 'H') && p != 0 then Fire("J", "J", 1, 1)
    else if LetterIs(w, p, 'G') && q != |w| && LetterIs(w, q, 'H') && q != |w| then Fire("K", "K", 1, 1)
    else if LetterIs(w, p, 'G') && q == |w| && LetterIs(w, q, 'H') then Fire("F", "F", 1, 1)
    else if LetterIs(w, p, 'G') then Fire("K", "K", 1, 1)
    else Keep(0)
  }

  /** `processH`. */
  function RuleH(w: string, p: int): (r: RuleResult)
    ensures WellFormedResult(r)
    ensures LetterIs(w, p, 'H') ==>
      r == if (p == 0 && IsVowelAt(w, p + 1)) || LetterIs(w, p + 1, 'H') then Keep(1) else Fire("H", "H", 1, 1)
  {
    var q := p + 1;
    if p == 0 && IsVowelAt(w, q) then Keep(1)
    else if p == 0 && At(w, p, "CH") then Fire("K", "K", 2, 2)
    else if p != 0 && At(w, p, "CH") && IsVowelAt(w, p) then Fire("K", "K", 2, 2)
    else if At(w, p, "HH") then Keep(1)
    else if At(w, p, "RH") then Fire("R", "R", 2, 2)
    else if LetterIs(w, p, 'H') then Fire("H", "H", 1, 1)
    else Keep(0)
  }

  /** `processJ`: an initial JOSE is coded H, any other J is coded Y. */
  function RuleJ(w: string, p: int): (r: RuleResult)
    ensures WellFormedResult(r)
    ensures LetterIs(w, p, 'J') ==>
      r == if p == 0 && At(w, p, "JOSE") then Fire("H", "H", 4, 4) else Fire("Y", "Y", 1, 1)
  {
    if p == 0 && At(w, p, "JOSE") then Fire("H", "H", 4, 4)
    else if LetterIs(w, p, 'J') then Fire("Y", "Y", 1, 1)
    else Keep(0)
  }

  /** `processK`. */
  function RuleK(w: string, p: int): (r: RuleResult)
    ensures WellFormedResult(r)
    ensures LetterIs(w, p, 'K') ==> r == Fire("K", "K", 1, 1)
  {
    if p == 0 && (WindowIs(w, p, 3, "KN") || WindowIs(w, p, 4, "KNB") || WindowIs(w, p, 5, "KNUD")) then Fire("N", "N", 1, 2)
    else if LetterIs(w, p, 'K') then Fire("K", "K", 1, 1)
    else Keep(0)
  }

  /** `processL`. */
  function RuleL(w: string, p: int): (r: RuleResult)
    ensures WellFormedResult(r)
    ensures LetterIs(w, p, 'L') ==> r == Fire("L", "L", 1, 1)
  {
    if LetterIs(w, p, 'L') then Fire("L", "L", 1, 1)
    else if At(w, p, "LAU") && IsVowelAt(w, p + 3 + 1) then Fire("L", "L", 3, 3)
    else if p == 0 && At(w, p, "LEI") then Fire("L", "L", 3, 3)
    else if LetterIs(w, p, 'L') && IsConsonantAt(w, p + 1) then Fire("L", "L", 1, 1)
    else Keep(0)
  }

  /** `processM`. */
  function RuleM(w: string, p: int): (r: RuleResult)
    ensures WellFormedResult(r)
    ensures LetterIs(w, p, 'M') ==> r == Fire("M", "M", 1, 1)
  {
    if LetterIs(w, p, 'M') then Fire("M", "M", 1, 1)
    else if At(w, p, "MN") && p != 0 then Fire("M", "N", 2, 2)
    else if LetterIs(w, p, 'M') && IsVowelAt(w, p + 1) then Fire("M", "M", 1, 1)
    else Keep(0)
  }

  /** `processN`. */
  function RuleN(w: string, p: int): (r: RuleResult)
    ensures WellFormedResult(r)
    ensures LetterIs(w, p, 'N') ==> r == Fire("N", "N", 1, 1)
  {
    if LetterIs(w, p, 'N') then Fire("N", "N", 1, 1)
    else if At(w, p, "NH") && IsAtEnd(w, p) then Fire("N", "N", 2, 2)
    else if At(w, p, "NG") && IsAtEnd(w, p) then Fire("N", "N", 2, 2)
    else if At(w, p, "NN") then Fire("N", "N", 2, 2)
    else if At(w, p, "KN") && LetterIn(w, p + 1, "AOU") then Fire("N", "N", 2, 2)
    else if LetterIs(w, p, 'N') && LetterIs(w, p + 1, 'G') && !IsAtEnd(w, p + 1) then Fire("N", "N", 1, 1)
    else if LetterIs(w, p, 'N') && IsVowelAt(w, p + 1) then Fire("N", "N", 1, 1)
    else Keep(0)
  }

  /** `processP`: PH is coded F, any other P is coded P. */
  function RuleP(w: string, p: int): (r: RuleResult)
    ensures WellFormedResult(r)
    ensures LetterIs(w, p, 'P') ==>
      r == if LetterIs(w, p + 1, 'H') then Fire("F", "F", 2, 2) else Fire("P", "P", 1, 1)
  {
    if At(w, p, "PH") then Fire("F", "F", 2, 2)
    else if LetterIs(w, p, 'P') then
      if LetterIs(w, p + 1, 'H') && IsAtEnd(w, p + 1) then Fire("F", "F", 1, 2) else Fire("P", "P", 1, 1)
    else if At(w, p, "PP") then Fire("P", "P", 2, 2)
    else Keep(0)
  }

  /** `processQ`: Q is coded K; the cursor skips one more letter when the letter two ahead is U. */
  function RuleQ(w: string, p: int): (r: RuleResult)
    ensures WellFormedResult(r)
    ensures LetterIs(w, p, 'Q') ==> r.next == Some(Outcome(Some("K"), Some("K"), 1))
    ensures LetterIs(w, p, 'Q') ==> (r.extra == 2 <==> LetterIs(w, p + 2, 'U'))
    ensures !LetterIs(w, p, 'Q') ==> r == Keep(0)
  {
    if LetterIs(w, p, 'Q') then Fire("K", "K", 1, if LetterIs(w, p + 2, 'U') then 2 else 1)
    else Keep(0)
  }

  /** `processR`: R is coded R unless it ends the word, where it is silent; RR is read as one R. */
  function RuleR(w: string, p: int): (r: RuleResult)
    ensures WellFormedResult(r)
    ensures LetterIs(w, p, 'R') ==>
      r == if IsAtEnd(w, p) then Fire("", "", 1, 1) else Fire("R", "R", 1, if LetterIs(w, p + 1, 'R') then 2 else 1)
  {
    if LetterIs(w, p, 'R') && !IsAtEnd(w, p) then Fire("R", "R", 1, if LetterIs(w, p + 1, 'R') then 2 else 1)
    else if LetterIs(w, p, 'R') && IsAtEnd(w, p) then
      if LetterIs(w, p + 1, 'E') then Fire("R", "", 2, 1) else Fire("", "", 1, 1)
    else Keep(0)
  }

  /** `processS`: S is coded S, or X before I, E or Y (except IO and IA); it has no alternate code. */
  function RuleS(w: string, p: int): (r: RuleResult)
    ensures WellFormedResult(r)
    ensures r.next.Some? && r.next.value.alternate == Some("")
    ensures r.next.value.primary == Some("X") <==>
      LetterIs(w, p, 'S') && !At(w, p + 1, "H") && !At(w, p + 1, "IO") && !At(w, p + 1, "IA")
      && (At(w, p + 1, "I") || At(w, p + 1, "E") || At(w, p + 1, "Y"))
    ensures r.next.value.primary == Some("S") || r.next.value.primary == Some("X")
  {
    FollowedByThree(w, p, 'S', "H", "IO", "IA");
    FollowedByThree(w, p, 'S', "I", "E", "Y");
    if FollowedBy(w, p, 'S', ["H", "IO", "IA"]) then Fire("S", "", 2, 2)
    else if FollowedBy(w, p, 'S', ["I", "E", "Y"]) then Fire("X", "", 2, 2)
    else Fire("S", "", 1, if LetterIs(w, p + 1, 'S') then 2 else 1)
  }

  /** `processT`: TIO, TIA and TCH are coded X, TH is coded 0, a final T is coded T. */
  function RuleT(w: string, p: int): (r: RuleResult)
    ensures WellFormedResult(r)
    ensures LetterIs(w, p, 'T') && At(w, p + 1, "H") ==> r == Fire("0", "", 2, 2)
    ensures LetterIs(w, p, 'T') && (At(w, p + 1, "IO") || At(w, p + 1, "IA") || At(w, p + 1, "CH")) ==> r == Fire("X", "", 3, 3)
    ensures LetterIs(w, p, 'T') && IsAtEnd(w, p) ==> r == Fire("T", "", 1, 1)
    ensures r.next.None? <==>
      FollowedByAny(w, p, 'T') && !At(w, p + 1, "H") && !At(w, p + 1, "IO") && !At(w, p + 1, "IA") && !At(w, p + 1, "CH")
  {
    FollowedByTwo(w, p, 'T', "IO", "IA");
    FollowedByOne(w, p, 'T', "IA");
    FollowedByOne(w, p, 'T', "CH");
    FollowedByOne(w, p, 'T', "H");
    AtHead(w, p + 1, "CH");
    AtHead(w, p + 1, "H");
    if FollowedBy(w, p, 'T', ["IO", "IA"]) then Fire("X", "", 3, 3)
    else if FollowedBy(w, p, 'T', ["IA"]) || FollowedBy(w, p, 'T', ["CH"]) then Fire("X", "", 3, 3)
    else if FollowedBy(w, p, 'T', ["H"]) then Fire("0", "", 2, 2)
    else if FollowedByAny(w, p, 'T') then Keep(1)
    else Fire("T", "", 1, 1)
  }

  /** `processV`: a V with a following letter is coded V (alternate F) and does not move the cursor itself. */
  function RuleV(w: string, p: int): (r: RuleResult)
    ensures WellFormedResult(r)
    ensures LetterIs(w, p, 'V') ==>
      r == if p + 1 < |w| then Fire("V", "F", 1, 0) else Fire("F", "F", 1, 1)
  {
    if FollowedByAny(w, p, 'V') then
      var nextChar := CharAt(w, p + 1);
      if nextChar == "OW" || nextChar == "IA" then Fire("F", "F", 1, 0) else Fire("V", "F", 1, 0)
    else Fire("F", "F", 1, 1)
  }

  /** `processW`: a W before a vowel other than Y is coded F, before anything else W; a final W changes nothing. */
  function RuleW(w: string, p: int): (r: RuleResult)
    ensures WellFormedResult(r)
    ensures LetterIs(w, p, 'W') && p + 1 < |w| ==>
      r == Fire(if w[p + 1] in "AEIOU" then "F" else "W", if w[p + 1] in "AEIOU" then "F" else "W", 1, 1)
    ensures LetterIs(w, p, 'W') && p + 1 >= |w| ==> r == Keep(0)
  {
    if FollowedByAny(w, p, 'W') then
      var nextChar := CharAt(w, p + 1);
      if IsVowelText(nextChar) then Fire("F", "F", 1, 1) else Fire("W", "W", 1, 1)
    else if p == 0 && At(w, p, "WH") then
      var nextChar := CharAt(w, p + 2);
      if IsVowelText(nextChar) then RuleResult(Some(Outcome(Some("W"), Some("W"), 2)), 0) else Keep(0)
    else if At(w, p, "WR") then Fire("R", "R", 2, 2)
    else Keep(0)
  }

  /** `processX`: only an X at the very start is coded (S); elsewhere it is skipped. */
  function RuleX(w: string, p: int): (r: RuleResult)
    ensures WellFormedResult(r)
    ensures r.extra == 1
    ensures r.next.Some? <==> p == 0
  {
    if p == 0 then Fire("S", "S", 1, 1) else Keep(1)
  }

  /** `processZ`: Z is coded S, with alternate S before another Z and X otherwise. */
  function RuleZ(w: string, p: int): (r: RuleResult)
    ensures WellFormedResult(r)
    ensures r.next.Some? && r.next.value.primary == Some("S") && r.extra == 1
    ensures r.next.value.alternate == Some("S") <==> LetterIs(w, p + 1, 'Z')
    ensures r.next.value.consumed == 2 <==> LetterIs(w, p + 1, 'Z')
  {
    var doubled := CharAt(w, p + 1) == "Z";
    Fire("S", if doubled then "S" else "X", if doubled then 2 else 1, 1)
  }

  /** The dispatch of the main loop on a letter that is neither a vowel nor a space. */
  function LetterRule(w: string, p: int): (r: RuleResult)
    requires 0 <= p < |w|
    ensures WellFormedResult(r)
    ensures w[p] !in "BCDFGHJKLMNPQRSTVWXZ" ==> r == Keep(0)
  {
    match w[p]
    case 'B' => RuleB(w, p)
    case 'C' => RuleC(w, p)
    case 'D' => RuleD(w, p)
    case 'F' => RuleF(w, p)
    case 'G' => RuleG(w, p)
    case 'H' => RuleH(w, p)
    case 'J' => RuleJ(w, p)
    case 'K' => RuleK(w, p)
    case 'L' => RuleL(w, p)
    case 'M' => RuleM(w, p)
    case 'N' => RuleN(w, p)
    case 'P' => RuleP(w, p)
    case 'Q' => RuleQ(w, p)
    case 'R' => RuleR(w, p)
    case 'S' => RuleS(w, p)
    case 'T' => RuleT(w, p)
    case 'V' => RuleV(w, p)
    case 'W' => RuleW(w, p)
    case 'X' => RuleX(w, p)
    case 'Z' => RuleZ(w, p)
    case _ => Keep(0)
  }
}
