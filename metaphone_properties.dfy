/** Properties of the Double Metaphone encoder as the source writes it. */
module MetaphoneProperties {
  import opened Wrappers
  import opened MetaphoneText
  import opened MetaphoneRules
  import opened Metaphone

  /** Each turn of the loop adds at most one letter to each code and moves past at least one letter. */
  lemma {:induction false} ScanBounded(w: string, p: int, st: ScanState)
    requires 0 <= p && WellFormed(st.next)
    requires |st.primary| <= p && |st.primary| <= |w|
    requires |st.secondary| <= p && |st.secondary| <= |w|
    ensures |Scan(w, p, st).primary| <= |w| && |Scan(w, p, st).secondary| <= |w|
    decreases |w| - p
  {
    if p < |w| {
      var (p', st') := Step(w, p, st);
      ScanBounded(w, p', st');
    }
  }

  /** Neither code is longer than the word. */
  lemma EncodeBounded(w: string)
    ensures |Encode(w).0| <= |w| && |Encode(w).1| <= |w|
  {
    var (p, st) := WordStart(w, 0, Fresh);
    ScanBounded(w, p, st);
  }

  lemma InAlphabetAppend(a: string, b: string)
    requires InAlphabet(a) && Fragment(b)
    ensures InAlphabet(a + b)
  {
    assert forall i :: |a| <= i < |a + b| ==> (a + b)[i] == b[i - |a|];
  }

  /** Codes are made only of the letters of the code alphabet. */
  lemma {:induction false} ScanAlphabet(w: string, p: int, st: ScanState)
    requires 0 <= p && WellFormed(st.next)
    requires InAlphabet(st.primary) && InAlphabet(st.secondary)
    ensures InAlphabet(Scan(w, p, st).primary) && InAlphabet(Scan(w, p, st).secondary)
    decreases |w| - p
  {
    if p < |w| {
      var (p', st') := Step(w, p, st);
      if w[p] != ' ' && st'.next.primary.Some? {
        InAlphabetAppend(st.primary, st'.next.primary.value);
        InAlphabetAppend(st.secondary, st'.next.alternate.GetOr(st'.next.primary.value));
      }
      ScanAlphabet(w, p', st');
    }
  }

  lemma EncodeAlphabet(w: string)
    ensures InAlphabet(Encode(w).0) && InAlphabet(Encode(w).1)
  {
    var (p, st) := WordStart(w, 0, Fresh);
    ScanAlphabet(w, p, st);
  }

  /** A word starting with GN, KN, PN, WR or PS is encoded from its second letter on. */
  lemma SilentStartSkipped(w: string)
    requires SilentStart(w, 0)
    ensures Encode(w) == Finish(Scan(w, 1, Fresh))
  {
    AtHead(w, 0, "GN"); AtHead(w, 0, "KN"); AtHead(w, 0, "PN"); AtHead(w, 0, "WR"); AtHead(w, 0, "PS");
    assert w[1..2] == [w[1]];
    assert w[0..2][1] == w[1];
    assert !At(w, 1, "X");
  }

  /** A word starting with X has primary and alternate codes that start with S. */
  lemma InitialXCodedAsS(w: string)
    requires LetterIs(w, 0, 'X')
    ensures Encode(w).0 != "" && Encode(w).0[0] == 'S'
    ensures Encode(w).1 == "" || Encode(w).1[0] == 'S'
  {
    AtHead(w, 0, "GN"); AtHead(w, 0, "KN"); AtHead(w, 0, "PN"); AtHead(w, 0, "WR"); AtHead(w, 0, "PS");
    assert w[0..1] == [w[0]];
    var st := ScanState("S", "S", Initial);
    assert WordStart(w, 0, Fresh) == (1, st);
  }

  predicate NoCapitals(w: string) {
    forall i :: 0 <= i < |w| ==> !('A' <= w[i] <= 'Z')
  }

  /** The encoder does not change the case of its input: a word without capital letters gets no code. */
  lemma {:induction false} ScanWithoutCapitals(w: string, p: int)
    requires NoCapitals(w) && 0 <= p
    ensures Scan(w, p, Fresh) == Fresh
    decreases |w| - p
  {
    if p < |w| {
      assert !('A' <= w[p] <= 'Z');
      if w[p] != ' ' {
        assert w[p] !in Vowels;
        assert w[p] !in "BCDFGHJKLMNPQRSTVWXZ";
        assert LetterRule(w, p) == Keep(0);
        assert Step(w, p, Fresh) == Accumulate(p, Fresh, Keep(0));
      }
      assert Step(w, p, Fresh) == (p + 1, Fresh);
      ScanWithoutCapitals(w, p + 1);
    }
  }

  lemma LowercaseWordHasNoCode(w: string)
    requires NoCapitals(w)
    ensures Encode(w) == ("", "")
  {
    AtHead(w, 0, "GN"); AtHead(w, 0, "KN"); AtHead(w, 0, "PN"); AtHead(w, 0, "WR"); AtHead(w, 0, "PS");
    AtHead(w, 0, "X");
    assert WordStart(w, 0, Fresh) == (0, Fresh);
    ScanWithoutCapitals(w, 0);
  }

  /**
   * PH, TH and FF move the cursor twice: once in the rule and once more by the outcome's count,
   * so the two letters after the group are never looked at.
   */
  lemma TwoLetterGroupsSkipTwoMore(w: string, p: int, st: ScanState)
    requires 0 <= p < |w| && WellFormed(st.next)
    requires At(w, p, "PH") || At(w, p, "TH") || At(w, p, "FF")
    ensures Step(w, p, st).0 == p + 4
    ensures Step(w, p, st).1.primary == st.primary + (if w[p] == 'T' then "0" else "F")
  {
    AtHead(w, p, "PH"); AtHead(w, p, "TH"); AtHead(w, p, "FF");
    assert w[p] !in Vowels && w[p] != ' ';
    if w[p] == 'T' {
      assert w[p..p + 2][1] == w[p + 1];
      assert w[p + 1..p + 2] == [w[p + 1]];
      assert At(w, p + 1, "H");
      assert RuleT(w, p) == Fire("0", "", 2, 2);
      assert LetterRule(w, p) == RuleT(w, p);
      StepOnFire(w, p, st, Outcome(Some("0"), Some(""), 2), 2);
    } else if w[p] == 'P' {
      assert RuleP(w, p) == Fire("F", "F", 2, 2);
      assert LetterRule(w, p) == RuleP(w, p);
      StepOnFire(w, p, st, Outcome(Some("F"), Some("F"), 2), 2);
    } else {
      assert RuleF(w, p) == Fire("F", "F", 2, 2);
      assert LetterRule(w, p) == RuleF(w, p);
      StepOnFire(w, p, st, Outcome(Some("F"), Some("F"), 2), 2);
    }
  }

  /** "CIA" is coded K: the rule meant for it compares a four-letter window with three letters. */
  lemma CiaCodedK(w: string, p: int)
    requires At(w, p, "CIA")
    ensures RuleC(w, p) == Fire("K", "K", 1, 0)
  {
    assert w[p..p + 3][0] == w[p] && w[p..p + 3][1] == w[p + 1] && w[p..p + 3][2] == w[p + 2];
    WindowOfOtherWidthNeverMatches(w, p, 4, "CIA");
  }

  /** The encoder reads the word's start exactly when the first letter is G, K, P, W or X. */
  lemma PlainStart(w: string)
    requires |w| > 0 && w[0] !in "GKPWX"
    ensures WordStart(w, 0, Fresh) == (0, Fresh)
  {
    AtHead(w, 0, "GN"); AtHead(w, 0, "KN"); AtHead(w, 0, "PN"); AtHead(w, 0, "WR"); AtHead(w, 0, "PS");
    AtHead(w, 0, "X");
  }

  /** PHONE: PH is coded F, and the O and N after it are skipped; both codes agree, so the alternate is "". */
  lemma PhoneExample()
    ensures Encode("PHONE") == ("F", "")
  {
    var w := "PHONE";
    AtHead(w, 0, "GN"); AtHead(w, 0, "KN"); AtHead(w, 0, "PN"); AtHead(w, 0, "WR"); AtHead(w, 0, "PS");
    AtHead(w, 0, "X");
    assert WordStart(w, 0, Fresh) == (0, Fresh);
    assert LetterIs(w, 0, 'P') && LetterIs(w, 1, 'H');
    assert LetterRule(w, 0) == Fire("F", "F", 2, 2);
    var st1 := ScanState("F", "F", Outcome(Some("F"), Some("F"), 2));
    StepOnFire(w, 0, Fresh, st1.next, 2);
    assert Fresh.primary + "F" == "F";
    assert Step(w, 0, Fresh) == (4, st1);
    var st2 := st1.(next := Outcome(None, None, 1));
    assert w[4] in Vowels;
    assert Step(w, 4, st1) == (5, st2);
  }

  /** Appending a fragment pair to the codes, as the loop does for an outcome with a primary fragment. */
  function Appended(st: ScanState, o: Outcome): ScanState
    requires o.primary.Some?
  {
    ScanState(st.primary + o.primary.value, st.secondary + o.alternate.GetOr(o.primary.value), o)
  }

  /**
   * K, L, M and N are coded by themselves and move the cursor once in the rule and once in the loop,
   * so the letter right after them is never coded.
   */
  lemma SimpleConsonantSkipsNextLetter(w: string, p: int, st: ScanState)
    requires 0 <= p < |w| && w[p] in "KLMN" && WellFormed(st.next)
    ensures Step(w, p, st) == (p + 2, Appended(st, Outcome(Some([w[p]]), Some([w[p]]), 1)))
  {
    SimpleConsonantRule(w, p);
    StepOnFire(w, p, st, Outcome(Some([w[p]]), Some([w[p]]), 1), 1);
  }

  /** A letter whose rule fires an outcome: the loop appends it and moves past the letters it covers. */
  lemma StepOnFire(w: string, p: int, st: ScanState, o: Outcome, extra: nat)
    requires 0 <= p < |w| && w[p] !in Vowels && w[p] != ' ' && WellFormed(st.next)
    requires o.primary.Some? && LetterRule(w, p) == RuleResult(Some(o), extra)
    ensures Step(w, p, st) == (p + extra + o.consumed, Appended(st, o))
  {
    assert Step(w, p, st) == Accumulate(p, st, RuleResult(Some(o), extra));
    AccumulateFire(p, st, o, extra);
  }

  /** Accumulating a fired outcome appends its fragments and makes it the pending outcome. */
  lemma AccumulateFire(p: int, st: ScanState, o: Outcome, extra: nat)
    requires WellFormed(st.next) && WellFormed(o) && o.primary.Some?
    ensures Accumulate(p, st, RuleResult(Some(o), extra)) == (p + extra + o.consumed, Appended(st, o))
  {
  }

  /** The dispatch on K, L, M or N fires the letter's own code with one letter consumed. */
  lemma SimpleConsonantRule(w: string, p: int)
    requires 0 <= p < |w| && w[p] in "KLMN"
    ensures LetterRule(w, p) == Fire([w[p]], [w[p]], 1, 1)
  {
    assert LetterIs(w, p, w[p]);
    if w[p] == 'K' {
      assert LetterRule(w, p) == RuleK(w, p);
    } else if w[p] == 'L' {
      assert LetterRule(w, p) == RuleL(w, p);
    } else if w[p] == 'M' {
      assert LetterRule(w, p) == RuleM(w, p);
    } else {
      assert LetterRule(w, p) == RuleN(w, p);
    }
  }

  /** A G followed by H, anywhere but at the start, is coded J, and the H is skipped. */
  lemma InnerGhCodedJ(w: string, p: int, st: ScanState)
    requires 0 < p && LetterIs(w, p, 'G') && LetterIs(w, p + 1, 'H') && WellFormed(st.next)
    ensures Step(w, p, st) == (p + 2, Appended(st, Outcome(Some("J"), Some("J"), 1)))
  {
    assert RuleG(w, p) == Fire("J", "J", 1, 1);
    assert LetterRule(w, p) == RuleG(w, p);
    StepOnFire(w, p, st, Outcome(Some("J"), Some("J"), 1), 1);
  }

  /** A final T is coded T in the primary code and nothing in the alternate one, and ends the loop. */
  lemma FinalTCodedT(w: string, p: int, st: ScanState)
    requires 0 <= p && LetterIs(w, p, 'T') && IsAtEnd(w, p) && WellFormed(st.next)
    ensures Step(w, p, st) == (p + 2, Appended(st, Outcome(Some("T"), Some(""), 1)))
    ensures Scan(w, p, st) == Appended(st, Outcome(Some("T"), Some(""), 1))
  {
    assert LetterRule(w, p) == RuleT(w, p);
    var o := Outcome(Some("T"), Some(""), 1);
    StepOnFire(w, p, st, o, 1);
    assert Scan(w, p, st) == Scan(w, p + 2, Appended(st, o));
  }

  lemma KnightCodes()
    ensures Scan("KNIGHT", 1, Fresh) == ScanState("NJT", "NJ", Outcome(Some("T"), Some(""), 1))
  {
    var w := "KNIGHT";
    var st1 := ScanState("N", "N", Outcome(Some("N"), Some("N"), 1));
    var st2 := ScanState("NJ", "NJ", Outcome(Some("J"), Some("J"), 1));
    SimpleConsonantSkipsNextLetter(w, 1, Fresh);
    assert Fresh.primary + "N" == "N";
    InnerGhCodedJ(w, 3, st1);
    FinalTCodedT(w, 5, st2);
  }

  /** KNIGHT: the K is silent, N skips the I, GH after a letter is coded J, and a final T has no alternate. */
  lemma KnightExample()
    ensures Encode("KNIGHT") == ("NJT", "NJ")
  {
    var w := "KNIGHT";
    assert w[0..2] == "KN";
    SilentStartSkipped(w);
    KnightCodes();
  }
}
