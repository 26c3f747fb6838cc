/**
 * The Double Metaphone encoder: a reference definition of what `parse(input:)` computes (`Scan`,
 * `Encode`) and the encoder object itself, whose `Parse` loop is proved to compute it.
 *
 * The loop dispatches on the letter under the cursor: a vowel (AEIOUY) goes to the vowel rule, a space
 * is stepped over, each of B ... Z goes to its rule, and any other character (a lower-case letter, a
 * digit, punctuation) runs no rule at all, so the outcome of the previous letter is used again. After
 * the rule, the primary fragment of the pending outcome is appended to the primary code and the
 * alternate fragment (or the primary one when there is none) to the alternate code, and the cursor
 * moves on by the outcome's letter count, on top of any move the rule made itself.
 */
module Metaphone {
  import opened Wrappers
  import opened MetaphoneText
  import opened MetaphoneRules

  /** The encoder fields that `parse` reads and writes besides the cursor. */
  datatype ScanState = ScanState(primary: string, secondary: string, next: Outcome)

  /** A newly constructed encoder: empty codes and the outcome `(nil, nil, 1)`. */
  const Fresh: ScanState := ScanState("", "", Initial)

  predicate InAlphabet(s: string) {
    forall i :: 0 <= i < |s| ==> s[i] in CodeAlphabet
  }

  /** GN, KN, PN, WR or PS: a start whose first letter is not pronounced. */
  predicate SilentStart(w: string, p: int) {
    At(w, p, "GN") || At(w, p, "KN") || At(w, p, "PN") || At(w, p, "WR") || At(w, p, "PS")
  }

  /** `checkWordStart`, run with the cursor at `p`. */
  function WordStart(w: string, p: int, st: ScanState): (r: (int, ScanState))
    ensures r.1.next == st.next
    ensures p <= r.0 <= p + 2
    ensures r.1 == st || (r.1.primary == "S" && r.1.secondary == "S" && LetterIs(w, r.0 - 1, 'X'))
    ensures !SilentStart(w, p) && !LetterIs(w, p, 'X') ==> r == (p, st)
  {
    var q := if SilentStart(w, p) then p + 1 else p;
    if At(w, q, "X") then (q + 1, st.(primary := "S", secondary := "S")) else (q, st)
  }

  /** Appending the pending outcome and moving the cursor, once a rule has produced `r`. */
  function Accumulate(p: int, st: ScanState, r: RuleResult): (s: (int, ScanState))
    requires WellFormed(st.next) && WellFormedResult(r)
    ensures s.0 >= p + 1 && WellFormed(s.1.next)
    ensures s.1.next == if r.next.Some? then r.next.value else st.next
    ensures s.1.next.primary.None? ==> s.1.primary == st.primary && s.1.secondary == st.secondary
    ensures s.1.next.primary.Some? ==>
      s.1.primary == st.primary + s.1.next.primary.value
      && s.1.secondary == st.secondary + s.1.next.alternate.GetOr(s.1.next.primary.value)
  {
    var next := r.next.GetOr(st.next);
    var codes := if next.primary.Some? then
        st.(primary := st.primary + next.primary.value, secondary := st.secondary + next.alternate.GetOr(next.primary.value))
      else st;
    (p + r.extra + next.consumed, codes.(next := next))
  }

  /** One turn of the main loop with the cursor on letter `p`. */
  function Step(w: string, p: int, st: ScanState): (r: (int, ScanState))
    requires 0 <= p < |w| && WellFormed(st.next)
    ensures r.0 > p && WellFormed(r.1.next)
    ensures w[p] == ' ' ==> r == (p + 1, st)
    ensures w[p] != ' ' && r.1.next.primary.None? ==> r.1.primary == st.primary && r.1.secondary == st.secondary
    ensures w[p] != ' ' && r.1.next.primary.Some? ==>
      r.1.primary == st.primary + r.1.next.primary.value
      && r.1.secondary == st.secondary + r.1.next.alternate.GetOr(r.1.next.primary.value)
  {
    if w[p] in Vowels then Accumulate(p, st, RuleResult(Some(VowelOutcome(p)), 0))
    else if w[p] == ' ' then (p + 1, st)
    else Accumulate(p, st, LetterRule(w, p))
  }

  /** The main loop of `parse`, from cursor `p` until the cursor leaves the word. */
  function Scan(w: string, p: int, st: ScanState): (r: ScanState)
    requires 0 <= p && WellFormed(st.next)
    ensures WellFormed(r.next)
    ensures st.primary <= r.primary && st.secondary <= r.secondary
    decreases |w| - p
  {
    if p >= |w| then st
    else
      var (p', st') := Step(w, p, st);
      Scan(w, p', st')
  }

  /** The end of `parse`: an alternate code equal to the primary one is reported as "". */
  function Finish(st: ScanState): (r: (string, string))
    ensures r.0 == st.primary
    ensures r.1 == "" || r.1 == st.secondary
    ensures r.1 == "" <==> st.secondary == st.primary || st.secondary == ""
  {
    (st.primary, if st.primary == st.secondary then "" else st.secondary)
  }

  /** `doubleMetaphone(input:)`: the primary and alternate codes of a word, run on a new encoder. */
  function Encode(w: string): (r: (string, string))
    ensures r.1 == "" || r.1 != r.0
  {
    var (p, st) := WordStart(w, 0, Fresh);
    Finish(Scan(w, p, st))
  }

  /** The encoder object of `DoubleMetaphone`. */
  class DoubleMetaphone {
    var position: int
    var primaryPhone: string
    var secondaryPhone: string
    var next: Outcome
    var word: string

    ghost predicate Valid()
      reads this
    {
      0 <= position && WellFormed(next)
    }

    function State(): ScanState
      reads this
    {
      ScanState(primaryPhone, secondaryPhone, next)
    }

    constructor()
      ensures Valid() && State() == Fresh && position == 0 && word == ""
    {
      position := 0;
      primaryPhone := "";
      secondaryPhone := "";
      next := Initial;
      word := "";
    }

    /** `checkWordStart`: skip a silent first letter, then code an X there as S. */
    method CheckWordStart()
      requires Valid()
      modifies this`position, this`primaryPhone, this`secondaryPhone
      ensures Valid()
      ensures (position, State()) == WordStart(word, old(position), old(State()))
    {
      if At(word, position, "GN") || At(word, position, "KN") || At(word, position, "PN")
        || At(word, position, "WR") || At(word, position, "PS")
      {
        position := position + 1;
      }
      if At(word, position, "X") {
        primaryPhone := "S";
        secondaryPhone := "S";
        position := position + 1;
      }
    }

    /** `processInitialVowels`. */
    method ProcessInitialVowels()
      modifies this`next
      ensures next == VowelOutcome(position)
    {
      next := Outcome(None, None, 1);
      if position == 0 {
        next := Outcome(Some("A"), None, 1);
      }
    }

    /** The call of `processB` ... `processZ` chosen by the letter under the cursor. */
    method ProcessLetter()
      requires 0 <= position < |word|
      modifies this`next, this`position
      ensures next == LetterRule(word, old(position)).next.GetOr(old(next))
      ensures position == old(position) + LetterRule(word, old(position)).extra
    {
      var r := LetterRule(word, position);
      if r.next.Some? {
        next := r.next.value;
      }
      position := position + r.extra;
    }

    /** One turn of the loop in `parse(input:)` with the cursor on a letter of the word. */
    method ParseLetter()
      requires Valid() && position < |word|
      modifies this`position, this`primaryPhone, this`secondaryPhone, this`next
      ensures Valid()
      ensures (position, State()) == Step(word, old(position), old(State()))
    {
      if word[position] in Vowels {
        ProcessInitialVowels();
      } else if word[position] == ' ' {
        position := position + 1;
        return;
      } else {
        ProcessLetter();
      }
      if next.primary.Some? {
        primaryPhone := primaryPhone + next.primary.value;
        secondaryPhone := secondaryPhone + next.alternate.GetOr(next.primary.value);
      }
      position := position + next.consumed;
    }

    /** `parse(input:)`. The codes and the pending outcome are not reset, so they carry over from earlier calls. */
    method Parse(input: string) returns (primary: string, secondary: string)
      requires Valid()
      modifies this
      ensures Valid() && word == input && position >= |input|
      ensures next == Scan(input, WordStart(input, 0, old(State())).0, WordStart(input, 0, old(State())).1).next
      ensures primaryPhone == primary
      ensures (primary, secondary) == Finish(Scan(input, WordStart(input, 0, old(State())).0, WordStart(input, 0, old(State())).1))
      ensures secondaryPhone == secondary
    {
      word := input;
      position := 0;
      CheckWordStart();
      ghost var start := (position, State());
      while position < |word|
        invariant word == input && Valid()
        invariant Scan(word, position, State()) == Scan(input, start.0, start.1)
        decreases |word| - position
      {
        ParseLetter();
      }
      if primaryPhone == secondaryPhone {
        secondaryPhone := "";
      }
      return primaryPhone, secondaryPhone;
    }
  }

  /** `doubleMetaphone(input:)`: parse with a new encoder. */
  method DoubleMetaphoneOf(input: string) returns (primary: string, secondary: string)
    ensures (primary, secondary) == Encode(input)
  {
    var encoder := new DoubleMetaphone();
    primary, secondary := encoder.Parse(input);
  }
}
