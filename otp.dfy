/**
 * The one-time-code entry: the field that keeps at most six numeric characters and shows them one per
 * cell, and the view model whose countdown expires the code and which accepts the test code.
 */
module Otp {
  import opened Seqs

  /** `min(max(otpCodeLength, 1), 8)`: the requested length, pulled into 1...8. */
  function ClampLength(n: int): (r: int)
    ensures 1 <= r <= 8
    ensures 1 <= n <= 8 ==> r == n
    ensures n < 1 ==> r == 1
    ensures n > 8 ==> r == 8
  {
    var atLeastOne := if n > 1 then n else 1;
    if atLeastOne < 8 then atLeastOne else 8
  }

  /** The number of characters the field keeps. */
  const MaxDigits: nat := 6

  /**
   * The `onChange` sanitiser: the numeric characters of the new value, in order, cut to six.
   * `isNumber` stands for `Character.isNumber`.
   */
  function Sanitize(s: string, isNumber: char -> bool): (r: string)
    ensures |r| <= MaxDigits
    ensures forall i :: 0 <= i < |r| ==> isNumber(r[i])
    ensures r <= Filter(s, isNumber)
    ensures |r| < MaxDigits ==> r == Filter(s, isNumber)
  {
    var digits := Filter(s, isNumber);
    if |digits| <= MaxDigits then digits else digits[..MaxDigits]
  }

  /** Sanitising a sanitised code changes nothing, so the `onChange` write-back settles at once. */
  lemma SanitizeIdempotent(s: string, isNumber: char -> bool)
    ensures Sanitize(Sanitize(s, isNumber), isNumber) == Sanitize(s, isNumber)
  {
    var r := Sanitize(s, isNumber);
    FilterKeepsAll(r, isNumber);
  }

  /** `otpDigit(at:)`: the character in that cell, or an empty placeholder past the end of the code. */
  function OtpDigit(code: string, index: nat): (r: string)
    ensures |r| <= 1
    ensures r == "" <==> index >= |code|
  {
    if index < |code| then [code[index]] else ""
  }

  /** A cell is highlighted when it is the one the next character goes into. */
  predicate IsSelected(code: string, index: nat) {
    |code| == index
  }

  /** The highlighted cell is the first empty one: empty itself, and after a filled cell or first in the row. */
  lemma SelectedIsFirstEmpty(code: string, index: nat)
    ensures IsSelected(code, index) <==> OtpDigit(code, index) == "" && (index == 0 || OtpDigit(code, index - 1) != "")
  {
  }

  /** What the first `n` cells show, read left to right. */
  function Cells(code: string, n: nat): (r: string)
    ensures |r| <= n
  {
    if n == 0 then "" else Cells(code, n - 1) + OtpDigit(code, n - 1)
  }

  /** A code that fits shows in full across the cells, and the highlighted cell is the first empty one. */
  lemma {:induction false} CellsShowCode(code: string, n: nat)
    requires |code| <= n
    ensures Cells(code, n) == code
    ensures forall i :: 0 <= i < n && IsSelected(code, i) ==>
              (OtpDigit(code, i) == "" && forall j :: 0 <= j < i ==> OtpDigit(code, j) != "")
  {
    if n > 0 {
      if |code| <= n - 1 {
        CellsShowCode(code, n - 1);
      } else {
        CellsPrefix(code, n - 1);
        assert code == code[..n - 1] + [code[n - 1]];
      }
    }
  }

  /** The first `n` cells show the first `n` characters of a longer code. */
  lemma {:induction false} CellsPrefix(code: string, n: nat)
    requires n <= |code|
    ensures Cells(code, n) == code[..n]
  {
    if n > 0 {
      CellsPrefix(code, n - 1);
      assert code[..n] == code[..n - 1] + [code[n - 1]];
    }
  }

  /** `OTPField`: the clamped length it was built with and the code it edits. */
  class OtpField {
    const otpCodeLength: int
    var otpCode: string

    constructor(code: string, requestedLength: int)
      ensures otpCodeLength == ClampLength(requestedLength) && otpCode == code
    {
      otpCodeLength := ClampLength(requestedLength);
      otpCode := code;
    }

    /** The `onChange` handler: the edited value is replaced by its sanitised form. */
    method OnChange(newValue: string, isNumber: char -> bool)
      modifies this
      ensures otpCode == Sanitize(newValue, isNumber)
      ensures Cells(otpCode, MaxDigits) == otpCode
    {
      otpCode := Sanitize(newValue, isNumber);
      CellsShowCode(otpCode, MaxDigits);
    }
  }

  /** The code the view model accepts. */
  const TestOtpValid: string := "123456"

  /** `duration`, in seconds. */
  const Duration: int := 240

  /** `OTPViewModel`. `timerRunning` says whether a repeating one-second timer is scheduled. */
  class OtpViewModel {
    var otpCode: string
    var secondsRemaining: int
    var isExpired: bool
    var timerRunning: bool

    /** The countdown never goes below zero, and the code has expired exactly when it reached zero. */
    predicate Valid()
      reads this
    {
      0 <= secondsRemaining <= Duration &&
      (isExpired <==> secondsRemaining == 0) &&
      (timerRunning ==> secondsRemaining > 0)
    }

    constructor()
      ensures Valid()
      ensures otpCode == "" && secondsRemaining == Duration && !isExpired && timerRunning
    {
      otpCode := "";
      secondsRemaining := Duration;
      isExpired := false;
      timerRunning := true;
    }

    /** One timer firing: count down, and at zero expire and stop. A stopped timer does not fire. */
    method Tick()
      requires Valid()
      modifies this
      ensures Valid()
      ensures old(timerRunning) ==> secondsRemaining == old(secondsRemaining) - 1
      ensures old(timerRunning) ==> (isExpired <==> old(secondsRemaining) == 1) && (timerRunning <==> !isExpired)
      ensures !old(timerRunning) ==> secondsRemaining == old(secondsRemaining) && isExpired == old(isExpired) && !timerRunning
      ensures otpCode == old(otpCode)
    {
      if timerRunning {
        secondsRemaining := secondsRemaining - 1;
        if secondsRemaining == 0 {
          isExpired := true;
          timerRunning := false;
        }
      }
    }

    /** `resendOTPCode()`, through `resetTime()`: a full countdown again, running, not expired. */
    method ResendOtpCode()
      modifies this
      ensures Valid()
      ensures secondsRemaining == Duration && !isExpired && timerRunning && otpCode == old(otpCode)
    {
      secondsRemaining := Duration;
      isExpired := false;
      timerRunning := true;
    }

    /** `isOTPValid()`: true exactly for the test code, which also stops the countdown. */
    method IsOtpValid() returns (r: bool)
      requires Valid()
      modifies this
      ensures Valid()
      ensures r <==> otpCode == TestOtpValid
      ensures r ==> !timerRunning
      ensures !r ==> timerRunning == old(timerRunning)
      ensures otpCode == old(otpCode) && secondsRemaining == old(secondsRemaining) && isExpired == old(isExpired)
    {
      if otpCode == TestOtpValid {
        timerRunning := false;
      }
      r := otpCode == TestOtpValid;
    }
  }

  /**
   * The repeating timer scheduled by `startTimer()`, firing `n` times: from a fresh countdown, 240 firings
   * expire the code, and after any fewer it is still valid.
   */
  method RunTimer(vm: OtpViewModel, n: nat)
    requires vm.Valid() && vm.timerRunning && vm.secondsRemaining == Duration
    modifies vm
    ensures vm.Valid()
    ensures n >= Duration <==> vm.isExpired
    ensures n < Duration ==> vm.secondsRemaining == Duration - n
  {
    var k := 0;
    while k < n
      invariant 0 <= k <= n
      invariant vm.Valid()
      invariant k < Duration ==> vm.timerRunning && vm.secondsRemaining == Duration - k
      invariant k >= Duration ==> vm.isExpired
    {
      vm.Tick();
      k := k + 1;
    }
  }
}
