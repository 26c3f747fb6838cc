/**
 * The birthday picker's date arithmetic over calendar components: the birth date an age stands for, the
 * age a birth date stands for, the age stepper and the range of selectable dates. "Today" is a parameter.
 */
module Birthday {

  /** A calendar day by its components. */
  datatype Date = Date(year: int, month: int, day: int)

  /** `(a.month, a.day)` comes strictly before `(b.month, b.day)` within a year. */
  predicate DayBefore(a: Date, b: Date) {
    a.month < b.month || (a.month == b.month && a.day < b.day)
  }

  /** `a` is no later than `b`, comparing year, month and day in that order. */
  predicate NotAfter(a: Date, b: Date) {
    a.year < b.year || (a.year == b.year && !DayBefore(b, a))
  }

  /**
   * `calculateBirthday(referenceDate:age:)`: the reference date's month and day, in the year that makes
   * the person `age` years old today: one year earlier when that day has not yet come round this year.
   */
  function CalculateBirthday(referenceDate: Date, age: int, today: Date): (r: Date)
    ensures r.month == referenceDate.month && r.day == referenceDate.day
    ensures r.year == today.year - age || r.year == today.year - age - 1
    ensures r.year == today.year - age - 1 <==> DayBefore(today, referenceDate)
  {
    var birthYear := today.year - age;
    var birthYear := if DayBefore(today, referenceDate) then birthYear - 1 else birthYear;
    Date(birthYear, referenceDate.month, referenceDate.day)
  }

  /**
   * `ageFromBirthday(_:)`: the whole years from the birthday to today, as `dateComponents([.year], ...)`
   * counts them. For a birthday in the past that is the difference of the years, less one while this
   * year's birthday is still ahead; for a birthday in the future the whole years to it, negated, so the
   * count rounds toward zero in both directions.
   */
  function AgeFromBirthday(birthday: Date, today: Date): (r: int)
    ensures NotAfter(birthday, today) ==>
              0 <= r && (r == today.year - birthday.year || r == today.year - birthday.year - 1) &&
              (r == today.year - birthday.year <==> !DayBefore(today, birthday))
    ensures !NotAfter(birthday, today) ==>
              r <= 0 && (r == today.year - birthday.year || r == today.year - birthday.year + 1) &&
              (r == today.year - birthday.year + 1 <==> DayBefore(birthday, today))
  {
    if NotAfter(birthday, today) then
      if DayBefore(today, birthday) then today.year - birthday.year - 1 else today.year - birthday.year
    else
      -(if DayBefore(birthday, today) then birthday.year - today.year - 1 else birthday.year - today.year)
  }

  /** Counting from a later date back to an earlier one gives the same whole years, negated. */
  lemma AgeAntisymmetric(a: Date, b: Date)
    ensures AgeFromBirthday(a, b) == -AgeFromBirthday(b, a)
  {
  }

  /** A birthday in the future that is less than a year ahead counts as age 0, as truncation gives. */
  lemma FutureBirthdayWithinAYearIsZero()
    ensures AgeFromBirthday(Date(2027, 3, 1), Date(2026, 10, 15)) == 0
    ensures AgeFromBirthday(Date(2027, 11, 1), Date(2026, 10, 15)) == -1
  {
  }

  /**
   * Setting the age moves the date to a birthday of exactly that age, so the date's own `onChange`, which
   * recomputes the age, gives the same age back and the two handlers settle. The stepper only offers
   * ages from 0 up.
   */
  lemma AgeRoundTrip(referenceDate: Date, age: int, today: Date)
    requires MinAge <= age
    ensures AgeFromBirthday(CalculateBirthday(referenceDate, age, today), today) == age
  {
  }

  /**
   * Recomputing the birthday for the age a date already has keeps the date; the picker only offers
   * dates up to today.
   */
  lemma BirthdayRoundTrip(birthday: Date, today: Date)
    requires NotAfter(birthday, today)
    ensures CalculateBirthday(birthday, AgeFromBirthday(birthday, today), today) == birthday
  {
  }

  /** The stepper's bounds and step. */
  const MinAge: int := 0
  const MaxAge: int := 130

  /** The stepper's "+" button, disabled at the top of the range. */
  function StepUp(age: int): (r: int)
    requires MinAge <= age <= MaxAge
    ensures MinAge <= r <= MaxAge
    ensures age < MaxAge <==> r == age + 1
  {
    if age < MaxAge then age + 1 else age
  }

  /** The stepper's "-" button, disabled at the bottom of the range. */
  function StepDown(age: int): (r: int)
    requires MinAge <= age <= MaxAge
    ensures MinAge <= r <= MaxAge
    ensures age > MinAge <==> r == age - 1
  {
    if age > MinAge then age - 1 else age
  }

  /** `dateRange`: from the first of January 1920 through today. */
  const RangeStart: Date := Date(1920, 1, 1)

  predicate InDateRange(d: Date, today: Date) {
    NotAfter(RangeStart, d) && NotAfter(d, today)
  }

  /** A birthday computed for a stepper age never lies in the future. */
  lemma BirthdayNotInFuture(referenceDate: Date, age: int, today: Date)
    requires MinAge <= age <= MaxAge
    ensures NotAfter(CalculateBirthday(referenceDate, age, today), today)
  {
  }

  /**
   * Younger ages stay inside the range: an age of at most `today.year - 1921` gives a birthday no earlier
   * than 1920 and no later than today.
   */
  lemma YoungAgesStayInDateRange(referenceDate: Date, age: int, today: Date)
    requires 1 <= referenceDate.month && 1 <= referenceDate.day
    requires MinAge <= age <= today.year - 1921
    ensures InDateRange(CalculateBirthday(referenceDate, age, today), today)
  {
  }

  /**
   * The stepper reaches ages whose birthday lies before the start of the selectable range: any age above
   * `today.year - 1920` does.
   */
  lemma OldAgesLeaveDateRange(referenceDate: Date, age: int, today: Date)
    requires today.year - 1920 < age
    ensures !InDateRange(CalculateBirthday(referenceDate, age, today), today)
  {
  }
}
