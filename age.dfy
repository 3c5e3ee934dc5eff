/**
 * Age eligibility of the registration form (src/app/page.tsx): `calculateAge`
 * counts completed years between a birth date and today, and
 * `handleBirthDateChange` classifies that age. Calendar dates are given as
 * (year, month, day) numbers; the month numbering does not matter as long as
 * both dates use the same one, since only differences and comparisons are used.
 */
module Age {

  datatype Date = Date(year: int, month: int, day: int)

  /** Calendar order: by year, then month, then day. */
  predicate DateLe(a: Date, b: Date) {
    a.year < b.year ||
    (a.year == b.year && (a.month < b.month || (a.month == b.month && a.day <= b.day)))
  }

  /** The anniversary of `d` after `k` years (same month and day, no leap-day adjustment). */
  function AddYears(d: Date, k: int): Date {
    Date(d.year + k, d.month, d.day)
  }

  /** `calculateAge`: the year difference, less one when today's birthday has not come yet. */
  function CalculateAge(today: Date, birth: Date): (age: int)
    ensures DateLe(AddYears(birth, age), today)
    ensures !DateLe(AddYears(birth, age + 1), today)
  {
    var years := today.year - birth.year;
    var monthDiff := today.month - birth.month;
    if monthDiff < 0 || (monthDiff == 0 && today.day < birth.day) then years - 1 else years
  }

  /** The completed-years count is the only number with the two properties above. */
  lemma CompletedYearsUnique(today: Date, birth: Date, k: int)
    requires DateLe(AddYears(birth, k), today)
    requires !DateLe(AddYears(birth, k + 1), today)
    ensures k == CalculateAge(today, birth)
  {
  }

  /** Age never decreases as time passes. */
  lemma AgeMonotonic(t1: Date, t2: Date, birth: Date)
    requires DateLe(t1, t2)
    ensures CalculateAge(t1, birth) <= CalculateAge(t2, birth)
  {
  }

  /** The age on the birthday itself, in the year `birth.year + k`, is exactly k. */
  lemma AgeOnBirthday(birth: Date, k: int)
    ensures CalculateAge(AddYears(birth, k), birth) == k
  {
    CompletedYearsUnique(AddYears(birth, k), birth, k);
  }

  /** The message shown next to the birth date, one per classification branch. */
  datatype AgeMessage = NoMessage | BelowMinimum | NotAllowed | GuardianNeeded | AgeAccepted
  {
    /** The text the form displays for this message. */
    function Text(): string {
      match this
      case NoMessage => ""
      case BelowMinimum => "\U{274C} Idade mínima para participação é de 12 anos completos."
      case NotAllowed => "\U{274C} Idade não permitida."
      case GuardianNeeded => "\U{26A0}\U{FE0F} Menor de 18 anos: Será necessária autorização assinada pelo responsável legal no dia do evento."
      case AgeAccepted => "\U{2705} Idade válida para participação."
    }
  }

  /** The `ageValidation` record of the form. */
  datatype AgeValidation = AgeValidation(isValid: bool, age: int, needsAuthorization: bool, message: AgeMessage)

  /** The result for a birth date that has not been entered yet. */
  const Neutral := AgeValidation(true, 0, false, NoMessage)

  /** The four branches of `handleBirthDateChange` for an entered date. */
  function ClassifyAge(age: int): (v: AgeValidation)
    ensures v.age == age
    ensures v.isValid <==> 12 <= age <= 100
    ensures v.needsAuthorization <==> 12 <= age < 18
    ensures v.message == BelowMinimum <==> age < 12
    ensures v.message == NotAllowed <==> age > 100
    ensures v.message == GuardianNeeded <==> 12 <= age < 18
    ensures v.message == AgeAccepted <==> 18 <= age <= 100
  {
    if age < 12 then AgeValidation(false, age, false, BelowMinimum)
    else if age > 100 then AgeValidation(false, age, false, NotAllowed)
    else if age < 18 then AgeValidation(true, age, true, GuardianNeeded)
    else AgeValidation(true, age, false, AgeAccepted)
  }

  /**
   * The validation `handleBirthDateChange` stores for the input `value`,
   * where `birth` is the calendar date `value` names.
   */
  function EvaluateBirthDate(value: string, birth: Date, today: Date): (v: AgeValidation)
    ensures value == "" ==> v == Neutral
    ensures value != "" ==> v == ClassifyAge(CalculateAge(today, birth))
    ensures value != "" ==> (v.isValid <==> 12 <= CalculateAge(today, birth) <= 100)
    ensures value != "" ==> (v.needsAuthorization <==> 12 <= CalculateAge(today, birth) < 18)
  {
    if value != "" then ClassifyAge(CalculateAge(today, birth)) else Neutral
  }

  /** A validation record that one of the branches can produce. */
  predicate Consistent(v: AgeValidation) {
    v == Neutral || v == ClassifyAge(v.age)
  }

  /**
   * Exactly one of "needs authorization", "plainly valid" and "invalid" holds,
   * and the authorization flag implies a valid age in 12..17.
   */
  lemma ClassesExclusive(v: AgeValidation)
    requires Consistent(v)
    ensures v.needsAuthorization ==> v.isValid && 12 <= v.age < 18
    ensures !v.isValid ==> v.age < 12 || v.age > 100
    ensures (if v.needsAuthorization then 1 else 0)
          + (if v.isValid && !v.needsAuthorization then 1 else 0)
          + (if !v.isValid then 1 else 0) == 1
  {
  }

  /** The boundary table: 11 and 101 are refused, 12..17 need a guardian, 18 and 100 pass. */
  lemma AgeBoundaries()
    ensures !ClassifyAge(11).isValid && ClassifyAge(11).message == BelowMinimum
    ensures ClassifyAge(12).isValid && ClassifyAge(12).needsAuthorization
    ensures ClassifyAge(17).isValid && ClassifyAge(17).needsAuthorization
    ensures ClassifyAge(18).isValid && !ClassifyAge(18).needsAuthorization
    ensures ClassifyAge(100).isValid && !ClassifyAge(100).needsAuthorization
    ensures !ClassifyAge(101).isValid && ClassifyAge(101).message == NotAllowed
  {
  }
}
