/**
 * Model of CasaCorretorAPI/Validations/DataNascimentoAttribute.cs: a birth
 * date must parse and give an age of at least 18 years on the current day.
 * Parsing (DateOnly.TryParse) and the clock (DateTime.Today) are parameters.
 */
module DataNascimentoAttribute {
  import opened Wrappers
  import opened Annotations

  const IdadeMinima := 18
  const MensagemFormatoInvalido := "O formato da data de nascimento é inválido."
  const MensagemMenorDeIdade := "O proponente precisa ter mais de 18 anos."

  datatype Date = Date(year: int, month: int, day: int)

  predicate IsLeapYear(y: int) {
    y % 4 == 0 && (y % 100 != 0 || y % 400 == 0)
  }

  function DaysInMonth(y: int, m: int): int {
    if m == 2 then (if IsLeapYear(y) then 29 else 28)
    else if m == 4 || m == 6 || m == 9 || m == 11 then 30
    else 31
  }

  predicate IsCalendarDate(d: Date) {
    1 <= d.year <= 9999 && 1 <= d.month <= 12 && 1 <= d.day <= DaysInMonth(d.year, d.month)
  }

  /** A DateOnly value: a day of the Gregorian calendar in years 1..9999. */
  type DateOnly = d: Date | IsCalendarDate(d) witness Date(1, 1, 1)

  /** a < b in calendar order. */
  predicate Before(a: Date, b: Date) {
    || a.year < b.year
    || (a.year == b.year && (a.month < b.month || (a.month == b.month && a.day < b.day)))
  }

  /** (month, day) of `a` comes after (month, day) of `b` within a year. */
  predicate LaterInYear(a: Date, b: Date) {
    a.month > b.month || (a.month == b.month && a.day > b.day)
  }

  /** DateOnly.AddYears: same month and day, with 29 February becoming 28 February in a common year. */
  function AddYears(d: DateOnly, n: int): (r: DateOnly)
    requires 1 <= d.year + n <= 9999
    ensures r.year == d.year + n && r.month == d.month
    ensures r.day == d.day || (d.month == 2 && d.day == 29 && r.day == 28 && !IsLeapYear(r.year))
  {
    var y := d.year + n;
    if d.month == 2 && d.day == 29 && !IsLeapYear(y) then Date(y, 2, 28) else Date(y, d.month, d.day)
  }

  /** The age as a person counts it: the difference of years, less one before this year's birthday. */
  function CalendarAge(nascimento: Date, hoje: Date): int {
    hoje.year - nascimento.year - (if LaterInYear(nascimento, hoje) then 1 else 0)
  }

  /**
   * The age in whole years, as the attribute computes it with AddYears; it is
   * the calendar age, 29 February included.
   */
  function Idade(nascimento: DateOnly, hoje: DateOnly): (idade: int)
    ensures idade == CalendarAge(nascimento, hoje)
  {
    var idade := hoje.year - nascimento.year;
    ShiftedBackComparison(nascimento, hoje);
    if Before(AddYears(hoje, -idade), nascimento) then idade - 1 else idade
  }

  /**
   * Today moved back to the birth year falls before the birth date exactly
   * when the birthday is later in the year than today.
   */
  lemma ShiftedBackComparison(nascimento: DateOnly, hoje: DateOnly)
    ensures Before(AddYears(hoje, -(hoje.year - nascimento.year)), nascimento) <==> LaterInYear(nascimento, hoje)
  {
    var shifted := AddYears(hoje, -(hoje.year - nascimento.year));
    if shifted.day != hoje.day {
      // hoje is 29 February and nascimento.year is a common year, so
      // nascimento cannot be 29 February: it falls after 28 February exactly
      // when it falls after 29 February.
      assert !IsLeapYear(nascimento.year);
      assert !(nascimento.month == 2 && nascimento.day == 29);
    }
  }

  /**
   * DataNascimentoAttribute.IsValid: a null, non-string or unparseable value
   * gets the format message; a date giving an age under 18 gets the age
   * message; any other date passes.
   */
  function Validate(value: Option<string>, tryParse: string -> Option<DateOnly>, hoje: DateOnly): (r: ValidationResult)
    ensures (value.None? || tryParse(value.value).None?) <==> r == Failure(MensagemFormatoInvalido)
    ensures value.Some? && tryParse(value.value).Some? ==>
      (r == Success <==> CalendarAge(tryParse(value.value).value, hoje) >= IdadeMinima)
    ensures r == Success || r == Failure(MensagemFormatoInvalido) || r == Failure(MensagemMenorDeIdade)
  {
    match value
    case None => Failure(MensagemFormatoInvalido)
    case Some(text) =>
      match tryParse(text)
      case None => Failure(MensagemFormatoInvalido)
      case Some(nascimento) =>
        if Idade(nascimento, hoje) >= IdadeMinima then Success else Failure(MensagemMenorDeIdade)
  }

  /** Age is bounded by the difference of the years. */
  lemma IdadeBounds(nascimento: DateOnly, hoje: DateOnly)
    ensures hoje.year - nascimento.year - 1 <= Idade(nascimento, hoje) <= hoje.year - nascimento.year
  {
  }

  /** On the 18th birthday the age is exactly 18, so the proposer is accepted. */
  lemma EighteenthBirthdayAccepted(nascimento: DateOnly, hoje: DateOnly)
    requires nascimento.year == hoje.year - IdadeMinima
    requires nascimento.month == hoje.month && nascimento.day == hoje.day
    ensures Idade(nascimento, hoje) == IdadeMinima
  {
  }

  /** Any day of the 18th year before the 18th birthday, the age is still 17. */
  lemma DayBeforeEighteenthBirthdayRejected(nascimento: DateOnly, hoje: DateOnly)
    requires nascimento.year == hoje.year - IdadeMinima
    requires LaterInYear(nascimento, hoje)
    ensures Idade(nascimento, hoje) == IdadeMinima - 1
  {
  }

  /** An earlier birth date never gives a smaller age. */
  lemma IdadeAntitone(earlier: DateOnly, later: DateOnly, hoje: DateOnly)
    requires !Before(later, earlier)
    ensures Idade(earlier, hoje) >= Idade(later, hoje)
  {
  }

  /** If a birth date is accepted, so is every earlier one. */
  lemma AcceptanceMonotone(earlier: string, later: string, tryParse: string -> Option<DateOnly>, hoje: DateOnly)
    requires tryParse(earlier).Some? && tryParse(later).Some?
    requires !Before(tryParse(later).value, tryParse(earlier).value)
    requires Validate(Some(later), tryParse, hoje) == Success
    ensures Validate(Some(earlier), tryParse, hoje) == Success
  {
    IdadeAntitone(tryParse(earlier).value, tryParse(later).value, hoje);
  }

  /** A birth date after today gives a negative age and the age message. */
  lemma FutureBirthDateRejected(text: string, tryParse: string -> Option<DateOnly>, hoje: DateOnly)
    requires tryParse(text).Some? && Before(hoje, tryParse(text).value)
    ensures Idade(tryParse(text).value, hoje) < 0
    ensures Validate(Some(text), tryParse, hoje) == Failure(MensagemMenorDeIdade)
  {
  }

  /** With today 2024-06-01: born 2006-06-01 is accepted, born 2006-06-02 is not. */
  lemma ExampleReferenceDate()
    ensures Idade(Date(2006, 6, 1), Date(2024, 6, 1)) == 18
    ensures Idade(Date(2006, 6, 2), Date(2024, 6, 1)) == 17
  {
    EighteenthBirthdayAccepted(Date(2006, 6, 1), Date(2024, 6, 1));
    DayBeforeEighteenthBirthdayRejected(Date(2006, 6, 2), Date(2024, 6, 1));
  }
}
