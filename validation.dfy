/** The birth-data form: two persons with four fields each, the rule every
    field must satisfy, the message a failing field receives, and the sample
    data the form can be filled with. */
module Validation {
  import opened Outcomes
  import opened TextRules

  datatype Person = A | B
  datatype Slot = Name | BirthDate | BirthTime | BirthPlace
  datatype FieldId = FieldId(person: Person, slot: Slot)

  /** One person's birth data, each field as the user typed it. */
  datatype BirthRecord = BirthRecord(name: string, date: string, time: string, place: string)

  /** A calendar day; dates are compared at start of day. */
  datatype Day = Day(year: int, month: int, day: int)

  /** Date parsing as the host performs it: None when the text is not a date. */
  type DateParser = string -> Option<Day>

  /** Why a field fails validation. */
  datatype Problem = Missing | BadDateFormat | FutureDate | BadTimeFormat

  const AllFields: set<FieldId> := {
    FieldId(A, Name), FieldId(A, BirthDate), FieldId(A, BirthTime), FieldId(A, BirthPlace),
    FieldId(B, Name), FieldId(B, BirthDate), FieldId(B, BirthTime), FieldId(B, BirthPlace)
  }

  lemma AllFieldsComplete(id: FieldId)
    ensures id in AllFields
  {
    assert id == FieldId(id.person, id.slot);
    if id.person == A {
      assert id.slot == Name || id.slot == BirthDate || id.slot == BirthTime || id.slot == BirthPlace;
    } else {
      assert id.slot == Name || id.slot == BirthDate || id.slot == BirthTime || id.slot == BirthPlace;
    }
  }

  function Value(r: BirthRecord, slot: Slot): string {
    match slot
    case Name => r.name
    case BirthDate => r.date
    case BirthTime => r.time
    case BirthPlace => r.place
  }

  /** `r` with one field replaced. */
  function WithValue(r: BirthRecord, slot: Slot, v: string): (r': BirthRecord)
    ensures Value(r', slot) == v
    ensures forall other :: other != slot ==> Value(r', other) == Value(r, other)
  {
    match slot
    case Name => r.(name := v)
    case BirthDate => r.(date := v)
    case BirthTime => r.(time := v)
    case BirthPlace => r.(place := v)
  }

  function ValueAt(a: BirthRecord, b: BirthRecord, id: FieldId): string {
    Value(if id.person == A then a else b, id.slot)
  }

  /** `d` is strictly later than `today`, comparing year, month, day. */
  predicate After(d: Day, today: Day) {
    d.year > today.year
    || (d.year == today.year && d.month > today.month)
    || (d.year == today.year && d.month == today.month && d.day > today.day)
  }

  /** The reference rule for one field: names and places are required; a
      date is required, parses, and is not after today; a time is required
      and is a time of day from 00:00 to 23:59 written HH:MM. */
  ghost predicate Acceptable(slot: Slot, v: string, parse: DateParser, today: Day) {
    match slot
    case Name => v != ""
    case BirthPlace => v != ""
    case BirthDate => v != "" && parse(v).Some? && !After(parse(v).value, today)
    case BirthTime => IsClockTime(v)
  }

  ghost predicate PersonAcceptable(r: BirthRecord, parse: DateParser, today: Day) {
    Acceptable(Name, r.name, parse, today) && Acceptable(BirthDate, r.date, parse, today)
    && Acceptable(BirthTime, r.time, parse, today) && Acceptable(BirthPlace, r.place, parse, today)
  }

  /** A day whose month and day of month are in range. */
  predicate ValidDay(d: Day) {
    1 <= d.month <= 12 && 1 <= d.day <= 31
  }

  /** The minute, on one continuous UTC scale, at which day `d` begins. The
      scale keeps the order of days and puts at least a whole day between
      two of them, which is all the comparison below depends on. */
  function UtcDayStart(d: Day): int {
    (d.year * 372 + d.month * 31 + d.day) * 1440
  }

  /** The future-date test as the code performs it: the typed date is read
      as midnight UTC and compared with midnight of today on the host's
      local clock, which is `offset` minutes ahead of UTC. */
  predicate FutureAsWritten(d: Day, today: Day, offset: int) {
    UtcDayStart(d) > UtcDayStart(today) - offset
  }

  /** On a host ahead of UTC the code reports a birth date of today as
      lying in the future, although it is not after today. */
  lemma TodayRejectedEastOfUtc(today: Day, offset: int)
    requires offset > 0
    ensures FutureAsWritten(today, today, offset)
    ensures !After(today, today)
  {
  }

  /** The day comparison the model uses is the comparison of the two days'
      start instants on one clock, so today itself is accepted and every
      later day is rejected. */
  lemma AfterMatchesInstants(d: Day, today: Day)
    requires ValidDay(d) && ValidDay(today)
    ensures After(d, today) <==> UtcDayStart(d) > UtcDayStart(today)
  {
    var dd := d.year * 372 + d.month * 31 + d.day;
    var tt := today.year * 372 + today.month * 31 + today.day;
    if d.year > today.year {
      assert dd >= (today.year + 1) * 372 + 32;
    } else if d.year < today.year {
      assert tt >= (d.year + 1) * 372 + 32;
    } else if d.month > today.month {
      assert dd >= today.year * 372 + (today.month + 1) * 31 + 1;
    } else if d.month < today.month {
      assert tt >= d.year * 372 + (d.month + 1) * 31 + 1;
    }
  }

  /** Both persons satisfy every field rule. */
  ghost predicate FormAcceptable(a: BirthRecord, b: BirthRecord, parse: DateParser, today: Day) {
    PersonAcceptable(a, parse, today) && PersonAcceptable(b, parse, today)
  }

  /** The checks the form performs on one field, in the order it performs
      them: emptiness first, then the date's parse and the future-date test,
      or the time pattern. */
  function FieldProblem(slot: Slot, v: string, parse: DateParser, today: Day): Option<Problem> {
    if v == "" then Some(Missing)
    else match slot
      case Name => None
      case BirthPlace => None
      case BirthDate =>
        (match parse(v)
         case None => Some(BadDateFormat)
         case Some(d) => if After(d, today) then Some(FutureDate) else None)
      case BirthTime => if MatchesClockPattern(v) then None else Some(BadTimeFormat)
  }

  /** A field passes the form's checks exactly when it satisfies the
      reference rule, and it is reported missing exactly when it is empty. */
  lemma FieldProblemExact(slot: Slot, v: string, parse: DateParser, today: Day)
    ensures FieldProblem(slot, v, parse, today).None? <==> Acceptable(slot, v, parse, today)
    ensures FieldProblem(slot, v, parse, today) == Some(Missing) <==> v == ""
  {
    if slot == BirthTime {
      ClockPatternExact(v);
      if v == "" {
        assert !MatchesClockPattern(v);
      }
    }
  }

  /** The message shown under a failing field. */
  function MessageFor(id: FieldId, p: Problem): string {
    var first := id.person == A;
    match (id.slot, p)
    case (Name, _) => if first then "Ime prve osobe je obavezno." else "Ime druge osobe je obavezno."
    case (BirthPlace, _) =>
      if first then "Mjesto ro\U{0111}enja za prvu osobu je obavezno."
      else "Mjesto ro\U{0111}enja za drugu osobu je obavezno."
    case (BirthDate, Missing) =>
      if first then "Datum ro\U{0111}enja za prvu osobu je obavezan."
      else "Datum ro\U{0111}enja za drugu osobu je obavezan."
    case (BirthDate, FutureDate) =>
      if first then "Datum ro\U{0111}enja ne mo\U{017E}e biti u budu\U{0107}nosti za prvu osobu."
      else "Datum ro\U{0111}enja ne mo\U{017E}e biti u budu\U{0107}nosti za drugu osobu."
    case (BirthDate, _) =>
      if first then "Neispravan format datuma za prvu osobu."
      else "Neispravan format datuma za drugu osobu."
    case (BirthTime, Missing) =>
      if first then "Vrijeme ro\U{0111}enja za prvu osobu je obavezno."
      else "Vrijeme ro\U{0111}enja za drugu osobu je obavezno."
    case (BirthTime, _) =>
      if first then "Neispravan format vremena (HH:MM) za prvu osobu."
      else "Neispravan format vremena (HH:MM) za drugu osobu."
  }

  /** The messages the checks of the fields in `checked` write: each
      failing field of that set with its message, and nothing else. */
  function CheckedFailures(checked: set<FieldId>, a: BirthRecord, b: BirthRecord, parse: DateParser, today: Day): map<FieldId, string> {
    map id | id in checked && FieldProblem(id.slot, ValueAt(a, b, id), parse, today).Some?
      :: MessageFor(id, FieldProblem(id.slot, ValueAt(a, b, id), parse, today).value)
  }

  /** The error slots one validation pass fills: every failing field of
      either person, with its message, and no other field. */
  function FailureMessages(a: BirthRecord, b: BirthRecord, parse: DateParser, today: Day): map<FieldId, string> {
    CheckedFailures(AllFields, a, b, parse, today)
  }

  /** The error slot one field's check fills: its message when it fails. */
  function FieldFailure(a: BirthRecord, b: BirthRecord, id: FieldId, parse: DateParser, today: Day): map<FieldId, string> {
    var problem := FieldProblem(id.slot, ValueAt(a, b, id), parse, today);
    if problem.Some? then map[id := MessageFor(id, problem.value)] else map[]
  }

  /** A field receives a message exactly when it breaks its rule, so the
      pass reports every failing field, not only the first; and the whole
      form is acceptable exactly when no field receives one. */
  lemma FailureMessagesExact(a: BirthRecord, b: BirthRecord, parse: DateParser, today: Day)
    ensures forall id :: id in FailureMessages(a, b, parse, today) <==> !Acceptable(id.slot, ValueAt(a, b, id), parse, today)
    ensures FailureMessages(a, b, parse, today) == map[] <==> FormAcceptable(a, b, parse, today)
  {
    forall id ensures id in FailureMessages(a, b, parse, today) <==> !Acceptable(id.slot, ValueAt(a, b, id), parse, today) {
      AllFieldsComplete(id);
      FieldProblemExact(id.slot, ValueAt(a, b, id), parse, today);
    }
    if !FormAcceptable(a, b, parse, today) {
      var id: FieldId :| id in AllFields && !Acceptable(id.slot, ValueAt(a, b, id), parse, today);
      assert id in FailureMessages(a, b, parse, today);
    } else {
      forall id: FieldId ensures id !in FailureMessages(a, b, parse, today) {
        AllFieldsComplete(id);
      }
    }
  }

  /** Checking a second set of fields after a first writes the messages of
      both sets. */
  lemma CheckBoth(e: map<FieldId, string>, first: set<FieldId>, second: set<FieldId>, a: BirthRecord, b: BirthRecord, parse: DateParser, today: Day)
    ensures e + CheckedFailures(first, a, b, parse, today) + CheckedFailures(second, a, b, parse, today)
         == e + CheckedFailures(first + second, a, b, parse, today)
  {
    var lhs := e + CheckedFailures(first, a, b, parse, today) + CheckedFailures(second, a, b, parse, today);
    var rhs := e + CheckedFailures(first + second, a, b, parse, today);
    forall k ensures (k in lhs <==> k in rhs) && (k in lhs ==> lhs[k] == rhs[k]) {
    }
    assert lhs.Keys == rhs.Keys;
  }

  /** The four fields of one person. */
  function FieldsOf(p: Person): set<FieldId> {
    {FieldId(p, Name), FieldId(p, BirthDate), FieldId(p, BirthTime), FieldId(p, BirthPlace)}
  }

  /** Checking one more field adds that field's failure to the messages
      already written. */
  lemma CheckOneMore(e: map<FieldId, string>, checked: set<FieldId>, id: FieldId, a: BirthRecord, b: BirthRecord, parse: DateParser, today: Day)
    ensures e + CheckedFailures(checked, a, b, parse, today) + FieldFailure(a, b, id, parse, today)
         == e + CheckedFailures(checked + {id}, a, b, parse, today)
  {
    var lhs := e + CheckedFailures(checked, a, b, parse, today) + FieldFailure(a, b, id, parse, today);
    var rhs := e + CheckedFailures(checked + {id}, a, b, parse, today);
    forall k ensures (k in lhs <==> k in rhs) && (k in lhs ==> lhs[k] == rhs[k]) {
    }
    assert lhs.Keys == rhs.Keys;
  }

  /** The form's quick completeness test (every field non-empty). */
  predicate FormFilled(a: BirthRecord, b: BirthRecord) {
    a.name != "" && a.date != "" && a.time != "" && a.place != "" &&
    b.name != "" && b.date != "" && b.time != "" && b.place != ""
  }

  /** A form that passes validation is filled in; the converse fails, for
      example for a time written "9:30". */
  lemma AcceptableIsFilled(a: BirthRecord, b: BirthRecord, parse: DateParser, today: Day)
    ensures FormAcceptable(a, b, parse, today) ==> FormFilled(a, b)
    ensures FormFilled(a, b) && a.time == "9:30" ==> !FormAcceptable(a, b, parse, today)
  {
    if FormAcceptable(a, b, parse, today) {
      FieldProblemExact(BirthTime, a.time, parse, today);
      FieldProblemExact(BirthTime, b.time, parse, today);
    }
    if a.time == "9:30" {
      ClockPatternExact(a.time);
    }
  }

  /** The sample couple the form can be filled with. */
  const SampleA := BirthRecord("Ana Petrovi\U{0107}", "1985-08-15", "14:30", "Zagreb, Hrvatska")
  const SampleB := BirthRecord("Marko Horvat", "1983-01-20", "08:00", "Split, Hrvatska")

  /** The sample data passes validation on any day from its later birth
      date on, provided the host parses the two ISO dates as written. */
  lemma SampleDataAcceptable(parse: DateParser, today: Day)
    requires parse("1985-08-15") == Some(Day(1985, 8, 15))
    requires parse("1983-01-20") == Some(Day(1983, 1, 20))
    requires !After(Day(1985, 8, 15), today)
    ensures FormAcceptable(SampleA, SampleB, parse, today)
    ensures FailureMessages(SampleA, SampleB, parse, today) == map[]
  {
    assert "14:30" == ClockText(14, 30);
    assert "08:00" == ClockText(8, 0);
    FailureMessagesExact(SampleA, SampleB, parse, today);
  }
}
