/** The display pipes: a phone number in the Indian `+91 xxxxx-xxxxx` form,
    an age from a birth date, and an icon class for a gender. */
module Pipes {
  import opened Common
  import opened Strings
  import opened Models

  // ------------------------------------------------------------------ phone

  /** What a template hands the phone pipe: a string, a number or nothing. */
  datatype PhoneValue = PhoneText(text: string) | PhoneNumber(number: int) | NoPhone

  /** JavaScript falsiness: nothing, the empty string or zero. */
  predicate PhoneFalsy(v: PhoneValue)
  {
    v.NoPhone? || v == PhoneText("") || v == PhoneNumber(0)
  }

  /** `value.toString()`. */
  function PhoneString(v: PhoneValue): (r: string)
    ensures !PhoneFalsy(v) ==> r != ""
  {
    match v
    case PhoneText(s) => s
    case PhoneNumber(n) => IntToString(n)
    case NoPhone => ""
  }

  /** `replace(/\D/g, '')`: the digits of `s`, in order. */
  function Digits(s: string): (r: string)
    ensures AllDigits(r) && |r| <= |s|
  {
    if s == [] then [] else (if IsDigit(s[0]) then [s[0]] else []) + Digits(s[1..])
  }

  lemma {:induction false} DigitsAppend(a: string, b: string)
    ensures Digits(a + b) == Digits(a) + Digits(b)
  {
    if a != [] {
      assert (a + b)[0] == a[0] && (a + b)[1..] == a[1..] + b;
      DigitsAppend(a[1..], b);
      var head := if IsDigit(a[0]) then [a[0]] else [];
      assert Digits(a + b) == head + Digits(a[1..] + b);
      assert Digits(a) == head + Digits(a[1..]);
      assert head + (Digits(a[1..]) + Digits(b)) == (head + Digits(a[1..])) + Digits(b);
    } else {
      assert a + b == b;
    }
  }

  /** A string of digits keeps all of them. */
  lemma {:induction false} DigitsOfDigits(s: string)
    requires AllDigits(s)
    ensures Digits(s) == s
  {
    if s != [] {
      DigitsOfDigits(s[1..]);
    }
  }

  /** `PhonePipe.transform`: '' for a falsy value; a value with exactly ten
      digits becomes `+91 ` and the first five, a dash and the last five;
      anything else is shown as it came, not stripped. */
  function FormatPhone(v: PhoneValue): (r: string)
    ensures PhoneFalsy(v) ==> r == ""
    ensures !PhoneFalsy(v) && |Digits(PhoneString(v))| == 10 ==>
      && |r| == 15 && r[..4] == "+91 " && r[9] == '-'
      && r[4..9] + r[10..] == Digits(PhoneString(v))
      && AllDigits(r[4..9]) && AllDigits(r[10..])
    ensures !PhoneFalsy(v) && |Digits(PhoneString(v))| != 10 ==> r == PhoneString(v)
  {
    if PhoneFalsy(v) then ""
    else
      var phone := Digits(PhoneString(v));
      if |phone| == 10 then
        var r := "+91 " + phone[..5] + "-" + phone[5..];
        assert r[4..9] == phone[..5] && r[10..] == phone[5..];
        r
      else PhoneString(v)
  }

  /** The country code contributes its two digits; the separators none. */
  lemma SeparatorDigits()
    ensures Digits("+91 ") == "91" && Digits("-") == ""
  {
    assert "+91 "[1..] == "91 " && "91 "[1..] == "1 " && "1 "[1..] == " " && " "[1..] == "";
    assert "-"[1..] == "";
  }

  /** The digits of `+91 head-tail` are the country code's, then the number's. */
  lemma {:induction false} DigitsOfLayout(head: string, tail: string)
    requires AllDigits(head) && AllDigits(tail)
    ensures Digits("+91 " + head + "-" + tail) == "91" + head + tail
  {
    SeparatorDigits();
    DigitsOfDigits(head);
    DigitsOfDigits(tail);
    DigitsAppend("+91 ", head);
    DigitsAppend("+91 " + head, "-");
    DigitsAppend("+91 " + head + "-", tail);
  }

  /** A formatted number keeps exactly its ten digits, behind the country code. */
  lemma FormattedDigits(v: PhoneValue)
    requires !PhoneFalsy(v) && |Digits(PhoneString(v))| == 10
    ensures Digits(FormatPhone(v)) == "91" + Digits(PhoneString(v))
  {
    var phone := Digits(PhoneString(v));
    var head, tail := phone[..5], phone[5..];
    assert FormatPhone(v) == "+91 " + head + "-" + tail;
    DigitsOfLayout(head, tail);
    assert head + tail == phone;
  }

  /** Formatting a formatted number again changes nothing: its twelve digits
      are not ten, so it is shown as it is. */
  lemma FormatPhoneIdempotent(v: PhoneValue)
    ensures FormatPhone(PhoneText(FormatPhone(v))) == FormatPhone(v)
  {
    if !PhoneFalsy(v) && |Digits(PhoneString(v))| == 10 {
      FormattedDigits(v);
    }
  }

  // ------------------------------------------------------------------- age

  /** What a template hands the age pipe: a `Date` (None when it is an
      invalid date), a string with what `new Date` makes of it, a number, or
      nothing. Parsing the string is not part of this model. */
  datatype AgeValue =
    | DateValue(date: Option<Day>)
    | TextValue(text: string, parsed: Option<Day>)
    | NumberValue(years: int)
    | NoAge

  /** JavaScript falsiness: nothing, the empty string or zero; a `Date` object is always truthy. */
  predicate AgeFalsy(v: AgeValue)
  {
    v.NoAge? || (v.TextValue? && v.text == "") || v == NumberValue(0)
  }

  /** Whether this year's birthday has come: today's month and day are not
      before the birth month and day. */
  predicate BirthdayReached(birth: Day, today: Day)
  {
    !(today.month < birth.month || (today.month == birth.month && today.dom < birth.dom))
  }

  /** The `k`-th anniversary of a birth date (its month and day in year
      `birth.year + k`) is not after today. */
  predicate AnniversaryPassed(birth: Day, k: int, today: Day)
  {
    var y := birth.year + k;
    y < today.year || (y == today.year && (birth.month < today.month || (birth.month == today.month && birth.dom <= today.dom)))
  }

  /** The year difference, one less while this year's birthday is still to
      come: the number of anniversaries that have passed. */
  function AgeYears(birth: Day, today: Day): (age: int)
    ensures AnniversaryPassed(birth, age, today) && !AnniversaryPassed(birth, age + 1, today)
  {
    var age := today.year - birth.year;
    if BirthdayReached(birth, today) then age else age - 1
  }

  /** On the `k`-th birthday the age is `k`; the day before a birthday in the
      same month it is one less. */
  lemma AgeOnBirthday(birth: Day, k: nat)
    ensures AgeYears(birth, birth.(year := birth.year + k)) == k
    ensures birth.dom > 0 ==> AgeYears(birth, Day(birth.year + k, birth.month, birth.dom - 1)) == k - 1
  {
  }

  /** Dates compared as the calendar orders them. */
  predicate NotLater(a: Day, b: Day)
  {
    a.year < b.year || (a.year == b.year && (a.month < b.month || (a.month == b.month && a.dom <= b.dom)))
  }

  /** The age never goes down as today moves on, and never by more than one
      within the same year. */
  lemma AgeMonotone(birth: Day, t1: Day, t2: Day)
    requires NotLater(t1, t2)
    ensures AgeYears(birth, t1) <= AgeYears(birth, t2)
    ensures t1.year == t2.year ==> AgeYears(birth, t2) <= AgeYears(birth, t1) + 1
  {
  }

  /** The text for a computed age. */
  function AgeText(age: int): (r: string)
    ensures age > 0 ==> r == IntToString(age) + " years"
    ensures r == "Less than a year" <==> age <= 0
  {
    if age > 0 then
      assert (IntToString(age) + " years")[|IntToString(age)|..] == " years";
      IntToString(age) + " years"
    else "Less than a year"
  }

  /** `AgePipe.transform`, with today's date as a parameter. */
  function FormatAge(v: AgeValue, today: Day): (r: string)
    ensures AgeFalsy(v) ==> r == ""
    ensures v.NumberValue? && v.years != 0 ==> r == IntToString(v.years) + " years"
    ensures v.DateValue? && v.date.None? ==> r == ""
    ensures v.TextValue? && v.text != "" && v.parsed.None? ==> r == ""
    ensures v.DateValue? && v.date.Some? ==> r == AgeText(AgeYears(v.date.value, today))
    ensures v.TextValue? && v.text != "" && v.parsed.Some? ==> r == AgeText(AgeYears(v.parsed.value, today))
  {
    if AgeFalsy(v) then ""
    else
      match v
      case NumberValue(n) => IntToString(n) + " years"
      case DateValue(d) => if d.None? then "" else AgeText(AgeYears(d.value, today))
      case TextValue(_, d) => if d.None? then "" else AgeText(AgeYears(d.value, today))
  }

  // ---------------------------------------------------------------- gender

  const UserIcon: string := "pi pi-user"
  const MarsIcon: string := "pi pi-mars"
  const VenusIcon: string := "pi pi-venus"

  /** `GenderIconPipe.transform`: male or m, and female or f, in any case,
      get their symbols; nothing, the empty string and everything else get
      the generic user icon. */
  function GenderIcon(v: Option<string>): (r: string)
    ensures r in {UserIcon, MarsIcon, VenusIcon}
    ensures r == MarsIcon <==> v.Some? && ToLower(v.value) in {"male", "m"}
    ensures r == VenusIcon <==> v.Some? && ToLower(v.value) in {"female", "f"}
  {
    if !Truthy(v) then UserIcon
    else
      var gender := ToLower(v.value);
      if gender == "male" || gender == "m" then MarsIcon
      else if gender == "female" || gender == "f" then VenusIcon
      else if gender == "other" || gender == "o" then UserIcon
      else UserIcon
  }

  /** The icon does not depend on letter case. */
  lemma GenderIconIgnoresCase(s: string)
    ensures GenderIcon(Some(ToUpper(s))) == GenderIcon(Some(s))
    ensures GenderIcon(Some(ToLower(s))) == GenderIcon(Some(s))
  {
    ToLowerOfUpper(s);
    ToLowerIdempotent(s);
  }
}
