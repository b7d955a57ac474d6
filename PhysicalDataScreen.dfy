/** The first-run physical-data form: digit-only height and weight, a multiplier picked
    from five options, allergy toggles, the date picker's formatting, the required-field
    guard, and the submit that builds the update-profile request. */
module PhysicalDataForm {
  import opened KotlinText
  import opened Models

  /** The dropdown's options, label and TDEE multiplier; the first is the default. */
  const ActivityOptions: seq<(string, real)> := [
    ("Sedentary (Kantoran)", 1.2),
    ("Lightly Active (1-3x/minggu)", 1.375),
    ("Moderately Active (3-5x/minggu)", 1.55),
    ("Very Active (6-7x/minggu)", 1.725),
    ("Extra Active (Fisik Berat)", 1.9)]

  const AllergyOptions: seq<string> := [
    "gluten-free", "dairy-free", "egg-free", "soy-free",
    "wheat-free", "fish-free", "shellfish-free", "tree-nut-free", "peanut-free"]

  const InitialBirthdate: string := "1998-05-20"

  predicate NoDuplicates<T(==)>(s: seq<T>) {
    forall i, j :: 0 <= i < j < |s| ==> s[i] != s[j]
  }

  /** An allergy chip's click: a selected item is removed, an unselected one appended.
      On a list without duplicates this flips membership of `x` alone. */
  function Toggled(s: seq<string>, x: string): (r: seq<string>)
    ensures x !in s ==> r == s + [x]
    ensures x in s ==> multiset(r) == multiset(s) - multiset{x} && |r| == |s| - 1
    ensures NoDuplicates(s) ==> NoDuplicates(r)
    ensures NoDuplicates(s) ==> (x in r <==> x !in s)
    ensures forall y :: y != x ==> (y in r <==> y in s)
  {
    if x in s then
      RemovalKeepsOthers(s, x);
      RemoveFirst(s, x)
    else
      s + [x]
  }

  /** What removing the first `x` does to membership, length and duplicates. */
  lemma RemovalKeepsOthers(s: seq<string>, x: string)
    requires x in s
    ensures var r := RemoveFirst(s, x);
            |r| == |s| - 1 && (forall y :: y != x ==> (y in r <==> y in s))
            && (NoDuplicates(s) ==> NoDuplicates(r) && x !in r)
  {
    var r := RemoveFirst(s, x);
    assert multiset(r) == multiset(s) - multiset{x};
    assert |multiset(r)| == |multiset(s)| - 1;
    forall y | y != x
      ensures y in r <==> y in s
    {
      assert multiset(r)[y] == multiset(s)[y];
    }
    RemovalNoDuplicates(s, x);
  }

  lemma RemovalNoDuplicates(s: seq<string>, x: string)
    requires x in s
    ensures NoDuplicates(s) ==> NoDuplicates(RemoveFirst(s, x)) && x !in RemoveFirst(s, x)
  {
    var i := IndexOf(s, x).value;
    assert RemoveFirst(s, x) == s[..i] + s[i + 1..];
    RemovedNoDuplicates(s, i);
  }

  /** Dropping one entry from a list without duplicates leaves one without duplicates,
      in which that entry no longer occurs. */
  lemma RemovedNoDuplicates(s: seq<string>, i: nat)
    requires i < |s|
    ensures NoDuplicates(s) ==> NoDuplicates(s[..i] + s[i + 1..]) && s[i] !in s[..i] + s[i + 1..]
  {
    if NoDuplicates(s) {
      var r := s[..i] + s[i + 1..];
      forall a, b | 0 <= a < b < |r| ensures r[a] != r[b] {
        var a' := if a < i then a else a + 1;
        var b' := if b < i then b else b + 1;
        assert r[a] == s[a'] && r[b] == s[b'];
      }
      forall k | 0 <= k < |r| ensures r[k] != s[i] {
        var k' := if k < i then k else k + 1;
        assert r[k] == s[k'];
      }
    }
  }

  /** `toIntOrNull() ?: 0` on a digit-only field: its value, or 0 for an empty field or
      one that overflows an Int. */
  lemma DigitFieldValue(s: string)
    ensures AllDigits(s) ==> IntOrZero(s) == if DecimalValue(s) <= IntMax then DecimalValue(s) else 0
  {
    if AllDigits(s) && s != [] {
      DigitsToIntOrNull(s);
    }
  }

  // ---- The date picker's callback ----

  predicate IsLeapYear(y: int) { y % 4 == 0 && (y % 100 != 0 || y % 400 == 0) }

  /** Days of a month in the Gregorian calendar (month 1..12). */
  function DaysInMonth(year: int, month: int): int {
    if month == 2 then (if IsLeapYear(year) then 29 else 28)
    else if month in {4, 6, 9, 11} then 30
    else 31
  }

  /** The picked date as text: the year, then the 1-based month and the day, each padded
      to two digits with '0', separated by '-'. The picker gives a 0-based month. */
  function FormatBirthdate(year: int, month: int, day: int): (r: string)
    ensures var y := IntToString(year); |r| >= |y| + 6 && r[..|y|] == y && r[|y|] == '-'
  {
    var y := IntToString(year);
    var r := y + "-" + PadStart(IntToString(month + 1), 2, '0') + "-" + PadStart(IntToString(day), 2, '0');
    assert r[..|y|] == y && r[|y|] == '-';
    r
  }

  function TwoDigitValue(a: char, b: char): nat
    requires IsDigit(a) && IsDigit(b)
  {
    10 * DigitValue(a) + DigitValue(b)
  }

  /** A `full-date` of section 5.6 of RFC 3339: `date-fullyear "-" date-month "-" date-mday`,
      four, two and two digits, with the month in 01..12 and the day valid for that month
      and year. */
  predicate IsFullDate(s: string) {
    |s| == 10 && AllDigits(s[..4]) && s[4] == '-' && AllDigits(s[5..7]) && s[7] == '-' && AllDigits(s[8..])
    && 1 <= TwoDigitValue(s[5], s[6]) <= 12
    && 1 <= TwoDigitValue(s[8], s[9]) <= DaysInMonth(DecimalValue(s[..4]), TwoDigitValue(s[5], s[6]))
  }

  /** A two-digit zero-padded rendering of 1..99. */
  lemma PaddedTwoDigits(n: int)
    requires 1 <= n < 100
    ensures var s := PadStart(IntToString(n), 2, '0');
            |s| == 2 && IsDigit(s[0]) && IsDigit(s[1]) && TwoDigitValue(s[0], s[1]) == n
  {
    NatToStringSmall(n);
    var s := PadStart(IntToString(n), 2, '0');
    if n < 10 {
      assert s == ['0', DigitChar(n)];
    } else {
      assert s == [DigitChar(n / 10), DigitChar(n % 10)];
    }
  }

  /** Where the pieces of `year-MM-DD` sit once concatenated. */
  lemma DateLayout(y: string, m: string, d: string)
    requires |y| == 4 && |m| == 2 && |d| == 2
    ensures var s := y + "-" + m + "-" + d;
            |s| == 10 && s[..4] == y && s[4] == '-' && s[5..7] == m && s[7] == '-' && s[8..] == d
            && s[5] == m[0] && s[6] == m[1] && s[8] == d[0] && s[9] == d[1]
  {
  }

  /** A four-digit year renders as four digits with its own value. */
  lemma FourDigitYear(year: int)
    requires 1000 <= year <= 9999
    ensures var y := IntToString(year); |y| == 4 && AllDigits(y) && DecimalValue(y) == year
  {
    NatToStringFourDigits(year);
    NatToStringValue(year);
  }

  /** The digits of the picked date and the values they read back as. */
  lemma FormatBirthdateFields(year: int, month: int, day: int)
    requires 1000 <= year <= 9999 && 0 <= month <= 11 && 1 <= day <= 31
    ensures var s := FormatBirthdate(year, month, day);
            |s| == 10 && s[4] == '-' && s[7] == '-'
            && AllDigits(s[..4]) && AllDigits(s[5..7]) && AllDigits(s[8..])
            && DecimalValue(s[..4]) == year && TwoDigitValue(s[5], s[6]) == month + 1 && TwoDigitValue(s[8], s[9]) == day
  {
    var y := IntToString(year);
    var m := PadStart(IntToString(month + 1), 2, '0');
    var d := PadStart(IntToString(day), 2, '0');
    FourDigitYear(year);
    PaddedTwoDigits(month + 1);
    PaddedTwoDigits(day);
    DateLayout(y, m, d);
    assert FormatBirthdate(year, month, day) == y + "-" + m + "-" + d;
  }

  /** For a four-digit year, a 0-based month and a day valid in that month, the picked
      date is an RFC 3339 full-date (its fields read back as FormatBirthdateFields says). */
  lemma FormatBirthdateIsFullDate(year: int, month: int, day: int)
    requires 1000 <= year <= 9999 && 0 <= month <= 11 && 1 <= day <= DaysInMonth(year, month + 1)
    ensures IsFullDate(FormatBirthdate(year, month, day))
  {
    assert day <= 31;
    FormatBirthdateFields(year, month, day);
    var s := FormatBirthdate(year, month, day);
    FullDateOfFields(s, year, month + 1, day);
  }

  lemma FullDateOfFields(s: string, year: int, month: int, day: int)
    requires |s| == 10 && s[4] == '-' && s[7] == '-'
    requires AllDigits(s[..4]) && AllDigits(s[5..7]) && AllDigits(s[8..])
    requires DecimalValue(s[..4]) == year && TwoDigitValue(s[5], s[6]) == month && TwoDigitValue(s[8], s[9]) == day
    requires 1 <= month <= 12 && 1 <= day <= DaysInMonth(year, month)
    ensures IsFullDate(s)
  {
  }

  // ---- The form ----

  datatype Notice = IncompleteForm | SavedWithStatus | FailedWithCode(code: int) | ServerUnreachable

  datatype SubmitOutcome = Disabled | Rejected(notice: Notice) | Launched

  /** The screen's remembered state; `uid` is the account the form is for. */
  class PhysicalDataForm {
    const uid: string
    var name: string
    var height: string
    var weight: string
    var birthdate: string
    var gender: int
    var isLoading: bool
    var expanded: bool
    var selectedActivityText: string
    var selectedActivityValue: real
    var selectedAllergies: seq<string>

    /** What every handler keeps: the number fields hold only digits, the allergy list
        has no duplicates and only offered items, and the activity is one of the options. */
    ghost predicate Valid()
      reads this
    {
      AllDigits(height) && AllDigits(weight)
      && NoDuplicates(selectedAllergies)
      && (forall a :: a in selectedAllergies ==> a in AllergyOptions)
      && (selectedActivityText, selectedActivityValue) in ActivityOptions
    }

    /** The request the submit sends, from the form as it is. */
    function Request(): (r: PhysicalDataRequest)
      reads this
      ensures Valid() ==> r.height >= 0 && r.weight >= 0
      ensures Valid() ==> (r.height == 0 <==> DecimalValue(height) == 0 || DecimalValue(height) > IntMax)
      ensures Valid() ==> (r.weight == 0 <==> DecimalValue(weight) == 0 || DecimalValue(weight) > IntMax)
      ensures Valid() ==> r.height == (if DecimalValue(height) <= IntMax then DecimalValue(height) else 0)
      ensures Valid() ==> r.weight == (if DecimalValue(weight) <= IntMax then DecimalValue(weight) else 0)
      ensures r.activityLevel == selectedActivityValue
      ensures Valid() ==> exists i :: 0 <= i < |ActivityOptions| && ActivityOptions[i].1 == r.activityLevel
      ensures r.name == name && r.birthdate == birthdate && r.gender == gender && r.allergies == selectedAllergies
    {
      DigitFieldValue(height);
      DigitFieldValue(weight);
      PhysicalDataRequest(name, birthdate, gender, IntOrZero(height), IntOrZero(weight),
                          selectedActivityValue, selectedAllergies)
    }

    constructor (uid: string)
      ensures Valid() && this.uid == uid
      ensures name == "" && height == "" && weight == "" && birthdate == InitialBirthdate && gender == 0
      ensures !isLoading && !expanded && selectedAllergies == []
      ensures selectedActivityText == ActivityOptions[0].0 && selectedActivityValue == 1.2
    {
      this.uid := uid;
      name, height, weight, birthdate, gender := "", "", "", InitialBirthdate, 0;
      isLoading, expanded := false, false;
      selectedActivityText, selectedActivityValue := ActivityOptions[0].0, ActivityOptions[0].1;
      selectedAllergies := [];
    }

    method EditName(text: string)
      requires Valid()
      modifies this`name
      ensures Valid() && name == text
    {
      name := text;
    }

    /** The height field takes new text only when all of it is digits. */
    method EditHeight(text: string)
      requires Valid()
      modifies this`height
      ensures Valid() && height == if AllDigits(text) then text else old(height)
    {
      if AllDigits(text) { height := text; }
    }

    method EditWeight(text: string)
      requires Valid()
      modifies this`weight
      ensures Valid() && weight == if AllDigits(text) then text else old(weight)
    {
      if AllDigits(text) { weight := text; }
    }

    /** The two radio buttons: 0 for "Laki-laki", 1 for "Perempuan". */
    method SelectGender(female: bool)
      requires Valid()
      modifies this`gender
      ensures Valid() && gender == if female then 1 else 0
    {
      gender := if female then 1 else 0;
    }

    method ToggleDropdown()
      requires Valid()
      modifies this`expanded
      ensures Valid() && expanded == !old(expanded)
    {
      expanded := !expanded;
    }

    method DismissDropdown()
      requires Valid()
      modifies this`expanded
      ensures Valid() && !expanded
    {
      expanded := false;
    }

    /** Picking the option at `index` in the dropdown menu. */
    method SelectActivity(index: nat)
      requires Valid() && index < |ActivityOptions|
      modifies this`selectedActivityText, this`selectedActivityValue, this`expanded
      ensures Valid() && !expanded
      ensures (selectedActivityText, selectedActivityValue) == ActivityOptions[index]
    {
      selectedActivityText := ActivityOptions[index].0;
      selectedActivityValue := ActivityOptions[index].1;
      expanded := false;
    }

    /** The chip for the offered allergy `allergy`. */
    method ToggleAllergy(allergy: string)
      requires Valid() && allergy in AllergyOptions
      modifies this`selectedAllergies
      ensures Valid() && selectedAllergies == Toggled(old(selectedAllergies), allergy)
      ensures allergy in selectedAllergies <==> allergy !in old(selectedAllergies)
    {
      if allergy in selectedAllergies {
        selectedAllergies := RemoveFirst(selectedAllergies, allergy);
      } else {
        selectedAllergies := selectedAllergies + [allergy];
      }
    }

    /** The date picker's confirmation with its year, 0-based month and day. */
    method DatePicked(year: int, month: int, day: int)
      requires Valid()
      modifies this`birthdate
      ensures Valid() && birthdate == FormatBirthdate(year, month, day)
    {
      birthdate := FormatBirthdate(year, month, day);
    }

    /** The save button's click: ignored while loading (the button is disabled); with a
        required field empty it only shows a notice; otherwise it sets `isLoading` and
        launches `Complete`. */
    method Submit() returns (outcome: SubmitOutcome)
      requires Valid()
      modifies this`isLoading
      ensures Valid()
      ensures old(isLoading) ==> outcome == Disabled && isLoading
      ensures !old(isLoading) && (name == "" || height == "" || weight == "") ==> outcome == Rejected(IncompleteForm) && !isLoading
      ensures !old(isLoading) && name != "" && height != "" && weight != "" ==> outcome == Launched && isLoading
    {
      if isLoading {
        outcome := Disabled;
      } else if name == "" || height == "" || weight == "" {
        outcome := Rejected(IncompleteForm);
      } else {
        isLoading := true;
        outcome := Launched;
      }
    }

    /** The launched body, with the ID token and the update-profile reply as inputs:
        without a token nothing is sent; `onComplete` runs only on a successful reply;
        `isLoading` is false afterwards on every path. */
    method Complete(token: Option<string>, reply: Reply<FullUserProfile>)
      returns (sent: Option<PhysicalDataRequest>, completed: bool, notice: Option<Notice>)
      requires Valid()
      modifies this`isLoading
      ensures Valid() && !isLoading
      ensures token.None? ==> sent.None? && !completed && notice.None?
      ensures token.Some? ==> sent == Some(Request())
      ensures completed <==> token.Some? && reply.IsSuccessful()
      ensures token.Some? && reply.IsSuccessful() ==> notice == Some(SavedWithStatus)
      ensures token.Some? && reply.Responded? && !reply.IsSuccessful() ==> notice == Some(FailedWithCode(reply.code))
      ensures token.Some? && reply.Threw? ==> notice == Some(ServerUnreachable)
    {
      sent, completed, notice := None, false, None;
      if token.Some? {
        sent := Some(Request());
        match reply
        case Threw =>
          notice := Some(ServerUnreachable);
        case Responded(code, _) =>
          if reply.IsSuccessful() {
            notice := Some(SavedWithStatus);
            completed := true;
          } else {
            notice := Some(FailedWithCode(code));
          }
      }
      isLoading := false;
    }
  }
}
