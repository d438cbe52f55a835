/** `ExtractPatientData.jsx`: the patient's name and date of birth are read
    from the text of the EHR page's identifier span, the date of birth is
    converted from "Mon D, YYYY" to an ISO 8601 "YYYY-MM-DD" date, and an
    exact-match patient search decides which patient the panel shows. */
module ExtractPatientData {
  import opened Js
  import opened Text
  import opened Web
  import PatientApi
  import opened Numbers

  const Cake := '\U{1F382}'
  const NameSentinel := "Patient name not found."
  const DobSentinel := "Patient DOB not found."
  const DetailsSentinel := "Patient details not found."

  // ---------------------------------------------------------------------
  // Name and date of birth

  /** The two UTF-16 code units of a character outside the Basic Multilingual Plane. */
  function HighSurrogate(c: char): int
    requires c as int >= 0x10000
  {
    0xD800 + (c as int - 0x10000) / 0x400
  }

  function LowSurrogate(c: char): int
    requires c as int >= 0x10000
  {
    0xDC00 + (c as int - 0x10000) % 0x400
  }

  /** A character `[^\(📁]` does not match.  The pattern has no `u` flag, so
      the folder emoji in the class stands for its two code units 0xD83D and
      0xDCC1, and any character containing either unit ends the match. */
  predicate StopsDob(c: char) {
    c == '(' || (c as int >= 0x10000 && (HighSurrogate(c) == 0xD83D || LowSurrogate(c) == 0xDCC1))
  }

  /** `[^\(📁]*`: the longest prefix without a stopping character. */
  function TakeUntilStop(s: string): (r: string)
    ensures |r| <= |s| && r == s[..|r|]
    ensures forall i :: 0 <= i < |r| ==> !StopsDob(r[i])
    ensures |r| < |s| ==> StopsDob(s[|r|])
  {
    if |s| == 0 || StopsDob(s[0]) then "" else [s[0]] + TakeUntilStop(s[1..])
  }

  /** The group captured by `/🎂\s*([^\(📁]*)/`, or `None` when there is no 🎂. */
  function DobCapture(text: string): (r: Option<string>)
    ensures r.Some? <==> Cake in text
  {
    var before := Split(text, Cake)[0];
    if |before| < |text| then Some(TakeUntilStop(TrimStart(text[|before| + 1..]))) else None
  }

  /** What is captured: after the first 🎂 and the white space that follows
      it, the longest run of characters that do not stop the match. */
  lemma CaptureAfterFirstCake(text: string)
    ensures DobCapture(text).Some? ==>
      exists p :: 0 <= p < |text| && text[p] == Cake && Cake !in text[..p]
                  && DobCapture(text).value == TakeUntilStop(TrimStart(text[p + 1..]))
  {
    var before := Split(text, Cake)[0];
    if |before| < |text| {
      assert text[..|before|] == before;
    }
  }

  /** The fields `setPatientDetail` stores (the phone number is not part of this model). */
  datatype Identity = Identity(name: string, firstName: string, lastName: string, dob: string)

  /** `(lastName, firstName)` of a non-empty name: "LAST, First" is split at
      its first two commas' pieces, a name without a comma is all last name. */
  function NameParts(nameMatch: string): (r: (string, string))
    ensures ',' !in nameMatch ==> r == (nameMatch, "")
    ensures ',' in nameMatch ==> r == (Trim(Split(nameMatch, ',')[0]), Trim(Split(nameMatch, ',')[1]))
  {
    var nameParts := Split(nameMatch, ',');
    if |nameParts| > 1 then (Trim(nameParts[0]), Trim(nameParts[1])) else (nameMatch, "")
  }

  /** What the page-body effect stores for the identifier span's text, or
      for a page without that span (`None`). */
  function Extract(text: Option<string>): (id: Identity)
    ensures text.None? ==> id == Identity(DetailsSentinel, "", "", DobSentinel)
    ensures text.Some? ==> id.name == (if Trim(Split(text.value, Cake)[0]) == "" then NameSentinel else Trim(Split(text.value, Cake)[0]))
    ensures text.Some? && Trim(Split(text.value, Cake)[0]) != "" ==>
      (id.lastName, id.firstName) == NameParts(Trim(Split(text.value, Cake)[0]))
    ensures text.Some? && Trim(Split(text.value, Cake)[0]) == "" ==> id.lastName == "" && id.firstName == ""
    ensures text.Some? && Cake !in text.value ==> id.dob == DobSentinel
    ensures id.dob != ""
  {
    match text
    case None => Identity(DetailsSentinel, "", "", DobSentinel)
    case Some(t) =>
      var nameMatch := Trim(Split(t, Cake)[0]);
      var (lastName, firstName) := if nameMatch != "" then NameParts(nameMatch) else ("", "");
      var dobMatch := match DobCapture(t) case Some(c) => Trim(c) case None => "";
      Identity(if nameMatch != "" then nameMatch else NameSentinel, firstName, lastName,
               if dobMatch != "" then dobMatch else DobSentinel)
  }

  /** The identifier text as the EHR renders it: "LAST, First 🎂 Mon D, YYYY (age...". */
  function Render(lastName: string, firstName: string, dob: string, age: string): string {
    lastName + ", " + firstName + " " + [Cake] + " " + dob + " (" + age
  }

  /** A piece of text with no surrounding whitespace. */
  predicate Trimmed(s: string) {
    |s| > 0 && !IsWhitespace(s[0]) && !IsWhitespace(s[|s| - 1])
  }

  /** Extraction reads back the name and date of birth the EHR rendered. */
  lemma ExtractRendered(lastName: string, firstName: string, dob: string, age: string)
    requires Trimmed(lastName) && Trimmed(firstName) && Trimmed(dob)
    requires ',' !in lastName && ',' !in firstName && Cake !in lastName && Cake !in firstName
    requires forall i :: 0 <= i < |dob| ==> !StopsDob(dob[i])
    ensures Extract(Some(Render(lastName, firstName, dob, age))) ==
      Identity(lastName + ", " + firstName, firstName, lastName, dob)
  {
    var t := Render(lastName, firstName, dob, age);
    RenderedName(lastName, firstName, dob, age);
    RenderedNameParts(lastName, firstName);
    RenderedDob(lastName, firstName, dob, age);
    TrimDropsTrailingSpace(dob);
  }

  /** The text before the cake is the rendered name and a space. */
  lemma RenderedNamePiece(lastName: string, firstName: string, dob: string, age: string)
    requires Cake !in lastName && Cake !in firstName
    ensures Split(Render(lastName, firstName, dob, age), Cake)[0] == lastName + ", " + firstName + " "
  {
    var t := Render(lastName, firstName, dob, age);
    var name := lastName + ", " + firstName;
    var p := |name| + 1;
    assert t == (name + " ") + ([Cake] + " " + dob + " (" + age);
    assert t[..p] == name + " ";
    assert Cake !in t[..p] by {
      assert forall i :: 0 <= i < |lastName| ==> t[..p][i] == lastName[i];
      assert forall i :: 0 <= i < |firstName| ==> t[..p][|lastName| + 2 + i] == firstName[i];
    }
    FirstPiece(t, Cake, p);
  }

  /** Trimmed, the text before the cake is the rendered name. */
  lemma RenderedName(lastName: string, firstName: string, dob: string, age: string)
    requires Trimmed(lastName) && Trimmed(firstName)
    requires Cake !in lastName && Cake !in firstName
    ensures Trim(Split(Render(lastName, firstName, dob, age), Cake)[0]) == lastName + ", " + firstName
  {
    var name := lastName + ", " + firstName;
    RenderedNamePiece(lastName, firstName, dob, age);
    assert name[0] == lastName[0] && name[|name| - 1] == firstName[|firstName| - 1];
    TrimDropsTrailingSpace(name);
  }

  /** "LAST, First" splits back into its two names. */
  lemma RenderedNameParts(lastName: string, firstName: string)
    requires Trimmed(lastName) && Trimmed(firstName)
    requires ',' !in lastName && ',' !in firstName
    ensures NameParts(lastName + ", " + firstName) == (lastName, firstName)
  {
    var name := lastName + ", " + firstName;
    var second := " " + firstName;
    assert name == lastName + [','] + second;
    SplitTwo(lastName, second, ',');
    NamePartsOfTwo(name, lastName, second);
    TrimmedIsFixed(lastName);
    TrimDropsLeadingSpace(firstName);
  }

  lemma TrimmedIsFixed(s: string)
    requires Trimmed(s)
    ensures Trim(s) == s
  {
    TrimExact(s, "", s, "");
  }

  lemma TrimDropsLeadingSpace(s: string)
    requires Trimmed(s)
    ensures Trim(" " + s) == s
  {
    TrimExact(" " + s, " ", s, "");
  }

  lemma TrimDropsTrailingSpace(s: string)
    requires Trimmed(s)
    ensures Trim(s + " ") == s
  {
    TrimExact(s + " ", "", s, " ");
  }

  /** A name that splits into two pieces yields those pieces, trimmed. */
  lemma NamePartsOfTwo(name: string, a: string, b: string)
    requires Split(name, ',') == [a, b]
    ensures NameParts(name) == (Trim(a), Trim(b))
  {
    assert |Split(name, ',')| > 1;
  }

  /** Two separator-free pieces joined by the separator split back into those pieces. */
  lemma SplitTwo(a: string, b: string, sep: char)
    requires sep !in a
    requires forall i :: 0 <= i < |b| ==> b[i] != sep
    ensures Split(a + [sep] + b, sep) == [a, b]
  {
    SplitNoSeparator(b, sep);
    SplitAfterPiece(a, b, sep);
  }

  /** The capture after the cake is the date of birth and the space before "(". */
  lemma RenderedDob(lastName: string, firstName: string, dob: string, age: string)
    requires Trimmed(lastName) && Trimmed(firstName) && Trimmed(dob)
    requires Cake !in lastName && Cake !in firstName
    requires forall i :: 0 <= i < |dob| ==> !StopsDob(dob[i])
    ensures DobCapture(Render(lastName, firstName, dob, age)) == Some(dob + " ")
  {
    var t := Render(lastName, firstName, dob, age);
    RenderedNamePiece(lastName, firstName, dob, age);
    var before := lastName + ", " + firstName + " ";
    var rest := dob + " (" + age;
    assert t == before + [Cake] + " " + rest;
    assert rest[0] == dob[0];
    CaptureAfterCake(t, before, rest);
    CaptureOfDob(dob, age);
  }

  /** The capture starts after the first cake and the whitespace that follows it. */
  lemma CaptureAfterCake(text: string, before: string, rest: string)
    requires text == before + [Cake] + " " + rest
    requires Split(text, Cake)[0] == before
    requires |rest| > 0 && !IsWhitespace(rest[0])
    ensures DobCapture(text) == Some(TakeUntilStop(rest))
  {
    assert text[|before| + 1..] == " " + rest;
    TrimStartSkips(" ", rest);
  }

  /** The capture of "<dob> (<age>" stops at the "(". */
  lemma CaptureOfDob(dob: string, age: string)
    requires forall i :: 0 <= i < |dob| ==> !StopsDob(dob[i])
    ensures TakeUntilStop(dob + " (" + age) == dob + " "
  {
    var rest := dob + " (" + age;
    assert forall i :: 0 <= i < |dob| ==> rest[i] == dob[i];
    assert rest[|dob|] == ' ' && rest[|dob| + 1] == '(';
    TakeUntilStopExact(rest, |dob| + 1);
    assert rest[..|dob| + 1] == dob + " ";
  }

  /** The first piece of a split ends at the first separator. */
  lemma FirstPiece(s: string, c: char, p: nat)
    requires p < |s| && s[p] == c && c !in s[..p]
    ensures Split(s, c)[0] == s[..p]
  {
  }

  /** Trimming removes exactly the surrounding whitespace. */
  lemma TrimExact(s: string, pre: string, core: string, post: string)
    requires s == pre + core + post
    requires forall i :: 0 <= i < |pre| ==> IsWhitespace(pre[i])
    requires forall i :: 0 <= i < |post| ==> IsWhitespace(post[i])
    requires Trimmed(core)
    ensures Trim(s) == core
  {
    var i := |s| - |TrimStart(s)|;
    var r := Trim(s);
    var a, z := |pre|, |pre| + |core| - 1;
    assert s[a] == core[0] && s[z] == core[|core| - 1];
    assert i <= a < i + |r| && z < i + |r|;
    assert i == a && |r| == |core|;
    assert r == s[a..a + |core|] == core;
  }

  lemma {:induction false} TrimStartSkips(ws: string, s: string)
    requires forall i :: 0 <= i < |ws| ==> IsWhitespace(ws[i])
    requires |s| > 0 && !IsWhitespace(s[0])
    ensures TrimStart(ws + s) == s
  {
    if |ws| == 0 {
      assert ws + s == s;
    } else {
      assert (ws + s)[0] == ws[0];
      assert (ws + s)[1..] == ws[1..] + s;
      TrimStartSkips(ws[1..], s);
    }
  }

  lemma TakeUntilStopExact(s: string, k: nat)
    requires k < |s| && StopsDob(s[k])
    requires forall i :: 0 <= i < k ==> !StopsDob(s[i])
    ensures TakeUntilStop(s) == s[..k]
  {
  }

  // ---------------------------------------------------------------------
  // The date of birth as YYYY-MM-DD

  predicate IsLeapYear(y: int) {
    y % 4 == 0 && (y % 100 != 0 || y % 400 == 0)
  }

  /** Days in month `m` (0-based) of year `y` of the proleptic Gregorian calendar. */
  function DaysInMonth(y: int, m: int): (n: int)
    requires 0 <= m < 12
    ensures 28 <= n <= 31
  {
    if m == 1 then (if IsLeapYear(y) then 29 else 28)
    else if m == 3 || m == 5 || m == 8 || m == 10 then 30
    else 31
  }

  /** A calendar date; `month` is 0-based as in `Date`. */
  datatype Date = Date(year: int, month: int, day: int)

  predicate ValidDate(d: Date) {
    0 <= d.month < 12 && 1 <= d.day <= DaysInMonth(d.year, d.month)
  }

  /** `new Date(year, month, day)` read back with the local getters: a day
      outside the month moves into the neighbouring months. */
  function MakeDate(year: int, month: int, day: int): (d: Date)
    requires 0 <= month < 12
    ensures ValidDate(d)
    ensures ValidDate(Date(year, month, day)) ==> d == Date(year, month, day)
    decreases if day < 1 then 1 - day else 0, if day < 1 then 0 else day
  {
    if day < 1 then
      var (py, pm) := if month == 0 then (year - 1, 11) else (year, month - 1);
      MakeDate(py, pm, day + DaysInMonth(py, pm))
    else if day > DaysInMonth(year, month) then
      var (ny, nm) := if month == 11 then (year + 1, 0) else (year, month + 1);
      MakeDate(ny, nm, day - DaysInMonth(year, month))
    else Date(year, month, day)
  }

  /** Days from 1 January 1970 to a valid date (the civil-to-days count of
      the proleptic Gregorian calendar, in 400-year eras of 146097 days
      whose years start on 1 March). */
  function DaysFromEpoch(d: Date): int
    requires 0 <= d.month < 12
  {
    var m := d.month + 1;
    var y := if m <= 2 then d.year - 1 else d.year;
    var era := y / 400;
    var yoe := y - era * 400;
    var mp := if m > 2 then m - 3 else m + 9;
    var doy := (153 * mp + 2) / 5 + d.day - 1;
    var doe := yoe * 365 + yoe / 4 - yoe / 100 + doy;
    era * 146097 + doe - 719468
  }

  /** A time value is at most 8.64e15 ms, 100,000,000 days, either side of
      the epoch; a `Date` beyond that is `Invalid Date`. */
  predicate InDateRange(d: Date)
    requires 0 <= d.month < 12
  {
    -100000000 <= DaysFromEpoch(d) <= 100000000
  }

  /** The epoch is day 0. */
  lemma EpochIsDayZero()
    ensures DaysFromEpoch(Date(1970, 0, 1)) == 0
  {
  }

  /** The last representable day: 13 September 275760. */
  lemma LastDay()
    ensures DaysFromEpoch(Date(275760, 8, 13)) == 100000000
  {
  }

  /** The first representable day: 20 April -271821. */
  lemma FirstDay()
    ensures DaysFromEpoch(Date(-271821, 3, 20)) == -100000000
  {
  }

  /** Every valid date from the year 100 to the year 275759 is representable. */
  lemma YearsInRange(d: Date)
    requires ValidDate(d) && 100 <= d.year <= 275759
    ensures InDateRange(d)
  {
    var m := d.month + 1;
    var y := if m <= 2 then d.year - 1 else d.year;
    var era := y / 400;
    var yoe := y - era * 400;
    assert 0 <= era <= 689 && 0 <= yoe < 400;
    assert era == 689 ==> yoe <= 159;
  }

  /** A valid date from the year 100 to the year 275759 prints in ISO form. */
  lemma ValidDateString(d: Date)
    requires ValidDate(d) && 100 <= d.year <= 275759
    ensures DateString(d) == IsoDate(d)
  {
    YearsInRange(d);
  }

  /** `String(d.getFullYear()) + "-" + mm + "-" + dd` of `new Date(...)`: the
      ISO form of a representable date, "NaN-NaN-NaN" otherwise. */
  function DateString(d: Date): (f: string)
    requires 0 <= d.month < 12
    ensures InDateRange(d) ==> f == IsoDate(d)
    ensures !InDateRange(d) ==> f == InvalidIso
  {
    if InDateRange(d) then IsoDate(d) else InvalidIso
  }

  /** The `Date` constructor's two-digit-year rule. */
  function FullYear(year: int): (y: int)
    ensures 0 <= year <= 99 ==> y == 1900 + year
    ensures !(0 <= year <= 99) ==> y == year
  {
    if 0 <= year <= 99 then 1900 + year else year
  }

  const MonthNames := ["Jan", "Feb", "Mar", "Apr", "May", "Jun", "Jul", "Aug", "Sep", "Oct", "Nov", "Dec"]

  /** `monthMap[month]`: a month index, or an inherited member, or `undefined`. */
  datatype MonthEntry = MonthIndex(index: int) | Inherited | Undefined

  function MonthOf(name: string): (e: MonthEntry)
    ensures e.MonthIndex? <==> name in MonthNames
    ensures e.MonthIndex? ==> 0 <= e.index < 12 && MonthNames[e.index] == name
    ensures e.Inherited? <==> name in PrototypeNames
  {
    if name in MonthNames then
      var i :| 0 <= i < 12 && MonthNames[i] == name;
      MonthIndex(i)
    else if name in PrototypeNames then Inherited
    else Undefined
  }

  /** `s.replace(",", "")`: the first comma is removed. */
  function RemoveFirstComma(s: string): (r: string)
    ensures ',' !in s ==> r == s
  {
    if |s| == 0 then s else if s[0] == ',' then s[1..] else [s[0]] + RemoveFirstComma(s[1..])
  }

  /** `${yyyy}-${mm}-${dd}` */
  function IsoDate(d: Date): string {
    IntToString(d.year) + "-" + PadStart2(IntToString(d.month + 1)) + "-" + PadStart2(IntToString(d.day))
  }

  /** What the getters of an `Invalid Date` print: an inherited `monthMap`
      member, a year V8 refuses and a date beyond the time-value range all
      produce it. */
  const InvalidIso := "NaN-NaN-NaN"

  /** `formattedDate` of `findExactMatch` for the stored date of birth. */
  function FormattedDate(dob: string): (f: string)
    ensures dob == "" || dob == DobSentinel ==> f == ""
    ensures |Split(dob, ' ')| < 3 ==> f == ""
  {
    if dob == "" || dob == DobSentinel then "" else PartsDate(Split(dob, ' '))
  }

  /** The date `dateParts` ("Mon", "D,", "YYYY", ...) stands for. */
  function PartsDate(dateParts: seq<string>): (f: string)
    ensures |dateParts| < 3 ==> f == ""
  {
    if |dateParts| < 3 then ""
    else ReadDate(MonthOf(dateParts[0]), ParseInt(RemoveFirstComma(dateParts[1])), ParseInt(dateParts[2]))
  }

  /** The years V8's `MakeDay` accepts; for any other year it returns NaN
      before the day is added, so a day count cannot bring the date back. */
  const MinYear := -1000000
  const MaxYear := 1000000

  /** `new Date(year, month, day)` as the getters print it. */
  function ConstructedDate(year: int, month: int, day: int): string
    requires 0 <= month < 12
  {
    if year < MinYear || year > MaxYear then InvalidIso else DateString(MakeDate(year, month, day))
  }

  /** The date of the parsed month entry, day and year. */
  function ReadDate(month: MonthEntry, day: Option<int>, year: Option<int>): (f: string)
    requires month.MonthIndex? ==> 0 <= month.index < 12
  {
    if month.Undefined? || day.None? || year.None? then ""
    else if month.Inherited? then InvalidIso
    else ConstructedDate(FullYear(year.value), month.index, day.value)
  }

  /** A date as the EHR writes it: "Mon D, YYYY" (`month` is 1-based). */
  function Written(month: nat, day: nat, year: int): string
    requires 1 <= month <= 12
  {
    MonthNames[month - 1] + " " + IntToString(day) + ", " + IntToString(year)
  }

  /** "Mon D, YYYY" splits at its two spaces into the month name, "D," and the year. */
  lemma WrittenParts(month: nat, day: nat, year: int)
    requires 1 <= month <= 12
    ensures Split(Written(month, day, year), ' ') == [MonthNames[month - 1], IntToString(day) + ",", IntToString(year)]
    ensures Written(month, day, year) != "" && Written(month, day, year) != DobSentinel
  {
    var m := MonthNames[month - 1];
    var d := IntToString(day);
    var y := IntToString(year);
    NoSpaceInNumber(day);
    NoSpaceInNumber(year);
    assert ' ' !in m by { assert m in MonthNames; }
    assert Written(month, day, year) == m + [' '] + (d + ",") + [' '] + y;
    SplitThree(m, d + ",", y, ' ');
    assert Written(month, day, year)[0] == m[0] != 'P';
  }

  /** Three separator-free pieces joined by the separator split back into those pieces. */
  lemma SplitThree(a: string, b: string, c: string, sep: char)
    requires sep !in a && sep !in b && sep !in c
    ensures Split(a + [sep] + b + [sep] + c, sep) == [a, b, c]
  {
    SplitNoSeparator(c, sep);
    SplitAfterPiece(b, c, sep);
    assert a + [sep] + b + [sep] + c == a + [sep] + (b + [sep] + c);
    SplitAfterPiece(a, b + [sep] + c, sep);
  }

  /** Any written date goes through `new Date(year, month - 1, day)`. */
  lemma WrittenDate(month: nat, day: nat, year: int)
    requires 1 <= month <= 12
    ensures FormattedDate(Written(month, day, year)) == ConstructedDate(FullYear(year), month - 1, day)
  {
    WrittenParts(month, day, year);
    WrittenPartsDate(month, day, year);
  }

  lemma WrittenPartsDate(month: nat, day: nat, year: int)
    requires 1 <= month <= 12
    ensures PartsDate([MonthNames[month - 1], IntToString(day) + ",", IntToString(year)])
      == ConstructedDate(FullYear(year), month - 1, day)
  {
    MonthOfName(month);
    DayParses(day);
    ParseIntRoundTrip(year);
    ReadIndexedDate(month - 1, day, year);
  }

  lemma ReadIndexedDate(month: int, day: int, year: int)
    requires 0 <= month < 12
    ensures ReadDate(MonthIndex(month), Some(day), Some(year)) == ConstructedDate(FullYear(year), month, day)
  {
  }

  /** The month's name maps back to its 0-based index. */
  lemma MonthOfName(month: nat)
    requires 1 <= month <= 12
    ensures MonthOf(MonthNames[month - 1]) == MonthIndex(month - 1)
  {
    var i := MonthOf(MonthNames[month - 1]).index;
    MonthNamesDistinct(i, month - 1);
  }

  /** "D," with the comma removed parses back to D. */
  lemma DayParses(day: nat)
    ensures ParseInt(RemoveFirstComma(IntToString(day) + ",")) == Some(day)
  {
    NoSpaceInNumber(day);
    RemoveTrailingComma(IntToString(day));
    ParseIntRoundTrip(day);
  }

  /** A valid date written "Mon D, YYYY" with a year from 100 to 275759
      converts to its ISO 8601 form. */
  lemma FormatsValidDate(month: nat, day: nat, year: int)
    requires 1 <= month <= 12 && 100 <= year <= 275759 && ValidDate(Date(year, month - 1, day))
    ensures FormattedDate(Written(month, day, year))
      == IntToString(year) + "-" + PadStart2(IntToString(month)) + "-" + PadStart2(IntToString(day))
  {
    WrittenDate(month, day, year);
    assert FullYear(year) == year;
    var d := MakeDate(year, month - 1, day);
    assert d == Date(year, month - 1, day);
    ValidDateString(d);
    assert d.month + 1 == month;
  }

  /** A two-digit year is read as 19xx. */
  lemma TwoDigitYear(month: nat, day: nat, year: nat)
    requires 1 <= month <= 12 && year <= 99 && ValidDate(Date(1900 + year, month - 1, day))
    ensures FormattedDate(Written(month, day, year))
      == IntToString(1900 + year) + "-" + PadStart2(IntToString(month)) + "-" + PadStart2(IntToString(day))
  {
    WrittenDate(month, day, year);
    assert FullYear(year) == 1900 + year;
    var d := MakeDate(1900 + year, month - 1, day);
    assert d == Date(1900 + year, month - 1, day);
    ValidDateString(d);
    assert d.month + 1 == month;
  }

  /** A year past the range converts to "NaN-NaN-NaN": "Jan 1, 300000". */
  lemma FarFutureIsInvalid()
    ensures FormattedDate(Written(1, 1, 300000)) == InvalidIso
  {
    WrittenDate(1, 1, 300000);
    assert MakeDate(300000, 0, 1) == Date(300000, 0, 1);
    assert !InDateRange(Date(300000, 0, 1));
  }

  /** A written year outside V8's range converts to "NaN-NaN-NaN" whatever
      the month and day. */
  lemma YearBeyondEngineIsInvalid(month: nat, day: nat, year: int)
    requires 1 <= month <= 12 && (year < MinYear || year > MaxYear)
    ensures FormattedDate(Written(month, day, year)) == InvalidIso
  {
    WrittenDate(month, day, year);
  }

  /** A day count does not bring such a year back into range:
      "Jan -364512380, 1000001" is still an `Invalid Date`. */
  lemma NegativeDayKeepsYearInvalid()
    ensures ReadDate(MonthIndex(0), Some(-364512380), Some(1000001)) == InvalidIso
  {
  }

  lemma MonthNamesDistinct(i: nat, j: nat)
    requires i < 12 && j < 12 && MonthNames[i] == MonthNames[j]
    ensures i == j
  {
  }

  lemma NoSpaceInNumber(n: int)
    ensures ' ' !in IntToString(n) && ',' !in IntToString(n)
  {
    var s := IntToString(n);
    var digits := NatToString(if n < 0 then -n else n);
    assert forall i :: 0 <= i < |digits| ==> digits[i] != ' ' && digits[i] != ',';
    assert s == digits || s == "-" + digits;
  }

  lemma {:induction false} RemoveTrailingComma(d: string)
    requires ',' !in d
    ensures RemoveFirstComma(d + ",") == d
  {
    if |d| > 0 {
      assert (d + ",")[1..] == d[1..] + ",";
      RemoveTrailingComma(d[1..]);
    }
  }

  /** No date is produced without three space-separated parts, a known
      month, and a numeric day and year. */
  lemma NoDateWithoutParts(dob: string)
    requires var parts := Split(dob, ' ');
      |parts| < 3 || MonthOf(parts[0]).Undefined? ||
      ParseInt(RemoveFirstComma(parts[1])).None? || ParseInt(parts[2]).None?
    ensures FormattedDate(dob) == ""
  {
  }

  // ---------------------------------------------------------------------
  // The exact-match search

  /** The UTF-16 length of a string. */
  function Utf16Length(s: string): nat {
    if |s| == 0 then 0 else (if s[0] as int >= 0x10000 then 2 else 1) + Utf16Length(s[1..])
  }

  /** `value.length === 1` */
  predicate LengthIsOne(v: Json) {
    match v
    case Arr(items) => |items| == 1
    case Str(s) => Utf16Length(s) == 1
    case Obj(_) => Get(v, "length") == Some(Num(1))
    case _ => false
  }

  /** `patients[0].id` for a value whose length is 1. */
  function FirstId(patients: Json): (r: Result<Option<Json>>)
    requires LengthIsOne(patients)
    ensures patients.Arr? ==> r == ReadProperty(patients.items[0], "id")
  {
    match patients
    case Arr(items) => ReadProperty(items[0], "id")
    case Str(_) => Ok(None)
    case Obj(_) =>
      match Get(patients, "0")
      case None => Err(UndefinedPropertyError("id"))
      case Some(first) => ReadProperty(first, "id")
  }

  /** `total > 1`: the comparison converts `total` to a number, so a
      numeric string or a one-element array counts like its number, and a
      missing or non-numeric total is NaN, which is not above 1. */
  predicate MoreThanOne(total: Option<Json>) {
    GreaterThan(ToNumber(total), 1)
  }

  /** What the search's answer leads to: a selected patient, one of the two
      count messages, the `catch` block's "Failed to find exact match: "
      message for an error, or nothing. */
  datatype MatchOutcome = Select(patientId: Option<Json>) | ShowError(message: string) | Failed(error: JsError) | NoChange

  const MultipleMatches := "Multiple patient matches found. Please refine your search."
  const NoMatches := "No matching patients found."
  const MatchFailure := "Failed to find exact match: "

  /** The `then` callback, with a throw in it caught by the `catch` below it. */
  function Classify(r: Result<Json>): (o: MatchOutcome)
    ensures r.Err? ==> o == Failed(r.error)
    ensures o.Select? ==> r.Ok? && Get(r.value, "total") == Some(Num(1))
    ensures o == ShowError(MultipleMatches) <==> r.Ok? && MoreThanOne(Get(r.value, "total"))
    ensures o == ShowError(NoMatches) <==> r.Ok? && Get(r.value, "total") == Some(Num(0))
    ensures o.NoChange? ==> r.Ok? && !MoreThanOne(Get(r.value, "total")) && Get(r.value, "total") != Some(Num(0))
  {
    match r
    case Err(e) => Failed(e)
    case Ok(response) =>
      var total := Get(response, "total");
      var patients := Get(response, "patients");
      if JsonTruthy(response) && total == Some(Num(1)) && Present(patients) && LengthIsOne(patients.value) then
        match FirstId(patients.value)
        case Ok(id) => Select(id)
        case Err(e) => Failed(e)
      else if JsonTruthy(response) && MoreThanOne(total) then ShowError(MultipleMatches)
      else if JsonTruthy(response) && total == Some(Num(0)) then ShowError(NoMatches)
      else NoChange
  }

  /** Exactly one match selects that patient. */
  lemma OneMatchSelects(response: Json, patient: Json)
    requires Get(response, "total") == Some(Num(1)) && Get(response, "patients") == Some(Arr([patient]))
    requires !patient.Null?
    ensures Classify(Ok(response)) == Select(Get(patient, "id"))
  {
  }

  /** Several matches ask the user to refine the search; none says so. */
  lemma CountedOutcomes(response: Json)
    ensures MoreThanOne(Get(response, "total")) ==> Classify(Ok(response)) == ShowError(MultipleMatches)
    ensures Get(response, "total") == Some(Num(0)) ==> Classify(Ok(response)) == ShowError(NoMatches)
  {
  }

  /** A total sent as text is compared as a number: "3" asks the user to
      refine the search, as 3 does, and so does `[3]`. */
  lemma TextTotalCounts(response: Json, n: int)
    requires n > 1
    requires Get(response, "total") == Some(Str(IntToString(n))) || Get(response, "total") == Some(Arr([Num(n)]))
    ensures Classify(Ok(response)) == ShowError(MultipleMatches)
  {
    IntStringToNumber(n);
    SingletonArrayToNumber(n);
  }

  /** `total` of 1 without a single listed patient changes nothing. */
  lemma OneWithoutPatientIgnored(response: Json)
    requires Get(response, "total") == Some(Num(1)) && Get(response, "patients") == Some(Arr([]))
    ensures Classify(Ok(response)) == NoChange
  {
  }

  /** `findExactMatch()` on the browser state `w`. */
  function ExactMatchFlow(server: Server, w: World, detail: Identity): (MatchOutcome, World) {
    var formattedDate := FormattedDate(detail.dob);
    var (r, w1) := PatientApi.FetchPatientsFlow(server, w, None, None, None,
                                                 Some(detail.firstName), Some(detail.lastName), Some(formattedDate));
    (Classify(r), w1)
  }

  /** The search sends only `exact_search`, carrying the names and the converted date. */
  lemma ExactSearchOnly(detail: Identity)
    requires detail.firstName != "" || detail.lastName != ""
    ensures var j := PatientApi.ListBody(None, None, None, Some(detail.firstName), Some(detail.lastName),
                                         Some(FormattedDate(detail.dob)));
      && Keys(j.fields) == ["exact_search"]
      && Get(j, "exact_search") == Some(Arr([Str(detail.firstName), Str(detail.lastName), Str(FormattedDate(detail.dob))]))
  {
    PatientApi.ExactMatchBodyOnly(Some(detail.firstName), Some(detail.lastName), Some(FormattedDate(detail.dob)));
  }

  /** The date conversion at the top of `findExactMatch`, step by step. */
  method ConvertDob(dob: string) returns (formattedDate: string)
    ensures formattedDate == FormattedDate(dob)
  {
    formattedDate := "";
    if dob != "" && dob != DobSentinel {
      var dateParts := Split(dob, ' ');
      if |dateParts| >= 3 {
        var month := MonthOf(dateParts[0]);
        var day := ParseInt(RemoveFirstComma(dateParts[1]));
        var year := ParseInt(dateParts[2]);
        if !month.Undefined? && day.Some? && year.Some? {
          formattedDate := if month.Inherited? then InvalidIso
                           else ConstructedDate(FullYear(year.value), month.index, day.value);
        }
      }
    }
  }

  /** The component's state. */
  class Panel {
    var patientId: Option<Json>
    var patientDetail: Identity
    var inputError: string

    constructor ()
      ensures patientId == Some(Null) && patientDetail == Identity("", "", "", "") && inputError == ""
    {
      patientId := Some(Null);
      patientDetail := Identity("", "", "", "");
      inputError := "";
    }

    /** The page-body effect, given the identifier span's text (`None` when there is no span). */
    method ReadIdentifier(text: Option<string>)
      modifies this
      ensures patientDetail == Extract(text)
      ensures patientId == old(patientId) && inputError == old(inputError)
    {
      if text.Some? {
        var t := text.value;
        var nameMatch := Trim(Split(t, Cake)[0]);
        var firstName := "";
        var lastName := "";
        if nameMatch != "" {
          var nameParts := Split(nameMatch, ',');
          if |nameParts| > 1 {
            lastName := Trim(nameParts[0]);
            firstName := Trim(nameParts[1]);
          } else {
            lastName := nameMatch;
          }
        }
        var dobMatch := "";
        var dobResult := DobCapture(t);
        if dobResult.Some? && dobResult.value != "" {
          dobMatch := Trim(dobResult.value);
        }
        patientDetail := Identity(if nameMatch != "" then nameMatch else NameSentinel, firstName, lastName,
                                  if dobMatch != "" then dobMatch else DobSentinel);
      } else {
        patientDetail := Identity(DetailsSentinel, "", "", DobSentinel);
      }
    }

    method FindExactMatch(b: Browser)
      modifies this, b
      ensures var (o, w) := ExactMatchFlow(b.server, old(b.State()), old(patientDetail));
        && b.State() == w
        && (o.Select? ==> patientId == o.patientId && inputError == old(inputError))
        && (o.ShowError? ==> patientId == old(patientId) && inputError == o.message)
        && (o.Failed? ==> patientId == old(patientId) && inputError == MatchFailure + o.error.message)
        && (o.NoChange? ==> patientId == old(patientId) && inputError == old(inputError))
      ensures patientDetail == old(patientDetail)
    {
      ghost var w0, detail0 := b.State(), patientDetail;
      var formattedDate := ConvertDob(patientDetail.dob);
      var response := PatientApi.FetchPatients(b, None, None, None, Some(patientDetail.firstName),
                                               Some(patientDetail.lastName), Some(formattedDate));
      assert ExactMatchFlow(b.server, w0, detail0) == (Classify(response), b.State());
      match Classify(response) {
        case Select(id) => patientId := id;
        case ShowError(message) => inputError := message;
        case Failed(e) => inputError := MatchFailure + e.message;
        case NoChange =>
      }
    }
  }
}
