/**
 * Input checks (app/utils/validators.py): the stand-alone validators, the
 * bounds the marshmallow schemas declare, and `EventSchema.validate_event`.
 *
 * The request dictionaries after `schema.load` are `EventInput` and
 * `PatternInput`; a key that is absent is `None`. Datetimes are `Time`
 * values (the ISO-8601 parsing is not modelled). Python truthiness is
 * spelled out: an empty string, the integer 0 and an empty dict are falsy,
 * a datetime never is.
 */
module Validators {
  import opened Wrappers
  import opened Errors
  import opened Permissions

  type Time = int

  datatype PatternInput = PatternInput(
    kind: Option<string>,
    interval: Option<int>,
    daysOfWeek: Option<string>,
    dayOfMonth: Option<int>,
    monthOfYear: Option<int>,
    endDate: Option<Time>,
    count: Option<int>,
    customRule: Option<string>)

  const EmptyPattern := PatternInput(None, None, None, None, None, None, None, None)

  datatype EventInput = EventInput(
    title: Option<string>,
    description: Option<string>,
    startTime: Option<Time>,
    endTime: Option<Time>,
    location: Option<string>,
    isRecurring: Option<bool>,
    pattern: Option<PatternInput>)

  predicate StrTruthy(o: Option<string>) { o.Some? && o.value != "" }
  predicate IntTruthy(o: Option<int>) { o.Some? && o.value != 0 }
  predicate PatternTruthy(o: Option<PatternInput>) { o.Some? && o.value != EmptyPattern }

  // ---------------------------------------------------------------- password

  predicate IsUpper(c: char) { 'A' <= c <= 'Z' }
  predicate IsLower(c: char) { 'a' <= c <= 'z' }
  predicate IsDigit(c: char) { '0' <= c <= '9' }

  /** `any(f(c) for c in s)` */
  function Any(s: string, f: char -> bool): (b: bool)
    ensures b <==> exists i :: 0 <= i < |s| && f(s[i])
  {
    if s == [] then false
    else if f(s[0]) then true
    else
      var b := Any(s[1..], f);
      assert forall i :: 1 <= i < |s| ==> s[i] == s[1..][i - 1];
      b
  }

  const PasswordTooShort := "Password must be at least 8 characters long"
  const PasswordTooWeak := "Password must contain at least one uppercase letter, one lowercase letter, and one digit"

  /** `validate_password` (ASCII letter and digit classes). */
  function ValidatePassword(password: string): (r: Result<string, APIError>)
    ensures r.Ok? <==> |password| >= 8
                       && (exists i :: 0 <= i < |password| && IsUpper(password[i]))
                       && (exists i :: 0 <= i < |password| && IsLower(password[i]))
                       && (exists i :: 0 <= i < |password| && IsDigit(password[i]))
    ensures r.Ok? ==> r.value == password
    ensures r.Err? ==> r.error.statusCode == 400
    ensures |password| < 8 ==> r == Err(Raise(Validation, Some(PasswordTooShort)))
  {
    if |password| < 8 then Err(Raise(Validation, Some(PasswordTooShort)))
    else if !(Any(password, IsUpper) && Any(password, IsLower) && Any(password, IsDigit)) then
      Err(Raise(Validation, Some(PasswordTooWeak)))
    else Ok(password)
  }

  // ------------------------------------------------------------- date range

  /** `validate_date_range` on already parsed datetimes. */
  function ValidateDateRange(start: Time, end: Time): (r: Result<(Time, Time), APIError>)
    ensures r.Ok? <==> start < end
    ensures r.Ok? ==> r.value == (start, end)
    ensures r.Err? ==> r.error == Raise(Validation, Some("End time must be after start time"))
  {
    if start >= end then Err(Raise(Validation, Some("End time must be after start time")))
    else Ok((start, end))
  }

  // ------------------------------------------------------------- recurrence

  /** The type-specific fields `validate_recurrence` demands. */
  predicate TypeFieldsPresent(d: PatternInput)
  {
    && (d.kind == Some("weekly") ==> StrTruthy(d.daysOfWeek))
    && (d.kind == Some("monthly") ==> IntTruthy(d.dayOfMonth))
    && (d.kind == Some("yearly") ==> IntTruthy(d.monthOfYear) && IntTruthy(d.dayOfMonth))
  }

  /** `validate_recurrence`: the checks run in this order and the first failing one raises. */
  function ValidateRecurrence(d: PatternInput): (r: Result<PatternInput, APIError>)
    ensures r.Ok? <==> StrTruthy(d.kind) && TypeFieldsPresent(d) && (d.endDate.Some? || IntTruthy(d.count))
    ensures r.Ok? ==> r.value == d
    ensures r.Err? ==> r.error.statusCode == 400
    ensures !StrTruthy(d.kind) ==> r == Err(Raise(Validation, Some("Recurrence type is required")))
    ensures StrTruthy(d.kind) && TypeFieldsPresent(d) && d.endDate.None? && !IntTruthy(d.count) ==>
              r == Err(Raise(Validation, Some("Either end date or count is required for recurrence")))
  {
    if !StrTruthy(d.kind) then Err(Raise(Validation, Some("Recurrence type is required")))
    else if d.kind.value == "weekly" && !StrTruthy(d.daysOfWeek) then
      Err(Raise(Validation, Some("Days of week are required for weekly recurrence")))
    else if d.kind.value == "monthly" && !IntTruthy(d.dayOfMonth) then
      Err(Raise(Validation, Some("Day of month is required for monthly recurrence")))
    else if d.kind.value == "yearly" && (!IntTruthy(d.monthOfYear) || !IntTruthy(d.dayOfMonth)) then
      Err(Raise(Validation, Some("Month and day are required for yearly recurrence")))
    else if d.endDate.None? && !IntTruthy(d.count) then
      Err(Raise(Validation, Some("Either end date or count is required for recurrence")))
    else Ok(d)
  }

  /** An end date and a count together are accepted; a zero count counts as absent. */
  lemma EndConditions(d: PatternInput)
    requires StrTruthy(d.kind) && TypeFieldsPresent(d)
    ensures d.endDate.Some? && IntTruthy(d.count) ==> ValidateRecurrence(d).Ok?
    ensures d.endDate.None? && d.count == Some(0) ==> ValidateRecurrence(d).Err?
  {
  }

  // ------------------------------------------------------------------ email

  predicate IsLetter(c: char) { IsUpper(c) || IsLower(c) }
  predicate IsLocalChar(c: char) { IsLetter(c) || IsDigit(c) || c in "._%+-" }
  predicate IsDomainChar(c: char) { IsLetter(c) || IsDigit(c) || c in ".-" }

  /** `all(f(c) for c in s)` */
  function All(s: string, f: char -> bool): (b: bool)
    ensures b <==> forall i :: 0 <= i < |s| ==> f(s[i])
  {
    if s == [] then true
    else
      var b := f(s[0]) && All(s[1..], f);
      assert forall i :: 1 <= i < |s| ==> s[i] == s[1..][i - 1];
      b
  }

  /**
   * `[a-zA-Z0-9._%+-]+@[a-zA-Z0-9.-]+\.[a-zA-Z]{2,}` matching the whole of
   * `s`, read off the regular expression: the split points are the '@' at
   * `at` and the '.' at `dot`.
   */
  ghost predicate EmailSplitAt(s: string, at: int, dot: int)
  {
    && 0 < at && at + 1 < dot && dot + 2 < |s|
    && s[at] == '@' && s[dot] == '.'
    && (forall k :: 0 <= k < at ==> IsLocalChar(s[k]))
    && (forall k :: at < k < dot ==> IsDomainChar(s[k]))
    && (forall k :: dot < k < |s| ==> IsLetter(s[k]))
  }

  ghost predicate EmailShape(s: string)
  {
    exists at, dot :: EmailSplitAt(s, at, dot)
  }

  /** The position of the first `c` in `s`, or `|s|`. */
  function FirstIndex(s: string, c: char): (r: nat)
    ensures r <= |s|
    ensures r < |s| ==> s[r] == c
    ensures forall k :: 0 <= k < r ==> s[k] != c
  {
    if s == [] then 0
    else if s[0] == c then 0
    else
      var r := 1 + FirstIndex(s[1..], c);
      assert forall k :: 1 <= k < r ==> s[k] == s[1..][k - 1];
      r
  }

  /** The position of the last `c` in `s`, or `|s|`. */
  function LastIndex(s: string, c: char): (r: nat)
    ensures r <= |s|
    ensures r < |s| ==> s[r] == c && forall k :: r < k < |s| ==> s[k] != c
    ensures r == |s| ==> forall k :: 0 <= k < |s| ==> s[k] != c
  {
    if s == [] then 0
    else if s[|s| - 1] == c then |s| - 1
    else
      var r := LastIndex(s[..|s| - 1], c);
      if r == |s| - 1 then |s| else r
  }

  /** A deterministic reading of the pattern: first '@', then the last '.'. */
  function EmailMatch(s: string): (b: bool)
    ensures b <==> EmailShape(s)
  {
    var at := FirstIndex(s, '@');
    var dot := LastIndex(s, '.');
    var b := at < |s| && dot < |s|
             && 0 < at && at + 1 < dot && dot + 2 < |s|
             && All(s[..at], IsLocalChar) && All(s[at + 1..dot], IsDomainChar) && All(s[dot + 1..], IsLetter);
    if b then
      assert forall k :: 0 <= k < at ==> s[..at][k] == s[k];
      assert forall k :: at < k < dot ==> s[at + 1..dot][k - at - 1] == s[k];
      assert forall k :: dot < k < |s| ==> s[dot + 1..][k - dot - 1] == s[k];
      assert EmailSplitAt(s, at, dot);
      b
    else
      EmailShapeSplit(s, at, dot);
      b
  }

  /** Any split the pattern admits is the one `EmailMatch` computes. */
  lemma EmailShapeSplit(s: string, at: nat, dot: nat)
    requires at == FirstIndex(s, '@') && dot == LastIndex(s, '.')
    ensures EmailShape(s) ==> EmailSplitAt(s, at, dot)
  {
    if EmailShape(s) {
      var a, d :| EmailSplitAt(s, a, d);
      assert !IsLocalChar('@') && !IsLetter('.');
      assert a == at;
      assert d == dot;
    }
  }

  /**
   * `validate_email` as written: `re.match` with a trailing `$`, which in
   * Python also matches just before a final newline.
   */
  function ValidateEmail(email: string): (r: Result<string, APIError>)
    ensures r.Ok? <==> EmailShape(email) || (|email| > 0 && email[|email| - 1] == '\n' && EmailShape(email[..|email| - 1]))
    ensures r.Ok? ==> r.value == email
    ensures r.Err? ==> r.error == Raise(Validation, Some("Invalid email format"))
  {
    if EmailMatch(email) || (|email| > 0 && email[|email| - 1] == '\n' && EmailMatch(email[..|email| - 1])) then
      Ok(email)
    else Err(Raise(Validation, Some("Invalid email format")))
  }

  /** The check as evidently intended: the pattern must span the whole string. */
  function ValidateEmailStrict(email: string): (r: Result<string, APIError>)
    ensures r.Ok? <==> EmailShape(email)
    ensures r.Ok? ==> r.value == email && forall k :: 0 <= k < |email| ==> email[k] != '\n'
    ensures r.Err? ==> r.error == Raise(Validation, Some("Invalid email format"))
  {
    if EmailMatch(email) then
      EmailHasNoNewline(email);
      Ok(email)
    else Err(Raise(Validation, Some("Invalid email format")))
  }

  lemma EmailHasNoNewline(s: string)
    requires EmailShape(s)
    ensures forall k :: 0 <= k < |s| ==> s[k] != '\n'
  {
    var at, dot :| EmailSplitAt(s, at, dot);
    forall k | 0 <= k < |s| ensures s[k] != '\n' {
      if k < at { assert IsLocalChar(s[k]); }
      else if at < k < dot { assert IsDomainChar(s[k]); }
      else if dot < k { assert IsLetter(s[k]); }
    }
  }

  /** As written, an address followed by a newline passes. */
  lemma TrailingNewlineAccepted()
    ensures ValidateEmail("a@b.cc\n").Ok?
    ensures ValidateEmailStrict("a@b.cc\n").Err?
  {
    var s := "a@b.cc";
    assert EmailSplitAt(s, 1, 3);
    assert ("a@b.cc\n")[..6] == s;
    assert ("a@b.cc\n")[6] == '\n';
  }

  // ------------------------------------------------------- declared bounds

  const RoleChoices: seq<string> := ["owner", "editor", "viewer"]
  const TypeChoices: seq<string> := ["daily", "weekly", "monthly", "yearly", "custom"]

  predicate IntervalInBounds(n: int) { 1 <= n <= 365 }
  predicate DayOfMonthInBounds(n: int) { 1 <= n <= 31 }
  predicate MonthOfYearInBounds(n: int) { 1 <= n <= 12 }
  predicate CountInBounds(n: int) { n >= 1 }
  predicate TitleInBounds(t: string) { 1 <= |t| <= 255 }

  /** What `RecurrencePatternSchema` declares of a loaded pattern. */
  predicate PatternWithinSchema(p: PatternInput)
  {
    && p.kind.Some? && p.kind.value in TypeChoices
    && (p.interval.Some? ==> IntervalInBounds(p.interval.value))
    && (p.dayOfMonth.Some? ==> DayOfMonthInBounds(p.dayOfMonth.value))
    && (p.monthOfYear.Some? ==> MonthOfYearInBounds(p.monthOfYear.value))
    && (p.count.Some? ==> CountInBounds(p.count.value))
  }

  /** What `EventSchema` declares of a loaded event. */
  predicate EventWithinSchema(e: EventInput)
  {
    && e.title.Some? && TitleInBounds(e.title.value)
    && e.startTime.Some? && e.endTime.Some?
    && (e.pattern.Some? ==> PatternWithinSchema(e.pattern.value))
  }

  /**
   * The declared ranges, at their edges: interval 1..365, day 1..31, month
   * 1..12, count at least 1, a title of 1..255 characters; a pattern needs
   * a type, and an event a title, a start and an end.
   */
  lemma DeclaredBounds(p: PatternInput, e: EventInput)
    ensures IntervalInBounds(1) && IntervalInBounds(365) && !IntervalInBounds(0) && !IntervalInBounds(366)
    ensures DayOfMonthInBounds(1) && DayOfMonthInBounds(31) && !DayOfMonthInBounds(0) && !DayOfMonthInBounds(32)
    ensures MonthOfYearInBounds(1) && MonthOfYearInBounds(12) && !MonthOfYearInBounds(0) && !MonthOfYearInBounds(13)
    ensures CountInBounds(1) && !CountInBounds(0)
    ensures !TitleInBounds("")
    ensures p.kind.None? || (p.kind.Some? && p.kind.value !in TypeChoices) ==> !PatternWithinSchema(p)
    ensures e.title.None? || e.startTime.None? || e.endTime.None? ==> !EventWithinSchema(e)
    ensures e.pattern.Some? && !PatternWithinSchema(e.pattern.value) ==> !EventWithinSchema(e)
  {
  }

  /** `PermissionSchema`'s role choices are exactly the names `RoleType` accepts. */
  lemma RoleChoicesAreRoles(s: string)
    ensures s in RoleChoices <==> ParseRole(s).Some?
  {
  }

  /** `EventSchema.validate_event`: time order first, then a recurring event needs a pattern. */
  function ValidateEvent(data: EventInput): (r: Result<EventInput, string>)
    ensures r.Ok? <==> (data.startTime.Some? && data.endTime.Some? ==> data.startTime.value < data.endTime.value)
                       && (data.isRecurring == Some(true) ==> PatternTruthy(data.pattern))
    ensures r.Ok? ==> r.value == data
    ensures data.startTime.Some? && data.endTime.Some? && data.startTime.value >= data.endTime.value ==>
              r == Err("End time must be after start time")
  {
    if data.startTime.Some? && data.endTime.Some? && data.startTime.value >= data.endTime.value then
      Err("End time must be after start time")
    else if data.isRecurring == Some(true) && !PatternTruthy(data.pattern) then
      Err("Recurrence pattern is required for recurring events")
    else Ok(data)
  }
}
