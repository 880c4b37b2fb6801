/** The string operations the plan checker relies on: ordinal substring search
    (String.IndexOf), the two identifier patterns for course and plan IDs, and
    the "YYMMDD" rendering of a CT creation date. */
module Text {
  import opened Wrappers

  /** t occurs in s starting at index i. */
  predicate OccursAt(s: string, t: string, i: int) {
    0 <= i && i + |t| <= |s| && s[i..i + |t|] == t
  }

  /** First index at or after `from` where t occurs in s, or -1. */
  function IndexFrom(s: string, t: string, from: nat): (r: int)
    requires from <= |s| + 1
    decreases |s| + 1 - from
    ensures r == -1 || from <= r <= |s|
  {
    if from + |t| > |s| then -1
    else if s[from..from + |t|] == t then from
    else IndexFrom(s, t, from + 1)
  }

  /** IndexFrom finds the first occurrence at or after `from`, and -1 means there is none. */
  lemma {:induction false} IndexFromFirst(s: string, t: string, from: nat)
    requires from <= |s| + 1
    decreases |s| + 1 - from
    ensures var r := IndexFrom(s, t, from);
      (r == -1 || OccursAt(s, t, r)) &&
      (r == -1 ==> forall j :: from <= j ==> !OccursAt(s, t, j)) &&
      (r != -1 ==> forall j :: from <= j < r ==> !OccursAt(s, t, j))
  {
    if from + |t| <= |s| && s[from..from + |t|] != t {
      IndexFromFirst(s, t, from + 1);
    }
  }

  /** String.IndexOf(t) with ordinal comparison: the first occurrence of t in s, or -1. */
  function IndexOf(s: string, t: string): (r: int)
    ensures -1 <= r <= |s|
  {
    IndexFrom(s, t, 0)
  }

  lemma IndexOfFirst(s: string, t: string)
    ensures var r := IndexOf(s, t);
      (r >= 0 ==> OccursAt(s, t, r) && forall j :: 0 <= j < r ==> !OccursAt(s, t, j)) &&
      (r == -1 <==> forall j :: !OccursAt(s, t, j))
  {
    IndexFromFirst(s, t, 0);
  }

  /** The source's `s.IndexOf(t) >= 0`. */
  predicate Contains(s: string, t: string) {
    IndexOf(s, t) >= 0
  }

  lemma {:induction false} ContainsIffOccurs(s: string, t: string)
    ensures Contains(s, t) <==> exists i :: OccursAt(s, t, i)
  {
    IndexOfFirst(s, t);
    if Contains(s, t) {
      assert OccursAt(s, t, IndexOf(s, t));
    }
  }

  // ---------------------------------------------------------------------------
  // Identifier patterns

  predicate IsDigit(c: char) { '0' <= c <= '9' }

  /** The regex fragment [0-9]{1,2}: one or two ASCII digits. */
  predicate IsNumber12(n: string) {
    1 <= |n| <= 2 && forall i :: 0 <= i < |n| ==> IsDigit(n[i])
  }

  /** .NET's `$` (without Multiline) matches at the very end of the input or just
      before a final newline; this drops that one optional final newline. */
  function DropFinalNewline(s: string): (r: string)
    ensures s == r || s == r + "\n"
  {
    if |s| > 0 && s[|s| - 1] == '\n' then s[..|s| - 1] else s
  }

  /** A text ending in a digit, with or without one final newline, loses exactly that newline. */
  lemma DropFinalNewlineAfterDigit(w: string, s: string)
    requires |w| > 0 && IsDigit(w[|w| - 1])
    requires s == w || s == w + "\n"
    ensures DropFinalNewline(s) == w
  {
    if s == w + "\n" {
      assert s[..|s| - 1] == w;
    }
  }

  /** `id` matches ^Course(?<number>[0-9]{1,2}$) with group "number" equal to n. */
  ghost predicate CourseIdShape(id: string, n: string) {
    IsNumber12(n) && (id == "Course" + n || id == "Course" + n + "\n")
  }

  /** Every match of the course-ID pattern is read off the text without its final newline. */
  lemma CourseIdShapeBody(id: string)
    ensures forall n :: CourseIdShape(id, n) ==>
      var body := DropFinalNewline(id); |body| >= 6 && body[..6] == "Course" && body[6..] == n
  {
    forall n | CourseIdShape(id, n)
      ensures var body := DropFinalNewline(id); |body| >= 6 && body[..6] == "Course" && body[6..] == n
    {
      DropFinalNewlineAfterDigit("Course" + n, id);
    }
  }

  /** Course-ID match (PlanCheck.cs:234-240): Some(number) when the regex succeeds. */
  function ParseCourseId(id: string): Option<string> {
    var body := DropFinalNewline(id);
    if |body| >= 6 && body[..6] == "Course" && IsNumber12(body[6..]) then Some(body[6..]) else None
  }

  /** The course number is found exactly when the identifier has the pattern's shape. */
  lemma ParseCourseIdMeaning(id: string)
    ensures ParseCourseId(id).Some? ==> CourseIdShape(id, ParseCourseId(id).value)
    ensures forall n :: CourseIdShape(id, n) ==> ParseCourseId(id) == Some(n)
  {
    var body := DropFinalNewline(id);
    CourseIdShapeBody(id);
    if |body| >= 6 && body[..6] == "Course" && IsNumber12(body[6..]) {
      assert body == "Course" + body[6..];
    }
  }

  predicate NoDash(s: string) {
    forall i :: 0 <= i < |s| ==> s[i] != '-'
  }

  /** Index of the first '-' in s, or |s| when there is none. */
  function FirstDash(s: string): (k: nat)
    ensures k <= |s| && NoDash(s[..k])
    ensures k < |s| ==> s[k] == '-'
  {
    if |s| == 0 || s[0] == '-' then 0
    else
      var k := 1 + FirstDash(s[1..]);
      assert s[..k] == [s[0]] + s[1..][..k - 1];
      k
  }

  /** In `x + "-" + y` with x free of dashes, the first dash is the one after x. */
  lemma FirstDashOfJoin(x: string, y: string)
    requires NoDash(x)
    ensures var s := x + "-" + y; FirstDash(s) == |x| && s[..|x|] == x && s[|x| + 1..] == y
  {
    var s := x + "-" + y;
    var k := FirstDash(s);
    assert s[|x|] == '-';
    assert s[..|x|] == x;
    assert s[|x| + 1..] == y;
  }

  /** Splits s at its first '-': Some((before, after)), or None when s has no '-'. */
  function SplitAtDash(s: string): (r: Option<(string, string)>)
    ensures r.Some? ==> s == r.value.0 + "-" + r.value.1 && NoDash(r.value.0)
    ensures r.None? ==> NoDash(s)
  {
    var k := FirstDash(s);
    if k == |s| then
      assert s[..k] == s;
      None
    else
      assert s == s[..k] + "-" + s[k + 1..];
      Some((s[..k], s[k + 1..]))
  }

  /** Splitting `x + "-" + y` at its first dash gives back x and y. */
  lemma SplitAtDashOfJoin(x: string, y: string)
    requires NoDash(x)
    ensures SplitAtDash(x + "-" + y) == Some((x, y))
  {
    FirstDashOfJoin(x, y);
  }

  lemma NumberHasNoDash(n: string)
    requires IsNumber12(n)
    ensures NoDash(n)
  {
  }

  /** `id` matches ^(?<number>[0-9]{1,2})-[0-9]{1,2}-[0-9]{1,2}$ as a-b-c. */
  ghost predicate PlanIdShape(id: string, a: string, b: string, c: string) {
    IsNumber12(a) && IsNumber12(b) && IsNumber12(c) &&
    (id == a + "-" + b + "-" + c || id == a + "-" + b + "-" + c + "\n")
  }

  /** Plan-ID match (PlanCheck.cs:242-244): Some(number) with the leading group. */
  function ParsePlanId(id: string): Option<string> {
    var body := DropFinalNewline(id);
    match SplitAtDash(body)
    case None => None
    case Some(first) =>
      match SplitAtDash(first.1)
      case None => None
      case Some(second) =>
        if IsNumber12(first.0) && IsNumber12(second.0) && IsNumber12(second.1) then Some(first.0) else None
  }

  /** The leading number is found exactly when the identifier has the pattern's shape. */
  lemma ParsePlanIdMeaning(id: string)
    ensures ParsePlanId(id).Some? ==> exists b, c :: PlanIdShape(id, ParsePlanId(id).value, b, c)
    ensures forall a, b, c :: PlanIdShape(id, a, b, c) ==> ParsePlanId(id) == Some(a)
  {
    var body := DropFinalNewline(id);
    PlanIdShapeSplits(id, body);
    match SplitAtDash(body)
    case None =>
    case Some(first) =>
      match SplitAtDash(first.1)
      case None =>
      case Some(second) =>
        if IsNumber12(first.0) && IsNumber12(second.0) && IsNumber12(second.1) {
          assert body == first.0 + "-" + second.0 + "-" + second.1;
          assert PlanIdShape(id, first.0, second.0, second.1);
        }
  }

  /** Any match of the plan-ID pattern is found by splitting at the first two dashes. */
  lemma PlanIdShapeSplits(id: string, body: string)
    requires body == DropFinalNewline(id)
    ensures forall a, b, c :: PlanIdShape(id, a, b, c) ==>
      SplitAtDash(body) == Some((a, b + "-" + c)) && SplitAtDash(b + "-" + c) == Some((b, c))
  {
    forall a, b, c | PlanIdShape(id, a, b, c)
      ensures SplitAtDash(body) == Some((a, b + "-" + c)) && SplitAtDash(b + "-" + c) == Some((b, c))
    {
      var whole := a + "-" + b + "-" + c;
      DropFinalNewlineAfterDigit(whole, id);
      assert whole == a + "-" + (b + "-" + c);
      NumberHasNoDash(a);
      NumberHasNoDash(b);
      SplitAtDashOfJoin(a, b + "-" + c);
      SplitAtDashOfJoin(b, c);
    }
  }

  // ---------------------------------------------------------------------------
  // Dates

  /** The decimal value of a two-character digit string. */
  function TwoDigitValue(s: string): int
    requires |s| == 2
  {
    (s[0] as int - '0' as int) * 10 + (s[1] as int - '0' as int)
  }

  function Digit(d: int): (c: char)
    requires 0 <= d < 10
    ensures IsDigit(c) && c as int - '0' as int == d
  {
    ('0' as int + d) as char
  }

  /** A number below 100 rendered with two digits, as the format "MM" or "dd" does. */
  function TwoDigits(n: int): (s: string)
    requires 0 <= n < 100
    ensures |s| == 2 && IsDigit(s[0]) && IsDigit(s[1])
    ensures TwoDigitValue(s) == n
  {
    [Digit(n / 10), Digit(n % 10)]
  }

  /** creation.ToString("yyyyMMdd").Substring(2) for a year in 1..9999. */
  function YYMMDD(year: int, month: int, day: int): (s: string)
    requires 1 <= year <= 9999 && 1 <= month <= 12 && 1 <= day <= 31
    ensures |s| == 6 && forall i :: 0 <= i < 6 ==> IsDigit(s[i])
  {
    TwoDigits(year % 100) + TwoDigits(month) + TwoDigits(day)
  }

  /** Reading the six digits back gives the year modulo 100, the month and the day. */
  lemma YYMMDDRoundTrip(year: int, month: int, day: int)
    requires 1 <= year <= 9999 && 1 <= month <= 12 && 1 <= day <= 31
    ensures var s := YYMMDD(year, month, day);
      TwoDigitValue(s[0..2]) == year % 100 && TwoDigitValue(s[2..4]) == month && TwoDigitValue(s[4..6]) == day
  {
    var s := YYMMDD(year, month, day);
    assert s[0..2] == TwoDigits(year % 100);
    assert s[2..4] == TwoDigits(month);
    assert s[4..6] == TwoDigits(day);
  }
}
