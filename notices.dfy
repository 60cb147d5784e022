/** The user-facing notices App.tsx raises, and the welcome-back check of
    the load. */
module Notices {
  import opened Types
  import opened Profile

  datatype Notice =
    | WelcomeBack(name: string, soberDays: nat)
    | SupportOnStandby
    | LessonDone
    | SelfCareLogged
    | ReflectionSaved

  predicate IsDigit(c: char)
  {
    '0' <= c <= '9'
  }

  /** The number a string of decimal digits denotes, most significant first. */
  function DigitsValue(s: string): nat
    requires forall i :: 0 <= i < |s| ==> IsDigit(s[i])
  {
    if s == [] then 0
    else
      var last := s[|s| - 1];
      assert IsDigit(last);
      10 * DigitsValue(s[..|s| - 1]) + (last as int - '0' as int)
  }

  /** The decimal digits of `n`, most significant first: at least one digit,
      and no leading zero unless `n` is 0 itself. */
  function Decimal(n: nat): (s: string)
    ensures |s| >= 1
    ensures forall i :: 0 <= i < |s| ==> IsDigit(s[i])
    ensures s[0] == '0' ==> n == 0 && s == "0"
  {
    var digit := "0123456789"[n % 10];
    if n < 10 then [digit] else Decimal(n / 10) + [digit]
  }

  /** Reading the decimal digits of `n` back gives `n`. */
  lemma {:induction false} DecimalRoundTrip(n: nat)
    ensures DigitsValue(Decimal(n)) == n
    decreases n
  {
    var s := Decimal(n);
    assert s[..|s| - 1] == if n < 10 then [] else Decimal(n / 10);
    if n >= 10 {
      DecimalRoundTrip(n / 10);
    }
  }

  /** The text shown for a notice. The welcome text carries the user's name
      right after its greeting and, after the next phrase, the sober count in
      decimal. */
  function Message(n: Notice): (m: string)
    ensures n.WelcomeBack? ==>
      var name, digits := n.name, Decimal(n.soberDays);
      && |m| >= 31 + |name| + |digits|
      && m[..14] == "Welcome back, "
      && m[14..14 + |name|] == name
      && m[14 + |name|..31 + |name|] == ". Remember: your "
      && m[31 + |name|..31 + |name| + |digits|] == digits
  {
    match n
    case WelcomeBack(name, days) =>
      "Welcome back, " + name + ". Remember: your " + Decimal(days)
      + " wins haven't gone away. Resilience is built on returning."
    case SupportOnStandby => "Trust Bubble notified: Support is on standby."
    case LessonDone => "Lesson Completed! Resilience +5"
    case SelfCareLogged => "Self-Care Logged. Your stability is your strength."
    case ReflectionSaved => "Reflection Saved to the Vault."
  }

  /** The welcome text reports the user's sober count: the digits at its
      counter position read back as that count. */
  lemma WelcomeMessageReportsCount(name: string, soberDays: nat)
    ensures var m, k := Message(WelcomeBack(name, soberDays)), |Decimal(soberDays)|;
      && (forall i :: 31 + |name| <= i < 31 + |name| + k ==> IsDigit(m[i]))
      && DigitsValue(m[31 + |name|..31 + |name| + k]) == soberDays
  {
    DecimalRoundTrip(soberDays);
  }

  /** The notice a load raises for a returning user: more than ten sober
      days, and more than two days (measured as a real quotient) since the
      newest check-in. */
  function WelcomeNotice(u: UserProfile, checkIns: seq<CheckIn>, now: int): (n: Option<Notice>)
    ensures n.Some? <==> |checkIns| > 0 && u.totalSoberDays > 10 && now - checkIns[0].date > 2 * DayMs
    ensures n.Some? ==> n.value == WelcomeBack(u.name, u.totalSoberDays)
  {
    if |checkIns| > 0 && u.totalSoberDays > 10 then
      var diffDays := (now - checkIns[0].date) as real / DayMs as real;
      assert diffDays > 2.0 <==> now - checkIns[0].date > 2 * DayMs;
      if diffDays > 2.0 then Some(WelcomeBack(u.name, u.totalSoberDays)) else None
    else None
  }
}
