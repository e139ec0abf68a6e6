/**
 * The notification the consumer loop raises for a settled value: its body
 * text and the fixed fields of the desktop notification.
 */
module Notifier {
  import opened Options

  /** Rust's `u8`, the type the percentage is cast to. */
  type Byte = x: int | 0 <= x < 256

  /** Rust's `u32`, the type of the timeout option. */
  type U32 = x: int | 0 <= x < 0x1_0000_0000

  /** Fixed fields of every notification. */
  const AppName: string := "Blight notify"
  const NotificationId: int := 696969

  predicate IsDigit(c: char)
  {
    '0' <= c <= '9'
  }

  function DigitChar(d: nat): (c: char)
    requires d < 10
    ensures IsDigit(c) && (c == '0' <==> d == 0)
  {
    ('0' as int + d) as char
  }

  /** Decimal text of `n` as `{}` formats an unsigned integer. */
  function Decimal(n: nat): (s: string)
    ensures s != [] && forall i | 0 <= i < |s| :: IsDigit(s[i])
    ensures s[0] == '0' ==> n == 0
    ensures n < 10 ==> |s| == 1
    ensures n < 100 ==> |s| <= 2
    ensures n < 1000 ==> |s| <= 3
  {
    if n < 10 then [DigitChar(n)] else Decimal(n / 10) + [DigitChar(n % 10)]
  }

  /** The number a string of decimal digits denotes. */
  function DigitsValue(s: string): nat
    requires forall i | 0 <= i < |s| :: IsDigit(s[i])
  {
    if s == [] then 0
    else
      assert IsDigit(s[|s| - 1]);
      DigitsValue(s[..|s| - 1]) * 10 + (s[|s| - 1] as int - '0' as int)
  }

  /** `Decimal` loses nothing: reading the digits back gives the number. */
  lemma {:induction false} DecimalRoundTrip(n: nat)
    ensures DigitsValue(Decimal(n)) == n
    decreases n
  {
    if n >= 10 {
      var s := Decimal(n);
      assert s[..|s| - 1] == Decimal(n / 10);
      DecimalRoundTrip(n / 10);
    }
  }

  /** The notification body: `format!("{} {}%", message, percent)`. */
  function Body(message: string, percent: Byte): (b: string)
    ensures |message| + 3 <= |b| <= |message| + 5
    ensures b[..|message|] == message && b[|message|] == ' ' && b[|b| - 1] == '%'
    ensures forall i | |message| < i < |b| - 1 :: IsDigit(b[i])
  {
    message + " " + Decimal(percent) + "%"
  }

  /**
   * Reads the percentage back out of a body that starts with `message`:
   * a space, one to three digits without a leading zero, then `%`.
   */
  function PercentIn(message: string, body: string): Option<nat>
  {
    var n := |message|;
    if |body| < n + 3 || body[..n] != message || body[n] != ' ' || body[|body| - 1] != '%' then None
    else
      var digits := body[n + 1..|body| - 1];
      if |digits| > 3 || exists i | 0 <= i < |digits| :: !IsDigit(digits[i]) then None
      else if |digits| > 1 && digits[0] == '0' then None
      else Some(DigitsValue(digits))
  }

  /** The body carries exactly the percentage it was formatted from. */
  lemma BodyRoundTrip(message: string, percent: Byte)
    ensures PercentIn(message, Body(message, percent)) == Some(percent)
  {
    var b, n, d := Body(message, percent), |message|, Decimal(percent);
    assert b == message + [' '] + d + ['%'];
    assert b[..n] == message;
    assert b[n + 1..|b| - 1] == d;
    DecimalRoundTrip(percent);
  }

  /** Two percentages give two different bodies. */
  lemma BodyInjective(message: string, p: Byte, p': Byte)
    requires Body(message, p) == Body(message, p')
    ensures p == p'
  {
    BodyRoundTrip(message, p);
    BodyRoundTrip(message, p');
  }

  datatype Urgency = Low | Normal | Critical

  /** The icon: the one the user named, or a request to pick one automatically. */
  datatype Icon = Named(name: string) | Auto

  datatype Notification = Notification(
    appName: string,
    id: int,
    summary: string,
    body: string,
    urgency: Urgency,
    timeoutMs: U32,
    icon: Icon)

  /** The notification `notify` builds before handing it to the desktop. */
  function Compose(body: string, title: string, icon: Option<string>, timeoutMs: U32): (n: Notification)
    ensures n.id == NotificationId && n.appName == AppName && n.urgency == Low
    ensures n.summary == title && n.body == body && n.timeoutMs == timeoutMs
    ensures n.icon == if icon.Some? then Named(icon.value) else Auto
  {
    Notification(AppName, NotificationId, title, body, Low, timeoutMs,
                 if icon.Some? then Named(icon.value) else Auto)
  }
}
