/** The bank-transfer payment page: a thirty-minute countdown, one second
    per tick, that sends the shopper back to checkout when it runs out; the
    `MM:SS` display and its colour; and the redirects for a missing order,
    for cancelling and for confirming payment. */
module PaymentInstructions {
  import opened Common
  import opened Text

  /** Thirty minutes, in seconds. */
  const TimerDuration: int := 30 * 60

  const CheckoutRoute: string := "/checkout"
  const HomeRoute: string := "/"

  /** A number as two or more decimal digits, zero-padded on the left. */
  function TwoDigits(n: nat): (s: string)
    ensures |s| >= 2
    ensures forall i :: 0 <= i < |s| ==> '0' <= s[i] <= '9'
  {
    var s := PadStart(NatToString(n), 2, '0');
    assert forall i :: 0 <= i < |s| ==> '0' <= s[i] <= '9' by {
      var d := NatToString(n);
      forall i | 0 <= i < |s|
        ensures '0' <= s[i] <= '9'
      {
        if i >= |s| - |d| {
          assert s[i] == s[|s| - |d|..][i - (|s| - |d|)];
        }
      }
    }
    s
  }

  /** Below one hundred the padded digits are exactly two and read back as the number. */
  lemma TwoDigitsValue(n: nat)
    requires n < 100
    ensures |TwoDigits(n)| == 2 && DigitsValue(TwoDigits(n)) == n
  {
    var d := NatToString(n);
    NatToStringRoundTrip(n);
    if n < 10 {
      assert PadStart(d, 2, '0') == ['0'] + d;
      LeadingZeroValue(d);
    }
  }

  /** Minutes and seconds, each padded to two digits, around a colon. */
  function Clock(mins: nat, secs: nat): (r: string)
    ensures |r| >= 5
    ensures mins < 100 && secs < 100 ==> |r| == 5 && r[2] == ':'
  {
    var r := TwoDigits(mins) + ":" + TwoDigits(secs);
    if mins < 100 && secs < 100 then
      TwoDigitsValue(mins);
      TwoDigitsValue(secs);
      r
    else r
  }

  /** Two numbers below one hundred read back from their clock display. */
  lemma ClockRoundTrip(mins: nat, secs: nat)
    requires mins < 100 && secs < 100
    ensures var r := Clock(mins, secs);
      DigitsValue(r[..2]) == mins && DigitsValue(r[3..]) == secs
  {
    var a, b := TwoDigits(mins), TwoDigits(secs);
    TwoDigitsValue(mins);
    TwoDigitsValue(secs);
    FieldsAroundColon(a, b);
  }

  /** The two fields of `a:b`, when `a` has two characters. */
  lemma FieldsAroundColon(a: string, b: string)
    requires |a| == 2
    ensures (a + ":" + b)[..2] == a && (a + ":" + b)[3..] == b
  {
    var r := a + ":" + b;
    assert r[..2] == a;
    assert r[3..] == b;
  }

  /** `formatTime(seconds)`: the whole minutes and the remaining seconds. */
  function FormatTime(seconds: nat): (r: string)
    ensures |r| >= 5
    ensures seconds < 100 * 60 ==> |r| == 5 && r[2] == ':'
  {
    Clock(seconds / 60, seconds % 60)
  }

  /** Below one hundred minutes the display reads back as the time left:
      minutes times sixty plus seconds, with the seconds below sixty. */
  lemma FormatTimeRoundTrip(seconds: nat)
    requires seconds < 100 * 60
    ensures var r := FormatTime(seconds);
      var mm := DigitsValue(r[..2]);
      var ss := DigitsValue(r[3..]);
      mm * 60 + ss == seconds && ss < 60
  {
    ClockRoundTrip(seconds / 60, seconds % 60);
  }

  /** Zero shows as "00". */
  lemma TwoDigitsZero()
    ensures TwoDigits(0) == "00"
  {
    assert DigitChar(0) == '0';
    assert NatToString(0) == "0";
    assert PadStart("0", 2, '0') == "00";
  }

  /** Thirty shows as "30". */
  lemma TwoDigitsThirty()
    ensures TwoDigits(30) == "30"
  {
    assert DigitChar(3) == '3' && DigitChar(0) == '0';
    assert NatToString(3) == "3";
    assert NatToString(30) == NatToString(3) + [DigitChar(0)] == "30";
  }

  /** The countdown's start and end displays. */
  lemma StartAndEndDisplays()
    ensures FormatTime(TimerDuration) == "30:00"
    ensures FormatTime(0) == "00:00"
  {
    assert TimerDuration / 60 == 30 && TimerDuration % 60 == 0;
    TwoDigitsZero();
    TwoDigitsThirty();
    assert FormatTime(TimerDuration) == Clock(30, 0) == TwoDigits(30) + ":" + TwoDigits(0);
    assert FormatTime(0) == Clock(0, 0) == TwoDigits(0) + ":" + TwoDigits(0);
  }

  datatype TimerColor = Destructive | Amber | Primary

  /** `getTimerColor()`: red in the last minute, amber in the last five, primary before. */
  function Color(timeLeft: int): (c: TimerColor)
    ensures c == Destructive <==> timeLeft <= 60
    ensures c == Amber <==> 60 < timeLeft <= 300
    ensures c == Primary <==> timeLeft > 300
  {
    if timeLeft <= 60 then Destructive
    else if timeLeft <= 300 then Amber
    else Primary
  }

  /** The page renders only with an order id (`!orderId` renders nothing). */
  function HasOrder(orderId: Option<string>): (b: bool)
    ensures b <==> orderId.Some? && orderId.value != ""
  {
    orderId.Some? && orderId.value != ""
  }

  /** The page: the seconds left, and the routes it has navigated to, in order. */
  class PaymentPage {
    const orderId: Option<string>
    var timeLeft: int
    var navigations: seq<string>

    /** Mounting: the countdown is full, and a missing order id sends the
        shopper straight back to checkout. */
    constructor (orderId: Option<string>)
      ensures this.orderId == orderId && timeLeft == TimerDuration
      ensures navigations == if HasOrder(orderId) then [] else [CheckoutRoute]
    {
      this.orderId := orderId;
      timeLeft := TimerDuration;
      navigations := if HasOrder(orderId) then [] else [CheckoutRoute];
    }

    /** An interval is scheduled exactly while time is left and the page is
        still shown: any navigation unmounts the page, and the effect's
        cleanup clears the interval. */
    function Running(): (b: bool)
      reads this
      ensures b <==> timeLeft > 0 && navigations == []
    {
      timeLeft > 0 && navigations == []
    }

    /** One tick of the scheduled interval takes one second off; when that
        leaves none, the expiry effect goes back to checkout and schedules no
        further tick. */
    method Tick()
      requires Running()
      modifies this
      ensures timeLeft == old(timeLeft) - 1 && timeLeft >= 0
      ensures navigations == old(navigations) + if timeLeft == 0 then [CheckoutRoute] else []
      ensures Running() <==> timeLeft != 0
    {
      timeLeft := timeLeft - 1;
      if timeLeft <= 0 {
        navigations := navigations + [CheckoutRoute];
      }
    }

    /** "Cancel Order" on the shown page returns to checkout, which ends the countdown. */
    method Cancel()
      requires navigations == []
      modifies this
      ensures navigations == [CheckoutRoute] && timeLeft == old(timeLeft)
      ensures !Running()
    {
      navigations := navigations + [CheckoutRoute];
    }

    /** "I've Paid" on the shown page goes to the home page, which ends the countdown. */
    method ConfirmPaid()
      requires navigations == []
      modifies this
      ensures navigations == [HomeRoute] && timeLeft == old(timeLeft)
      ensures !Running()
    {
      navigations := navigations + [HomeRoute];
    }
  }

  /** Left alone, a running countdown expires after exactly as many ticks as
      it had seconds left, and only the last tick navigates: to checkout. */
  method RunToExpiry(page: PaymentPage) returns (ticks: nat)
    requires page.Running()
    modifies page
    ensures ticks == old(page.timeLeft)
    ensures page.timeLeft == 0 && !page.Running()
    ensures page.navigations == [CheckoutRoute]
  {
    ticks := 0;
    while page.Running()
      invariant page.timeLeft >= 0
      invariant ticks + page.timeLeft == old(page.timeLeft)
      invariant page.timeLeft > 0 ==> page.navigations == []
      invariant page.timeLeft == 0 ==> page.navigations == [CheckoutRoute]
      decreases page.timeLeft
    {
      page.Tick();
      ticks := ticks + 1;
    }
  }

  /** A page opened without an order goes straight back to checkout and never counts down. */
  method OpenWithoutOrder(orderId: Option<string>) returns (page: PaymentPage)
    requires !HasOrder(orderId)
    ensures page.navigations == [CheckoutRoute] && !page.Running()
  {
    page := new PaymentPage(orderId);
  }

  /** From a freshly opened page with an order, the countdown takes 1800 ticks. */
  method FullCountdown(orderId: string) returns (ticks: nat)
    requires orderId != ""
    ensures ticks == 1800
  {
    var page := new PaymentPage(Some(orderId));
    ticks := RunToExpiry(page);
  }
}
