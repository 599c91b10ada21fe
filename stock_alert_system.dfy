/** `StockAlertSystem` of `src/UI/stock_alert_system.py`: the polling loop
    of `monitor_stock`, one tick at a time, and the flag that stops it.

    A tick's environment is a `TickInput`: what the quote fetch returned (the
    close prices of the day's samples, oldest first, or an exception), whether
    each notification transport delivers, and whether a stop was requested
    while the tick ran or during the wait after it. The 60-second waits, the
    logging and the printing are not modelled. How `{change:.4f}` renders a
    percentage is the parameter `fmt`. */
module AlertSystem {
  import opened Common
  import Notification
  import Agent

  /** What `fetch_stock_data` gave: an exception, or the close prices of the
      history it returned (empty when the history is empty). */
  datatype Fetch = FetchRaised | Fetched(closes: seq<real>)

  datatype TickInput = TickInput(
    fetch: Fetch,
    emailDelivers: bool,
    smsDelivers: bool,
    stopRequested: bool)

  /** The fields of a `StockAlertSystem` that a tick reads. */
  datatype Settings = Settings(
    stock: string,
    threshold: real,
    notifyEmail: bool,
    notifySms: bool,
    recipientEmail: Option<string>,
    recipientPhone: Option<string>)

  /** The percentage change that crossed the threshold, and the subject and
      message built for it. */
  datatype Alert = Alert(change: real, subject: string, message: string)

  /** How a tick ended: the fetch gave no data (`continue`), an exception
      ended it in the `except` branch, or it ran to the end. */
  datatype TickStatus = NoData | Aborted | Completed

  /** What one tick did: how it ended, the alert it raised if any, and the
      email and SMS sends it attempted (`None`: not attempted). */
  datatype TickReport = TickReport(
    status: TickStatus,
    alert: Option<Alert>,
    email: Option<Notification.Dispatch<Notification.SmtpSubmission>>,
    sms: Option<Notification.Dispatch<Notification.SmsRequest>>)

  /** Python truthiness of `previous_close`: `None` and `0` are falsy. */
  predicate PriceTruthy(p: Option<real>)
  {
    p.Some? && p.value != 0.0
  }

  /** `((latest_price - previous_close) / previous_close) * 100`: the change
      relative to the previous price, in percent. */
  function ChangePercent(previous: real, latest: real): (change: real)
    requires previous != 0.0
    ensures change * previous == (latest - previous) * 100.0
    ensures latest == previous <==> change == 0.0
  {
    (latest - previous) / previous * 100.0
  }

  function Abs(x: real): real
  {
    if x < 0.0 then -x else x
  }

  /** `self.notify_email and self.recipient_email`. */
  predicate WantsEmail(s: Settings)
  {
    s.notifyEmail && Truthy(s.recipientEmail)
  }

  /** `self.notify_sms or self.recipient_phone`: a phone number alone is
      enough, whatever the SMS option says. */
  predicate WantsSms(s: Settings)
  {
    s.notifySms || Truthy(s.recipientPhone)
  }

  function Subject(stock: string): string
  {
    "Stock Alert for " + stock
  }

  function Message(stock: string, change: real, fmt: real -> string): string
  {
    "Price change of " + stock + ": " + fmt(change) + "%"
  }

  function Last(closes: seq<real>): real
    requires closes != []
  {
    closes[|closes| - 1]
  }

  /** True when the fetch returned at least one sample. */
  predicate HasData(f: Fetch)
  {
    f.Fetched? && f.closes != []
  }

  /** The alert condition: data arrived, the previous price is truthy, and
      the absolute change reaches the threshold. */
  predicate AlertDue(s: Settings, previous: Option<real>, f: Fetch)
  {
    HasData(f) && PriceTruthy(previous)
    && Abs(ChangePercent(previous.value, Last(f.closes))) >= s.threshold
  }

  /** One iteration of the `while self.monitoring` loop, from the value of
      `previous_close` before it to the report and the value after it. */
  function Step(s: Settings, env: Env, fmt: real -> string, previous: Option<real>, input: TickInput)
    : (r: (TickReport, Option<real>))
    // an empty history is skipped and a failed fetch is caught: nothing else happens
    ensures r.0.status == NoData <==> input.fetch == Fetched([])
    ensures !HasData(input.fetch) ==> r.0.alert.None? && r.0.email.None? && r.0.sms.None?
    // an alert fires exactly when the threshold is reached, never from a falsy previous price
    ensures r.0.alert.Some? <==> AlertDue(s, previous, input.fetch)
    ensures r.0.alert.Some? ==>
      var change := ChangePercent(previous.value, Last(input.fetch.closes));
      r.0.alert.value == Alert(change, Subject(s.stock), Message(s.stock, change, fmt))
    // email is sent to the one recipient exactly when it is enabled and there is a recipient
    ensures r.0.email.Some? <==> r.0.alert.Some? && WantsEmail(s)
    ensures r.0.email.Some? ==>
      r.0.email.value == Notification.SendEmail(env, r.0.alert.value.subject, r.0.alert.value.message,
                                                [s.recipientEmail.value], input.emailDelivers)
    // SMS goes out when enabled or a phone is set, unless the email send raised first
    ensures r.0.sms.Some? <==>
      r.0.alert.Some? && WantsSms(s) && !(r.0.email.Some? && r.0.email.value.Raises())
    ensures r.0.sms.Some? ==>
      r.0.sms.value == Notification.SendSms(env, r.0.alert.value.message, s.recipientPhone,
                                            input.smsDelivers)
    // any exception aborts the tick
    ensures r.0.status == Aborted <==>
      input.fetch.FetchRaised?
      || (r.0.email.Some? && r.0.email.value.Raises())
      || (r.0.sms.Some? && r.0.sms.value.Raises())
    // a tick that completes remembers the last close; any other leaves the previous price
    ensures r.0.status == Completed ==> r.1 == Some(Last(input.fetch.closes))
    ensures r.0.status != Completed ==> r.1 == previous
  {
    match input.fetch
    case FetchRaised => (TickReport(Aborted, None, None, None), previous)
    case Fetched(closes) =>
      if closes == [] then (TickReport(NoData, None, None, None), previous)
      else
        var latest := Last(closes);
        if !PriceTruthy(previous) then (TickReport(Completed, None, None, None), Some(latest))
        else
          var change := ChangePercent(previous.value, latest);
          if Abs(change) < s.threshold then (TickReport(Completed, None, None, None), Some(latest))
          else
            var alert := Alert(change, Subject(s.stock), Message(s.stock, change, fmt));
            var email :=
              if WantsEmail(s)
              then Some(Notification.SendEmail(env, alert.subject, alert.message,
                                               [s.recipientEmail.value], input.emailDelivers))
              else None;
            if email.Some? && email.value.Raises()
            then (TickReport(Aborted, Some(alert), email, None), previous)
            else
              var sms :=
                if WantsSms(s)
                then Some(Notification.SendSms(env, alert.message, s.recipientPhone, input.smsDelivers))
                else None;
              if sms.Some? && sms.value.Raises()
              then (TickReport(Aborted, Some(alert), email, sms), previous)
              else (TickReport(Completed, Some(alert), email, sms), Some(latest))
  }

  /** How many ticks run: up to and including the first one during which a
      stop was requested, or all of them. */
  function TicksUntilStop(inputs: seq<TickInput>): (n: nat)
    ensures n <= |inputs|
    ensures forall k :: 0 <= k < n - 1 ==> !inputs[k].stopRequested
    ensures n < |inputs| ==> 0 < n && inputs[n - 1].stopRequested
    ensures n == |inputs| ==> inputs == [] || inputs[n - 1].stopRequested
                               || forall k :: 0 <= k < n ==> !inputs[k].stopRequested
    decreases |inputs|
  {
    if inputs == [] then 0
    else if inputs[0].stopRequested then 1
    else 1 + TicksUntilStop(inputs[1..])
  }

  /** The loop of `monitor_stock` over a sequence of tick environments:
      the reports of the ticks that run and the final `previous_close`. */
  function Run(s: Settings, env: Env, fmt: real -> string, previous: Option<real>,
               inputs: seq<TickInput>): (r: (seq<TickReport>, Option<real>))
    ensures |r.0| == TicksUntilStop(inputs)
    decreases |inputs|
  {
    if inputs == [] then ([], previous)
    else
      var (report, next) := Step(s, env, fmt, previous, inputs[0]);
      if inputs[0].stopRequested then ([report], next)
      else
        var (reports, last) := Run(s, env, fmt, next, inputs[1..]);
        ([report] + reports, last)
  }

  /** A run whose first tick requests the stop is that one tick. */
  lemma RunStops(s: Settings, env: Env, fmt: real -> string, previous: Option<real>,
                 inputs: seq<TickInput>)
    requires inputs != [] && inputs[0].stopRequested
    ensures Run(s, env, fmt, previous, inputs).0 == [Step(s, env, fmt, previous, inputs[0]).0]
    ensures Run(s, env, fmt, previous, inputs).1 == Step(s, env, fmt, previous, inputs[0]).1
  {
  }

  /** A run whose first tick does not request the stop is that tick followed
      by the run of the rest from the price it leaves. */
  lemma RunContinues(s: Settings, env: Env, fmt: real -> string, previous: Option<real>,
                     inputs: seq<TickInput>)
    requires inputs != [] && !inputs[0].stopRequested
    ensures var (report, next) := Step(s, env, fmt, previous, inputs[0]);
      && Run(s, env, fmt, previous, inputs).0 == [report] + Run(s, env, fmt, next, inputs[1..]).0
      && Run(s, env, fmt, previous, inputs).1 == Run(s, env, fmt, next, inputs[1..]).1
  {
  }

  /** No report before position `i` is of a completed tick. */
  predicate NoneCompletedBefore(reports: seq<TickReport>, i: int)
  {
    forall j :: 0 <= j < i && j < |reports| ==> reports[j].status != Completed
  }

  /** Starting from a falsy previous price, no tick raises an alert before
      one tick has completed: in particular the first successful tick never
      alerts. */
  lemma {:induction false} NoAlertBeforeFirstCompletion(s: Settings, env: Env, fmt: real -> string,
                                                       previous: Option<real>, inputs: seq<TickInput>,
                                                       i: nat)
    requires !PriceTruthy(previous)
    requires i < |Run(s, env, fmt, previous, inputs).0|
    requires NoneCompletedBefore(Run(s, env, fmt, previous, inputs).0, i)
    ensures Run(s, env, fmt, previous, inputs).0[i].alert.None?
    decreases i
  {
    var (report, next) := Step(s, env, fmt, previous, inputs[0]);
    var reports := Run(s, env, fmt, previous, inputs).0;
    if i > 0 {
      assert !inputs[0].stopRequested;
      var rest := Run(s, env, fmt, next, inputs[1..]).0;
      assert reports == [report] + rest;
      assert report.status != Completed by {
        assert reports[0].status != Completed;
      }
      assert NoneCompletedBefore(rest, i - 1) by {
        forall j | 0 <= j < i - 1 && j < |rest|
          ensures rest[j].status != Completed
        {
          assert rest[j] == reports[j + 1];
        }
      }
      NoAlertBeforeFirstCompletion(s, env, fmt, next, inputs[1..], i - 1);
      assert reports[i] == rest[i - 1];
    }
  }

  /** Empty histories do nothing: a run of them reports `NoData` for every
      tick and leaves `previous_close` as it was. */
  lemma {:induction false} EmptyFetchesChangeNothing(s: Settings, env: Env, fmt: real -> string,
                                                    previous: Option<real>, inputs: seq<TickInput>)
    requires forall k :: 0 <= k < |inputs| ==> inputs[k].fetch == Fetched([])
    ensures Run(s, env, fmt, previous, inputs).1 == previous
    ensures forall r :: r in Run(s, env, fmt, previous, inputs).0 ==> r.status == NoData && r.alert.None?
    decreases |inputs|
  {
    if inputs != [] && !inputs[0].stopRequested {
      EmptyFetchesChangeNothing(s, env, fmt, previous, inputs[1..]);
    }
  }

  /** A rise and a fall of the same size from the same price give changes of
      the same magnitude, so the threshold treats them alike. */
  lemma ChangeIsSymmetric(previous: real, delta: real)
    requires previous != 0.0
    ensures ChangePercent(previous, previous + delta) == -ChangePercent(previous, previous - delta)
    ensures Abs(ChangePercent(previous, previous + delta)) == Abs(ChangePercent(previous, previous - delta))
  {
  }

  /** From 100.0 to 101.5 is a change of 1.5 percent: it alerts with a
      threshold of 1.0 and not with a threshold of 2.0. */
  lemma ThresholdScenarios(s: Settings, env: Env, fmt: real -> string, input: TickInput)
    requires input.fetch == Fetched([100.5, 101.5])
    ensures ChangePercent(100.0, 101.5) == 1.5
    ensures s.threshold == 1.0 ==> Step(s, env, fmt, Some(100.0), input).0.alert.Some?
    ensures s.threshold == 2.0 ==> Step(s, env, fmt, Some(100.0), input).0.alert.None?
  {
  }

  /** A price of zero is falsy: the tick after it compares nothing and cannot
      alert, where a division by zero would otherwise occur. */
  lemma ZeroPreviousPriceSkipped(s: Settings, env: Env, fmt: real -> string, input: TickInput)
    ensures Step(s, env, fmt, Some(0.0), input).0.alert.None?
  {
  }

  /** With the SMS option off, a recipient phone still makes an alert send an
      SMS to that phone (the condition is an `or`), unless an email send
      raised first; with email off, every alert sends one. */
  lemma SmsWithoutOptIn(s: Settings, env: Env, fmt: real -> string, previous: Option<real>,
                        input: TickInput)
    requires !s.notifySms && Truthy(s.recipientPhone)
    ensures var r := Step(s, env, fmt, previous, input).0;
      r.alert.Some? && !(r.email.Some? && r.email.value.Raises()) ==>
        && r.sms.Some?
        && r.sms.value == Notification.SendSms(env, r.alert.value.message, s.recipientPhone,
                                               input.smsDelivers)
    ensures var r := Step(s, env, fmt, previous, input).0;
      !WantsEmail(s) && r.alert.Some? ==> r.sms.Some?
  {
  }

  class StockAlertSystem {
    const stock: string
    const threshold: real
    const notifyEmail: bool
    const notifySms: bool
    const alertAgent: Agent.AlertAgent
    var monitoring: bool
    var recipientEmail: Option<string>
    var recipientPhone: Option<string>
    /** The local `previous_close` of `monitor_stock`, kept here so that a
        tick can be a method of its own. */
    var previousClose: Option<real>

    /** `StockAlertSystem(stock, threshold, notify_email, notify_sms)`; the
        `AlertAgent` it builds is passed in, already checked. */
    constructor (stock: string, threshold: real, notifyEmail: bool, notifySms: bool,
                 alertAgent: Agent.AlertAgent)
      ensures this.stock == stock && this.threshold == threshold
      ensures this.notifyEmail == notifyEmail && this.notifySms == notifySms
      ensures this.alertAgent == alertAgent
      ensures !monitoring && recipientEmail.None? && recipientPhone.None?
      ensures previousClose.None?
    {
      this.stock := stock;
      this.threshold := threshold;
      this.notifyEmail := notifyEmail;
      this.notifySms := notifySms;
      this.alertAgent := alertAgent;
      monitoring := false;
      recipientEmail := None;
      recipientPhone := None;
      previousClose := None;
    }

    function CurrentSettings(): Settings
      reads this
    {
      Settings(stock, threshold, notifyEmail, notifySms, recipientEmail, recipientPhone)
    }

    /** The body of the `while self.monitoring` loop, with its `try` and
        `except`. */
    method Tick(env: Env, fmt: real -> string, input: TickInput) returns (report: TickReport)
      modifies this`previousClose
      ensures (report, previousClose) == Step(CurrentSettings(), env, fmt, old(previousClose), input)
    {
      if input.fetch.FetchRaised? {
        return TickReport(Aborted, None, None, None);
      }
      var closes := input.fetch.closes;
      if |closes| == 0 {
        return TickReport(NoData, None, None, None);
      }
      var latest := closes[|closes| - 1];
      var alert: Option<Alert> := None;
      var email: Option<Notification.Dispatch<Notification.SmtpSubmission>> := None;
      var sms: Option<Notification.Dispatch<Notification.SmsRequest>> := None;
      if PriceTruthy(previousClose) {
        var change := (latest - previousClose.value) / previousClose.value * 100.0;
        if Abs(change) >= threshold {
          var subject := "Stock Alert for " + stock;
          var message := "Price change of " + stock + ": " + fmt(change) + "%";
          alert := Some(Alert(change, subject, message));
          if notifyEmail && Truthy(recipientEmail) {
            var recipients := [recipientEmail.value];
            var sent := Notification.SendEmail(env, subject, message, recipients, input.emailDelivers);
            email := Some(sent);
            if sent.Raises() {
              return TickReport(Aborted, alert, email, None);
            }
          }
          if notifySms || Truthy(recipientPhone) {
            var sent := Notification.SendSms(env, message, recipientPhone, input.smsDelivers);
            sms := Some(sent);
            if sent.Raises() {
              return TickReport(Aborted, alert, email, sms);
            }
          }
        }
      }
      previousClose := Some(latest);
      report := TickReport(Completed, alert, email, sms);
    }

    /** `monitor_stock`: forget the previous price, raise the flag, then tick
        until the flag is found lowered at the top of an iteration. A stop
        requested during a tick lowers the flag once that tick is over. */
    method MonitorStock(env: Env, fmt: real -> string, inputs: seq<TickInput>)
      returns (reports: seq<TickReport>)
      modifies this`monitoring, this`previousClose
      ensures reports == Run(CurrentSettings(), env, fmt, None, inputs).0
      ensures previousClose == Run(CurrentSettings(), env, fmt, None, inputs).1
      ensures monitoring <==> forall k :: 0 <= k < |inputs| ==> !inputs[k].stopRequested
    {
      previousClose := None;
      monitoring := true;
      reports := [];
      ghost var settings := CurrentSettings();
      var i := 0;
      assert inputs[i..] == inputs;
      while monitoring && i < |inputs|
        invariant 0 <= i <= |inputs|
        invariant CurrentSettings() == settings
        invariant monitoring <==> forall k :: 0 <= k < i ==> !inputs[k].stopRequested
        invariant monitoring ==>
          reports + Run(settings, env, fmt, previousClose, inputs[i..]).0
          == Run(settings, env, fmt, None, inputs).0
        invariant monitoring ==>
          Run(settings, env, fmt, previousClose, inputs[i..]).1 == Run(settings, env, fmt, None, inputs).1
        invariant !monitoring ==> reports == Run(settings, env, fmt, None, inputs).0
        invariant !monitoring ==> previousClose == Run(settings, env, fmt, None, inputs).1
        decreases |inputs| - i
      {
        ghost var rest := inputs[i..];
        assert rest[0] == inputs[i] && rest[1..] == inputs[i + 1..];
        ghost var previous := previousClose;
        ghost var before := reports;
        var report := Tick(env, fmt, inputs[i]);
        reports := reports + [report];
        if inputs[i].stopRequested {
          RunStops(settings, env, fmt, previous, rest);
          StopMonitoring();
        } else {
          RunContinues(settings, env, fmt, previous, rest);
          ConcatAssoc(before, [report], Run(settings, env, fmt, previousClose, inputs[i + 1..]).0);
        }
        i := i + 1;
      }
      if monitoring {
        assert inputs[i..] == [];
      }
    }

    /** `stop_monitoring`: lower the flag; the loop sees it at the top of its
        next iteration. */
    method StopMonitoring()
      modifies this`monitoring
      ensures !monitoring
    {
      monitoring := false;
    }
  }
}
