/** `StockAlertGUI` of `src/UI/stock_alert_gui.py`, without its widgets: the
    checks `start_monitoring` makes before it starts a session, the hand-off
    of the checked values to a new `StockAlertSystem`, and the status text and
    the enabled state of the two buttons.

    `float()` on the threshold text is the parameter `parseFloat` (`None`
    where it raises `ValueError`); the probe fetch of the ticker is the
    parameter `probe`. The worker thread is not modelled: `RunAlertSystem` is
    what that thread runs. */
module AlertGui {
  import opened Common
  import Text
  import Agent
  import AlertSystem

  const StatusIdle: string := "Status: Idle"
  const StatusMonitoring: string := "Status: Monitoring..."
  const StatusStopped: string := "Status: Stopped"

  /** The raw contents of the form: four entries and two check boxes. */
  datatype Form = Form(
    ticker: string,
    threshold: string,
    notifyEmail: bool,
    notifySms: bool,
    recipientEmail: string,
    recipientPhone: string)

  /** Why `start_monitoring` returned without starting a session. */
  datatype StartError =
    | MissingTickerOrThreshold
    | MissingRecipientEmail
    | MissingRecipientPhone
    | InvalidThreshold
      // Building the probe's `StockAlertSystem` builds an `AlertAgent`, which
      // raises when the API key is unset; this happens outside any `try`.
    | AgentKeyMissing
    | NoDataForTicker
    | ProbeFailed

  /** The checked values handed to the new session. */
  datatype Config = Config(
    stock: string,
    threshold: real,
    notifyEmail: bool,
    notifySms: bool,
    recipientEmail: string,
    recipientPhone: string)

  /** `self.entry_stock.get().strip().upper()`. */
  function Ticker(form: Form): string
  {
    Text.Upper(Text.Strip(form.ticker))
  }

  function ThresholdText(form: Form): string { Text.Strip(form.threshold) }

  function EmailText(form: Form): string { Text.Strip(form.recipientEmail) }

  function PhoneText(form: Form): string { Text.Strip(form.recipientPhone) }

  predicate InputsPresent(form: Form)
  {
    Ticker(form) != [] && ThresholdText(form) != []
  }

  predicate RecipientsPresent(form: Form)
  {
    (form.notifyEmail ==> EmailText(form) != []) && (form.notifySms ==> PhoneText(form) != [])
  }

  predicate ThresholdValid(form: Form, parseFloat: string -> Option<real>)
  {
    parseFloat(ThresholdText(form)).Some? && parseFloat(ThresholdText(form)).value > 0.0
  }

  /** The guard-and-return chain of `start_monitoring`, in the order the
      checks are made: the first check that fails names the error. */
  function Validate(form: Form, parseFloat: string -> Option<real>, env: Env,
                    probe: string -> AlertSystem.Fetch): (r: Result<Config, StartError>)
    ensures r == Failure(MissingTickerOrThreshold) <==> !InputsPresent(form)
    ensures r == Failure(MissingRecipientEmail) <==>
      InputsPresent(form) && form.notifyEmail && EmailText(form) == []
    ensures r == Failure(MissingRecipientPhone) <==>
      InputsPresent(form) && !(form.notifyEmail && EmailText(form) == [])
      && form.notifySms && PhoneText(form) == []
    ensures r == Failure(InvalidThreshold) <==>
      InputsPresent(form) && RecipientsPresent(form) && !ThresholdValid(form, parseFloat)
    ensures r == Failure(AgentKeyMissing) <==>
      InputsPresent(form) && RecipientsPresent(form) && ThresholdValid(form, parseFloat)
      && Agent.NewAlertAgent(env).Failure?
    ensures r == Failure(ProbeFailed) <==>
      InputsPresent(form) && RecipientsPresent(form) && ThresholdValid(form, parseFloat)
      && Agent.NewAlertAgent(env).Success? && probe(Ticker(form)).FetchRaised?
    ensures r == Failure(NoDataForTicker) <==>
      InputsPresent(form) && RecipientsPresent(form) && ThresholdValid(form, parseFloat)
      && Agent.NewAlertAgent(env).Success? && probe(Ticker(form)) == AlertSystem.Fetched([])
    ensures r.Success? <==>
      InputsPresent(form) && RecipientsPresent(form) && ThresholdValid(form, parseFloat)
      && Agent.NewAlertAgent(env).Success? && AlertSystem.HasData(probe(Ticker(form)))
    // an accepted configuration has a ticker, a positive threshold, and a
    // recipient for each enabled channel
    ensures r.Success? ==>
      && r.value.stock != [] && r.value.threshold > 0.0
      && (r.value.notifyEmail ==> r.value.recipientEmail != [])
      && (r.value.notifySms ==> r.value.recipientPhone != [])
    ensures r.Success? ==>
      r.value == Config(Ticker(form), parseFloat(ThresholdText(form)).value,
                        form.notifyEmail, form.notifySms, EmailText(form), PhoneText(form))
  {
    var stock := Ticker(form);
    var threshold := ThresholdText(form);
    var email := EmailText(form);
    var phone := PhoneText(form);
    if stock == [] || threshold == [] then Failure(MissingTickerOrThreshold)
    else if form.notifyEmail && email == [] then Failure(MissingRecipientEmail)
    else if form.notifySms && phone == [] then Failure(MissingRecipientPhone)
    else
      var parsed := parseFloat(threshold);
      if parsed.None? || parsed.value <= 0.0 then Failure(InvalidThreshold)
      else if Agent.NewAlertAgent(env).Failure? then Failure(AgentKeyMissing)
      else
        match probe(stock)
        case FetchRaised => Failure(ProbeFailed)
        case Fetched(closes) =>
          if closes == [] then Failure(NoDataForTicker)
          else Success(Config(stock, parsed.value, form.notifyEmail, form.notifySms, email, phone))
  }

  /** The form with every entry stripped of surrounding whitespace. */
  function Trimmed(form: Form): Form
  {
    form.(ticker := Text.Strip(form.ticker), threshold := Text.Strip(form.threshold),
          recipientEmail := Text.Strip(form.recipientEmail),
          recipientPhone := Text.Strip(form.recipientPhone))
  }

  /** Whitespace around the entries never changes the outcome: the chain
      only ever looks at the stripped entries. */
  lemma ValidateSeesTrimmedEntries(form: Form, parseFloat: string -> Option<real>, env: Env,
                                   probe: string -> AlertSystem.Fetch)
    ensures Validate(Trimmed(form), parseFloat, env, probe) == Validate(form, parseFloat, env, probe)
  {
    var t := Trimmed(form);
    Text.StripIdempotent(form.ticker);
    Text.StripIdempotent(form.threshold);
    Text.StripIdempotent(form.recipientEmail);
    Text.StripIdempotent(form.recipientPhone);
    assert Ticker(t) == Ticker(form);
    assert ThresholdText(t) == ThresholdText(form);
    assert EmailText(t) == EmailText(form);
    assert PhoneText(t) == PhoneText(form);
  }

  /** The fields the new session gets: the checked values, with both
      recipients set (possibly to the empty string). */
  function SessionSettings(c: Config): AlertSystem.Settings
  {
    AlertSystem.Settings(c.stock, c.threshold, c.notifyEmail, c.notifySms,
                         Some(c.recipientEmail), Some(c.recipientPhone))
  }

  /** For a session started from the form, email is selected exactly when it
      was enabled, but SMS when it was enabled or a phone number was typed in.
      On a tick that alerts, email is attempted exactly when it was enabled,
      and SMS exactly when it was selected and no email send raised first. */
  lemma StartedSessionChannels(form: Form, parseFloat: string -> Option<real>, env: Env,
                               probe: string -> AlertSystem.Fetch, c: Config,
                               fmt: real -> string, previous: Option<real>,
                               input: AlertSystem.TickInput)
    requires Validate(form, parseFloat, env, probe) == Success(c)
    ensures AlertSystem.WantsEmail(SessionSettings(c)) <==> form.notifyEmail
    ensures AlertSystem.WantsSms(SessionSettings(c)) <==> form.notifySms || Text.Strip(form.recipientPhone) != []
    ensures var r := AlertSystem.Step(SessionSettings(c), env, fmt, previous, input).0;
      r.alert.Some? ==>
        && (r.email.Some? <==> form.notifyEmail)
        && (r.sms.Some? <==>
              (form.notifySms || Text.Strip(form.recipientPhone) != [])
              && !(r.email.Some? && r.email.value.Raises()))
  {
  }

  class StockAlertGui {
    var statusText: string
    var startEnabled: bool
    var stopEnabled: bool
    var alertSystem: AlertSystem.StockAlertSystem?

    /** The initial window: idle, start enabled, stop disabled, no session. */
    constructor ()
      ensures statusText == StatusIdle && startEnabled && !stopEnabled
      ensures alertSystem == null
    {
      statusText := StatusIdle;
      startEnabled := true;
      stopEnabled := false;
      alertSystem := null;
    }

    /** `start_monitoring`: on any failed check nothing changes; otherwise
        the window shows monitoring, the buttons swap, and a new session holds
        the checked values. */
    method StartMonitoring(form: Form, parseFloat: string -> Option<real>, env: Env,
                           probe: string -> AlertSystem.Fetch)
      returns (r: Result<Config, StartError>)
      modifies this
      ensures r == Validate(form, parseFloat, env, probe)
      ensures r.Failure? ==>
        && statusText == old(statusText) && startEnabled == old(startEnabled)
        && stopEnabled == old(stopEnabled) && alertSystem == old(alertSystem)
      ensures r.Success? ==> statusText == StatusMonitoring && !startEnabled && stopEnabled
      ensures r.Success? ==>
        && alertSystem != null && fresh(alertSystem)
        && alertSystem.CurrentSettings() == SessionSettings(r.value)
        && !alertSystem.monitoring && alertSystem.previousClose.None?
    {
      r := Validate(form, parseFloat, env, probe);
      if r.Failure? {
        return;
      }
      statusText := StatusMonitoring;
      startEnabled := false;
      stopEnabled := true;
      var agent := Agent.NewAlertAgent(env);
      var c := r.value;
      var system := new AlertSystem.StockAlertSystem(c.stock, c.threshold, c.notifyEmail, c.notifySms,
                                                     agent.value);
      system.recipientEmail := Some(c.recipientEmail);
      system.recipientPhone := Some(c.recipientPhone);
      alertSystem := system;
    }

    /** `stop_monitoring`: lower the session's flag if there is a session,
        then show stopped and swap the buttons back. */
    method StopMonitoring()
      modifies this, alertSystem
      ensures alertSystem == old(alertSystem)
      ensures alertSystem != null ==>
        && !alertSystem.monitoring
        && alertSystem.CurrentSettings() == old(alertSystem.CurrentSettings())
        && alertSystem.previousClose == old(alertSystem.previousClose)
      ensures statusText == StatusStopped && startEnabled && !stopEnabled
    {
      if alertSystem != null {
        alertSystem.StopMonitoring();
      }
      statusText := StatusStopped;
      startEnabled := true;
      stopEnabled := false;
    }

    /** `run_alert_system`: what the worker thread runs. Its status update
        follows the return of `monitor_stock`, which only a stop brings
        about, so the inputs contain a stop request. */
    method RunAlertSystem(system: AlertSystem.StockAlertSystem, env: Env, fmt: real -> string,
                          inputs: seq<AlertSystem.TickInput>)
      returns (reports: seq<AlertSystem.TickReport>)
      requires exists k :: 0 <= k < |inputs| && inputs[k].stopRequested
      modifies this, system`monitoring, system`previousClose
      ensures reports == AlertSystem.Run(system.CurrentSettings(), env, fmt, None, inputs).0
      ensures !system.monitoring
      ensures statusText == StatusStopped && startEnabled && !stopEnabled
      ensures alertSystem == old(alertSystem)
    {
      reports := system.MonitorStock(env, fmt, inputs);
      statusText := StatusStopped;
      startEnabled := true;
      stopEnabled := false;
    }
  }
}
