# Stock alert monitor — a Dafny model

This project models the core of a stock alert system. The system polls a quote
source for one ticker once a minute. It compares the latest close price with the
one seen on the previous successful poll. When the absolute change in percent
reaches a threshold, it sends an email and/or an SMS. A small window collects the
ticker, the threshold and the recipients. It checks them and starts the polling
loop on a worker thread. A stop button ends the loop.

The model covers four source files, one Dafny module each, plus two helper modules:

- `AlertSystem` (`stock_alert_system.dfy`) models the `StockAlertSystem` class.
  - It is a Dafny class with the `monitoring` flag, the two recipient fields, and `previous_close` (a local of `monitor_stock` in the source, kept as a field so that one tick can be a method).
  - `Tick` runs one loop iteration and `MonitorStock` runs the loop over a finite sequence of tick environments.
  - `Tick` is proved equal to the pure function `Step`, and `MonitorStock` to `Run`, which repeats `Step` until the first stop request.
  - `Step` carries the per-tick promises as postconditions, and lemmas about `Run` state what holds across ticks.
- `AlertGui` (`stock_alert_gui.dfy`) models the window.
  - The checks of `start_monitoring` become the function `Validate`, which returns the first failing check or the accepted configuration.
  - The hand-off to a new session and the status and button changes are methods of a class.
- `Notification` (`notification.dfy`) models the two senders.
  - Each one checks its credentials, then builds what it hands to its transport.
  - The transport's success or failure is an input. A failure propagates to the caller.
- `Agent` (`alert_agent.dfy`) models the API-key check of `AlertAgent` and the text block that `analyze_stock_changes` builds.
  - The block is built by nested loops, which are proved against a recursive definition.
- `Text` (`text.dfy`) holds `str.strip`, `str.upper`, `str.capitalize`, decimal rendering and `str.join`. Case mapping covers ASCII only.
- `Common` (`common.dfy`) holds `Option`, `Result`, the process environment and Python string truthiness.

Prices and percentages are `real`. These are the behaviours the model follows from the code:

- SMS is selected when the SMS option is on **or** a phone number is set (`stock_alert_system.py:83`). Email needs the option **and** a recipient (`:76`). So a phone number typed into the form selects SMS even with the SMS box unchecked, and an alert then sends it unless an email send raised first (`AlertGui.StartedSessionChannels`). The line that logs "Alert sent" (`:88`) uses `and`.
- An email send that raises takes the whole tick to the `except` branch (`:95-97`). So no SMS is tried, and `previous_close` keeps its old value.
- A previous price of `0` is falsy (`:56`). The tick after it compares nothing, so there is no division by zero.
- `monitor_stock` sets `monitoring` to true when it starts (`:39`). A stop requested before that line runs is therefore overwritten. `MonitorStock` models this.
- `start_monitoring` builds a temporary `StockAlertSystem` at `stock_alert_gui.py:107`, outside any `try`. Its `AlertAgent` raises when `OPENAI_API_KEY` is unset or empty. That exception leaves the window unchanged (`StartError.AgentKeyMissing`).

## Model

| member | source | states |
|---|---|---|
| `AlertSystem.StockAlertSystem.constructor` | src/UI/stock_alert_system.py:17-27 | A new system keeps the given ticker, threshold and options. It is not monitoring, and both recipients are unset (`None`). |
| `AlertSystem.ChangePercent` | src/UI/stock_alert_system.py:57 | The change is the difference between the prices in percent of the previous price: `change * previous == (latest - previous) * 100`. It is zero exactly when the price did not move. |
| `AlertSystem.Step` | src/UI/stock_alert_system.py:43-97 | One tick. An empty history gives `NoData` and a failed fetch aborts, and neither alerts, sends or changes `previous_close`. An alert fires iff data arrived, the previous price is truthy and the absolute change reaches the threshold. The compared price is the last close. Email is attempted iff the alert fired and email is enabled with a recipient, and it goes to that one recipient. SMS is attempted iff the alert fired, SMS is enabled or a phone is set, and no email send raised first. The tick aborts iff the fetch or a send raised. A completed tick stores the last close, and any other tick keeps the previous price. |
| `AlertSystem.StockAlertSystem.Tick` | src/UI/stock_alert_system.py:43-97 | The imperative loop body (the `try`, its early `continue`, and the `except`) produces exactly the report and the new `previous_close` that `Step` gives. |
| `AlertSystem.TicksUntilStop` | src/UI/stock_alert_system.py:42 | The number of ticks that run: up to and including the first tick during which a stop was requested, or all of them if none was. |
| `AlertSystem.Run` | src/UI/stock_alert_system.py:42-97 | The loop yields one report per tick that runs, exactly `TicksUntilStop` of them. No tick runs after the one in which a stop was requested. |
| `AlertSystem.StockAlertSystem.MonitorStock` | src/UI/stock_alert_system.py:37-97 | Starts with `previous_close` unset and the flag raised. The reports and the final `previous_close` are those of `Run`. The flag is still raised iff no stop was requested. A tick in progress always completes, because the flag is read only between ticks. |
| `AlertSystem.StockAlertSystem.StopMonitoring` | src/UI/stock_alert_system.py:99-102 | Lowers the `monitoring` flag and changes nothing else. |
| `AlertSystem.NoAlertBeforeFirstCompletion` | src/UI/stock_alert_system.py:38-61 | From an unset (or zero) previous price, no tick alerts until a tick has completed. In particular the first successful tick never alerts. |
| `AlertSystem.EmptyFetchesChangeNothing` | src/UI/stock_alert_system.py:46-50 | Any run of empty histories reports `NoData` with no alert for every tick and leaves `previous_close` as it was. |
| `AlertSystem.ChangeIsSymmetric` | src/UI/stock_alert_system.py:57-61 | A rise and a fall of the same size from the same price give opposite changes of equal magnitude, so the threshold treats them alike. |
| `AlertSystem.ThresholdScenarios` | src/UI/stock_alert_system.py:57-61 | From 100.0 to 101.5 the change is 1.5 percent. A tick alerts with threshold 1.0 and does not with threshold 2.0. |
| `AlertSystem.ZeroPreviousPriceSkipped` | src/UI/stock_alert_system.py:56 | A previous price of 0 never leads to an alert, whatever the new price. |
| `AlertSystem.SmsWithoutOptIn` | src/UI/stock_alert_system.py:76-97 | With the SMS option off, a set phone number still makes an alert send an SMS to that phone, unless an email send raised first. With email off, every alert sends one. |
| `AlertGui.Validate` | src/UI/stock_alert_gui.py:74-117 | The ordered checks, each rejecting exactly when every earlier check passed and it fails. First an empty ticker or threshold, then email enabled without a recipient, then SMS enabled without a phone, then a threshold that does not parse or is at most 0, then a missing API key, then a probe fetch that raises, then one that returns no data. Acceptance holds iff all pass. An accepted configuration has the stripped, upper-cased ticker, the parsed threshold, both options and the stripped recipients. Its ticker is non-empty, its threshold positive, and each enabled channel has a recipient. |
| `AlertGui.ValidateSeesTrimmedEntries` | src/UI/stock_alert_gui.py:75-80 | Whitespace around the entries never changes the outcome: validating the stripped form gives the same result. |
| `AlertGui.StartedSessionChannels` | src/UI/stock_alert_system.py:76-97 | For a session started from the form, email is selected iff the email box was checked, and SMS iff the SMS box was checked or a phone number was entered. On a tick that alerts, email is attempted iff its box was checked. SMS is attempted iff it was selected and no email send raised first. |
| `AlertGui.StockAlertGui.constructor` | src/UI/stock_alert_gui.py:59-72 | The window starts idle, with start enabled, stop disabled and no session. |
| `AlertGui.StockAlertGui.StartMonitoring` | src/UI/stock_alert_gui.py:74-132 | The result is `Validate`'s. On a failed check the status, the buttons and the session are unchanged. On success the status shows monitoring, start is disabled and stop enabled. A fresh, not yet monitoring session then holds the checked ticker, threshold and options, with both recipients set to the stripped entries. |
| `AlertGui.StockAlertGui.StopMonitoring` | src/UI/stock_alert_gui.py:134-141 | Lowers the flag of the current session if there is one and changes nothing else in it. Then it always shows stopped, enables start and disables stop. |
| `AlertGui.StockAlertGui.RunAlertSystem` | src/UI/stock_alert_gui.py:143-149 | Runs the session's loop to its end, which leaves the flag lowered, with the reports of `Run`. Then it shows stopped and swaps the buttons back. |
| `Notification.SendEmail` | src/Helpers/notification.py:21-55 | Rejects (`ValueError`, no transport call) iff the sender address or password is unset or empty. Otherwise it hands the SMTP server `smtp.gmail.com:465` a submission. The submission logs in as the sender and goes from the sender to exactly the given recipients. Its message has the given subject and body, `From` = sender and `To` = the recipients joined with `", "`. The call raises iff it was rejected or the transport failed. |
| `Notification.SendSms` | src/Helpers/notification.py:57-87 | Rejects iff the account SID, auth token or sender number is unset or empty. Otherwise it hands the transport the credentials and `body` = message, `from_` = sender number, `to` = the given phone. The call raises iff it was rejected or the transport failed. |
| `Notification.SingleRecipientHeader` | src/Helpers/notification.py:46 | With one recipient, the `To` header is exactly that address. |
| `Notification.ToHeaderExtends` | src/Helpers/notification.py:46 | Adding recipients extends the `To` header by `", "` and the new addresses joined the same way. |
| `Agent.NewAlertAgent` | src/Agents/Alert_agent/alert_agent.py:19-25 | Construction succeeds iff `OPENAI_API_KEY` is set and non-empty, and the agent keeps that key. Otherwise it fails with the missing-key error. |
| `Agent.PointsAppend` | src/Agents/Alert_agent/alert_agent.py:33-34 | Adding a value adds one line at the end, numbered one after the values before it. So the value at position `i` is printed as `"  Point " + (i + 1) + ": " + value + "\n"`. |
| `Agent.FormattedAppend` | src/Agents/Alert_agent/alert_agent.py:31-35 | The text of a concatenation of mappings is the concatenation of their texts. Each key contributes its own block, in iteration order. |
| `Agent.AppendPoints` | src/Agents/Alert_agent/alert_agent.py:33-34 | The inner loop appends exactly the numbered lines of all the values, from 1. |
| `Agent.FormatStockData` | src/Agents/Alert_agent/alert_agent.py:30-35 | The nested loops build exactly `Formatted`. For each key in order, that is the capitalized key and `":\n"`, its numbered value lines, and one `"\n"`. An empty mapping gives the empty string. |
| `Agent.AnalyzeStockChanges` | src/Agents/Alert_agent/alert_agent.py:27-54 | The request asks model `gpt-4` with the analyst system message, 500 tokens, one choice, no stop sequence and temperature 0.5. Its user message is the fixed prefix followed by the formatted data. A failing service call is re-raised, and otherwise the stripped reply is returned. |
| `Agent.EmptyDataPrompt` | src/Agents/Alert_agent/alert_agent.py:30-37 | With no data, the prompt is the fixed prefix alone. |
| `Text.StripSpec` | src/UI/stock_alert_gui.py:75-80 | `strip()` gives an empty result iff the entry is all whitespace. Otherwise the result starts and ends with non-whitespace. The entry is the result with only whitespace before it and only whitespace after it. |
| `Text.StripIdempotent` | src/UI/stock_alert_gui.py:75-80 | Stripping a stripped entry changes nothing. |
| `Text.Upper` | src/UI/stock_alert_gui.py:75 | `upper()` keeps the length, leaves no lower-case letter, and changes each character only in case. |
| `Text.Capitalize` | src/Agents/Alert_agent/alert_agent.py:32 | `capitalize()` keeps the length. The first character is not lower-case, no later character is upper-case, and each character changes only in case. |
| `Text.Decimal` | src/Agents/Alert_agent/alert_agent.py:34 | The point number is printed as digits only, with no leading zero unless it is zero. |
| `Text.DecimalRoundTrip` | src/Agents/Alert_agent/alert_agent.py:34 | Reading the printed point number back gives the number. |
| `Text.JoinAppend` | src/Helpers/notification.py:46 | Joining two non-empty lists is joining each and putting one separator between them. |

## Left out

- The quote fetch (`yahooquery` history, DataFrames) is left out. A fetch is given as an exception or the list of close prices, oldest first.
- The 60-second waits, logging, printing, `.env` loading and warning filters are left out. None of them changes the state the model tracks.
- The worker thread and its interleaving with the stop button are left out. A stop request is a per-tick input that the loop observes between ticks.
- The tkinter widgets, message boxes and main loop are left out. Only the status text and the enabled state of the two buttons are kept. The `alert_thread` field is not modelled.
- The SMTP, Twilio and chat-completion services are left out. Each is an input saying whether the call succeeds, or what the chat service replied.
- IEEE floating point is left out: prices and percentages are exact reals. NaN and infinite thresholds are not modelled.
- `float()` on the threshold text is left out. It is the parameter `parseFloat`.
- The rendering of `{change:.4f}` and of `f"{val}"` is left out. These are the parameters `fmt` and `show`.
- `str.upper`, `str.lower` and `str.capitalize` map ASCII letters only. Characters whose case mapping changes the length (such as `ß`) are not modelled.
- `AlertSystem.StockAlertSystem.MonitorStock` runs over a finite sequence of tick inputs. If none requests a stop, it returns with the flag still raised, where the source would keep polling.
- `AlertGui.StockAlertGui.RunAlertSystem` requires a stop request among its inputs. Its code after `monitor_stock` runs only once a stop has ended the loop.
- The analysis call in `monitor_stock` is commented out in the source and is not modelled. `AnalyzeStockChanges` takes the mapping as the caller gives it.
- `AlertSystem.StockAlertSystem.constructor` takes an already built `AlertAgent`. The key check that `AlertAgent()` makes inside the source constructor is modelled at its caller (`AlertGui.Validate`, `AgentKeyMissing`). The assignment of the key to the global `openai.api_key` is not modelled.
