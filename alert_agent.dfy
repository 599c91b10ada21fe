/** `AlertAgent` of `src/Agents/Alert_agent/alert_agent.py`: the API-key
    guard of its constructor, and the text block `analyze_stock_changes`
    builds from a mapping of series names to values before asking the chat
    service for an analysis. The service is abstract: the caller gives its
    reply, or `None` when the call raised. How a value is printed (`f"{val}"`)
    is the parameter `show`. */
module Agent {
  import opened Common
  import Text

  const ApiKeyVar: string := "OPENAI_API_KEY"
  const PromptPrefix: string := "Analyze the following stock changes and provide insights:\n"
  const ChatModel: string := "gpt-4"
  const SystemContent: string := "You are a Stock Alert Analyst."
  const MaxTokens: nat := 500
  const Choices: nat := 1
  const Temperature: real := 0.5

  /** The pieces `analyze_stock_changes` writes around keys and values. */
  const KeySuffix: string := ":\n"
  const PointPrefix: string := "  Point "
  const PointSeparator: string := ": "
  const LineEnd: string := "\n"

  datatype AlertAgent = AlertAgent(apiKey: string)

  datatype AgentError =
    | ApiKeyMissing   // `ValueError` from the constructor
    | ServiceFailed   // the chat call raised; re-raised unchanged

  /** The chat-completion request: model, the two messages, and the
      sampling settings (number of choices, stop sequence, temperature). */
  datatype ChatRequest = ChatRequest(
    model: string, systemContent: string, userContent: string,
    maxTokens: nat, choices: nat, stop: Option<string>, temperature: real)

  /** `AlertAgent()`: raises `ValueError` when the key is unset or empty. */
  function NewAlertAgent(env: Env): (r: Result<AlertAgent, AgentError>)
    ensures r.Success? <==> Truthy(GetEnv(env, ApiKeyVar))
    ensures r.Success? ==> r.value.apiKey == env[ApiKeyVar] && r.value.apiKey != []
    ensures r.Failure? ==> r.error == ApiKeyMissing
  {
    if Truthy(GetEnv(env, ApiKeyVar)) then Success(AlertAgent(env[ApiKeyVar]))
    else Failure(ApiKeyMissing)
  }

  /** The line for one value, numbered `index`. */
  function PointLine(index: nat, value: string): string
  {
    PointPrefix + Text.Decimal(index) + PointSeparator + value + LineEnd
  }

  /** The lines for `values`, numbered from `first` on. */
  function PointsFrom<V>(values: seq<V>, show: V -> string, first: nat): string
    decreases |values|
  {
    if values == [] then ""
    else PointLine(first, show(values[0])) + PointsFrom(values[1..], show, first + 1)
  }

  /** One key's block: its capitalized name and a colon, its values
      numbered from 1, and an empty line. */
  function Block<V>(key: string, values: seq<V>, show: V -> string): string
  {
    Text.Capitalize(key) + KeySuffix + PointsFrom(values, show, 1) + LineEnd
  }

  /** `formatted_data`: the blocks of all keys, in iteration order. */
  function Formatted<V>(data: seq<(string, seq<V>)>, show: V -> string): string
    decreases |data|
  {
    if data == [] then "" else Block(data[0].0, data[0].1, show) + Formatted(data[1..], show)
  }

  /** Appending a value appends one line, numbered after those already
      there: the value at position `i` carries the number `first + i`. */
  lemma {:induction false} PointsAppend<V>(values: seq<V>, v: V, show: V -> string, first: nat)
    ensures PointsFrom(values + [v], show, first)
         == PointsFrom(values, show, first) + PointLine(first + |values|, show(v))
    decreases |values|
  {
    if values == [] {
      assert PointsFrom([v], show, first) == PointLine(first, show(v)) + PointsFrom([], show, first + 1);
    } else {
      assert (values + [v])[1..] == values[1..] + [v];
      PointsAppend(values[1..], v, show, first + 1);
      ConcatAssoc(PointLine(first, show(values[0])), PointsFrom(values[1..], show, first + 1),
                  PointLine(first + |values|, show(v)));
    }
  }

  /** The text for a concatenation of mappings is the concatenation of their
      texts: each key contributes its own block, in order. */
  lemma {:induction false} FormattedAppend<V>(a: seq<(string, seq<V>)>, b: seq<(string, seq<V>)>,
                                              show: V -> string)
    ensures Formatted(a + b, show) == Formatted(a, show) + Formatted(b, show)
    decreases |a|
  {
    if a != [] {
      assert (a + b)[1..] == a[1..] + b;
      FormattedAppend(a[1..], b, show);
      ConcatAssoc(Block(a[0].0, a[0].1, show), Formatted(a[1..], show), Formatted(b, show));
    } else {
      assert a + b == b;
    }
  }

  /** Taking one more key of the mapping appends that key's block. */
  lemma FormattedPrefixStep<V>(data: seq<(string, seq<V>)>, i: nat, show: V -> string)
    requires i < |data|
    ensures Formatted(data[..i + 1], show) == Formatted(data[..i], show) + Block(data[i].0, data[i].1, show)
  {
    FormattedAppend(data[..i], [data[i]], show);
    assert Formatted([data[i]], show) == Block(data[i].0, data[i].1, show) + Formatted([], show);
    assert data[..i + 1] == data[..i] + [data[i]];
  }

  /** Appending a key's header, its lines and the closing line end one after
      the other appends the key's block. */
  lemma BlockAppended<V>(before: string, key: string, values: seq<V>, show: V -> string)
    ensures before + Text.Capitalize(key) + KeySuffix + PointsFrom(values, show, 1) + LineEnd
         == before + Block(key, values, show)
  {
    var name, points := Text.Capitalize(key), PointsFrom(values, show, 1);
    ConcatAssoc(before, name, KeySuffix);
    ConcatAssoc(before, name + KeySuffix, points);
    ConcatAssoc(before, name + KeySuffix + points, LineEnd);
  }

  /** The inner loop of `analyze_stock_changes`: one numbered line per
      value, appended with `+=`. */
  method AppendPoints<V>(text: string, values: seq<V>, show: V -> string) returns (out: string)
    ensures out == text + PointsFrom(values, show, 1)
  {
    out := text;
    for j := 0 to |values|
      invariant out == text + PointsFrom(values[..j], show, 1)
    {
      PointsAppend(values[..j], values[j], show, 1);
      assert values[..j + 1] == values[..j] + [values[j]];
      ConcatAssoc(text, PointsFrom(values[..j], show, 1), PointLine(j + 1, show(values[j])));
      out := out + PointLine(j + 1, show(values[j]));
    }
    assert values[..|values|] == values;
  }

  /** The outer loop of `analyze_stock_changes`, which builds
      `formatted_data` key by key. */
  method FormatStockData<V>(data: seq<(string, seq<V>)>, show: V -> string) returns (text: string)
    ensures text == Formatted(data, show)
  {
    text := "";
    for i := 0 to |data|
      invariant text == Formatted(data[..i], show)
    {
      var key, values := data[i].0, data[i].1;
      ghost var before := text;
      text := text + Text.Capitalize(key) + KeySuffix;
      text := AppendPoints(text, values, show);
      text := text + LineEnd;
      BlockAppended(before, key, values, show);
      FormattedPrefixStep(data, i, show);
    }
    assert data[..|data|] == data;
  }

  /** `analyze_stock_changes(stock_data)`: the request it sends, and the
      stripped reply or the service's failure re-raised. `agent` stands for
      `self`; its key reaches the service only through the global
      `openai.api_key`, which is not modelled, so nothing here reads it. */
  method AnalyzeStockChanges<V>(agent: AlertAgent, data: seq<(string, seq<V>)>, show: V -> string,
                                reply: Option<string>)
    returns (request: ChatRequest, r: Result<string, AgentError>)
    ensures request.userContent == PromptPrefix + Formatted(data, show)
    ensures request.model == ChatModel && request.systemContent == SystemContent
    ensures request.maxTokens == MaxTokens && request.temperature == Temperature
    ensures request.choices == Choices && request.stop.None?
    ensures reply.None? ==> r == Failure(ServiceFailed)
    ensures reply.Some? ==> r == Success(Text.Strip(reply.value))
  {
    var formatted := FormatStockData(data, show);
    var prompt := PromptPrefix + formatted;
    request := ChatRequest(ChatModel, SystemContent, prompt, MaxTokens, Choices, None, Temperature);
    if reply.None? {
      r := Failure(ServiceFailed);
    } else {
      r := Success(Text.Strip(reply.value));
    }
  }

  /** An empty mapping gives an empty text, so the prompt is the prefix
      alone. */
  lemma EmptyDataPrompt<V>(show: V -> string)
    ensures PromptPrefix + Formatted([], show) == PromptPrefix
  {
  }
}
