/**
 The values that cross the gateway: JSON, OpenAI tool calls and stream chunks,
 Anthropic content blocks and stream events.
 */
module Wire {
  import opened Options
  import opened Text

  datatype Json =
    | Null
    | Bool(b: bool)
    | Num(mantissa: int, exponent: int)
    | Str(s: string)
    | Arr(items: seq<Json>)
    | Obj(fields: map<string, Json>)

  datatype FunctionCall = FunctionCall(name: string, arguments: string)

  datatype ToolCall = ToolCall(id: string, kind: string, call: Option<FunctionCall>, index: Option<int>)

  /** An Anthropic content block; `input` and `content` are `Null` when absent. */
  datatype ContentBlock = ContentBlock(
    kind: string,
    text: string,
    id: string,
    name: string,
    input: Json,
    toolUseID: string,
    content: Json)

  function TextBlock(text: string): ContentBlock {
    ContentBlock("text", text, "", "", Null, "", Null)
  }

  function ToolUseBlock(id: string, name: string, input: Json): ContentBlock {
    ContentBlock("tool_use", "", id, name, input, "", Null)
  }

  function ToolResultBlock(toolUseID: string, content: string): ContentBlock {
    ContentBlock("tool_result", "", "", "", Null, toolUseID, Str(content))
  }

  datatype Usage = Usage(prompt: int, completion: int, total: int)

  /** One chunk of an OpenAI stream: a single choice, whose empty fields are left out on the wire. */
  datatype Chunk = Chunk(
    id: string,
    model: string,
    role: string,
    content: string,
    toolCalls: seq<ToolCall>,
    finishReason: string,
    usage: Option<Usage>)

  datatype MessageHead = MessageHead(id: string, model: string, inputTokens: int)

  datatype EventDelta = EventDelta(kind: string, text: string, partialJSON: string, stopReason: string)

  /** A decoded event of an Anthropic stream. */
  datatype StreamEvent = StreamEvent(
    kind: string,
    message: Option<MessageHead>,
    index: Option<int>,
    contentBlock: Option<ContentBlock>,
    delta: Option<EventDelta>,
    outputTokens: Option<int>,
    errorMessage: Option<string>)

  const FALLBACK_RESPONSE_ID := "chatcmpl-anthropic"

  function NormalizeStopReason(reason: string): string {
    var r := Trim(reason);
    if r == "end_turn" || r == "stop_sequence" then "stop"
    else if r == "max_tokens" then "length"
    else if r == "tool_use" then "tool_calls"
    else ""
  }

  function Digits(n: nat): string {
    if n < 10 then [n as char + '0'] else Digits(n / 10) + [(n % 10) as char + '0']
  }

  /** `%d`. */
  function Decimal(n: int): string {
    if n < 0 then "-" + Digits(-n) else Digits(n)
  }

  /** The number that digits write. */
  function Value(s: string): int {
    if s == "" then 0 else 10 * Value(s[..|s| - 1]) + (s[|s| - 1] as int - '0' as int)
  }

  /** Numbers are written in decimal digits, without leading zeros. */
  lemma {:induction false} DigitsWrite(n: nat)
    ensures Digits(n) != "" && Value(Digits(n)) == n && forall c :: c in Digits(n) ==> '0' <= c <= '9'
    ensures Digits(n)[0] == '0' ==> n == 0
  {
    if n < 10 {
      assert Digits(n)[..0] == "" && Value("") == 0;
    } else {
      DigitsWrite(n / 10);
      assert Digits(n)[..|Digits(n)| - 1] == Digits(n / 10);
    }
  }
}
