/**
  Translation between the canonical content blocks and the OpenAI message format.

  `Encoded(v)` stands for the JSON text of `v`: encoding and decoding a JSON value
  are inverse to each other (RFC 8259), so the text itself is not modelled.
 */
module ApiStandard {
  import opened Common
  import opened Messages

  datatype Arguments = Encoded(value: Json) | Malformed(raw: string) | Direct(value: Json)

  datatype ToolCall = ToolCall(id: Option<string>, name: Option<string>, arguments: Option<Arguments>)

  datatype OpenAiMessage = OpenAiMessage(text: Option<string>, calls: seq<ToolCall>)

  datatype Choice = Choice(message: OpenAiMessage, finish: Option<string>)

  /** A field is None when the key is absent. */
  datatype RawUsage = RawUsage(promptTokens: Option<int>, completionTokens: Option<int>)

  datatype RawResponse = RawResponse(choices: seq<Choice>, usage: Option<RawUsage>, model: Option<string>)

  /** A separate `tool` role message answering one call. */
  datatype ToolMessage = ToolMessage(callId: string, content: string)

  datatype Response = Response(content: seq<Block>, stopReason: string)

  datatype Usage = Usage(inputTokens: int, outputTokens: int)

  datatype Normalized = Normalized(response: Response, usage: Usage, model: string)

  const END_TURN: string := "end_turn"
  const TOOL_USE: string := "tool_use"
  const MAX_TOKENS: string := "max_tokens"
  const ERROR_PREVIEW: nat := 200

  // ---------- Specification ----------

  /** The non-empty texts of a block list, in order. */
  function Texts(blocks: seq<Block>): seq<string>
  {
    if |blocks| == 0 then []
    else (if blocks[0].Text? && blocks[0].text != "" then [blocks[0].text] else []) + Texts(blocks[1..])
  }

  function Uses(blocks: seq<Block>): seq<Block>
  {
    if |blocks| == 0 then [] else (if blocks[0].ToolUse? then [blocks[0]] else []) + Uses(blocks[1..])
  }

  function EncodeCall(use: Block): ToolCall
    requires use.ToolUse?
  {
    ToolCall(Some(use.id), Some(use.name), Some(Encoded(use.input)))
  }

  function EncodeCalls(blocks: seq<Block>): seq<ToolCall>
  {
    if |blocks| == 0 then []
    else (if blocks[0].ToolUse? then [EncodeCall(blocks[0])] else []) + EncodeCalls(blocks[1..])
  }

  function Encode(blocks: seq<Block>): OpenAiMessage
  {
    OpenAiMessage(if Texts(blocks) == [] then None else Some(Join(Texts(blocks), "\n")), EncodeCalls(blocks))
  }

  function DecodeArguments(arguments: Option<Arguments>): Json
  {
    match arguments
    case None => JObject(map[])
    case Some(Encoded(value)) => value
    case Some(Direct(value)) => value
    case Some(Malformed(raw)) => JObject(map["_parse_error" := JString(raw[..Min(|raw|, ERROR_PREVIEW)])])
  }

  function OrEmpty(s: Option<string>): string
  {
    if s.Some? then s.value else ""
  }

  function DecodeCall(call: ToolCall): Block
  {
    ToolUse(OrEmpty(call.id), OrEmpty(call.name), DecodeArguments(call.arguments))
  }

  function DecodeText(text: Option<string>): seq<Block>
  {
    if OrEmpty(text) != "" then [Text(text.value)] else []
  }

  function DecodeCalls(calls: seq<ToolCall>): seq<Block>
  {
    seq(|calls|, i requires 0 <= i < |calls| => DecodeCall(calls[i]))
  }

  function Decode(m: OpenAiMessage): seq<Block>
  {
    DecodeText(m.text) + DecodeCalls(m.calls)
  }

  function StopReason(finish: Option<string>): string
  {
    if finish == Some("tool_calls") then TOOL_USE
    else if finish == Some("length") then MAX_TOKENS
    else END_TURN
  }

  function OrZero(n: Option<int>): int
  {
    if n.Some? then n.value else 0
  }

  // ---------- What a normalized response holds ----------

  /** One call as a block: its id and name or nothing, and its arguments, decoded where they are JSON text. */
  predicate IsCallBlock(b: Block, call: ToolCall)
  {
    && b.ToolUse?
    && b.id == (if call.id.Some? then call.id.value else "")
    && b.name == (if call.name.Some? then call.name.value else "")
    && match call.arguments
       case None => b.input == JObject(map[])
       case Some(Encoded(value)) => b.input == value
       case Some(Direct(value)) => b.input == value
       case Some(Malformed(raw)) =>
         b.input == JObject(map["_parse_error" := JString(if |raw| > 200 then raw[..200] else raw)])
  }

  /** The text first, if there is any, and then one block for each call, in order. */
  predicate BlocksOfMessage(blocks: seq<Block>, m: OpenAiMessage)
  {
    var texts := if m.text.Some? && m.text.value != "" then 1 else 0;
    && |blocks| == texts + |m.calls|
    && (texts == 1 ==> blocks[0] == Text(m.text.value))
    && forall i :: 0 <= i < |m.calls| ==> IsCallBlock(blocks[texts + i], m.calls[i])
  }

  lemma DecodedCall(call: ToolCall)
    ensures IsCallBlock(DecodeCall(call), call)
  {
    if call.arguments.Some? && call.arguments.value.Malformed? {
      var raw := call.arguments.value.raw;
      assert raw[..|raw|] == raw;
    }
  }

  lemma DecodedBlocks(m: OpenAiMessage)
    ensures BlocksOfMessage(Decode(m), m)
  {
    forall i | 0 <= i < |m.calls| ensures IsCallBlock(DecodeCalls(m.calls)[i], m.calls[i]) {
      DecodedCall(m.calls[i]);
    }
  }

  predicate StopsBy(stop: string, finish: Option<string>)
  {
    stop == match finish
            case Some("tool_calls") => "tool_use"
            case Some("length") => "max_tokens"
            case _ => "end_turn"
  }

  predicate CountsUsage(usage: Usage, raw: Option<RawUsage>)
  {
    && usage.inputTokens == (if raw.Some? && raw.value.promptTokens.Some? then raw.value.promptTokens.value else 0)
    && usage.outputTokens
       == (if raw.Some? && raw.value.completionTokens.Some? then raw.value.completionTokens.value else 0)
  }

  // ---------- The operations ----------

  /** A response without choices is an empty turn that cost nothing, whatever usage it reports. */
  method NormalizeResponse(raw: RawResponse) returns (r: Normalized)
    ensures r.model == if raw.model.Some? then raw.model.value else ""
    ensures |raw.choices| == 0 ==> r.response == Response([], "end_turn") && r.usage == Usage(0, 0)
    ensures |raw.choices| > 0 ==>
      && r.response == Response(Decode(raw.choices[0].message), StopReason(raw.choices[0].finish))
      && BlocksOfMessage(r.response.content, raw.choices[0].message)
      && StopsBy(r.response.stopReason, raw.choices[0].finish)
      && CountsUsage(r.usage, raw.usage)
  {
    if |raw.choices| == 0 {
      return Normalized(Response([], END_TURN), Usage(0, 0), OrEmpty(raw.model));
    }
    var blocks := NormalizeBlocks(raw.choices[0].message);
    DecodedBlocks(raw.choices[0].message);
    var stop := StopReason(raw.choices[0].finish);
    var reported := if raw.usage.Some? then raw.usage.value else RawUsage(None, None);
    var usage := Usage(OrZero(reported.promptTokens), OrZero(reported.completionTokens));
    r := Normalized(Response(blocks, stop), usage, OrEmpty(raw.model));
  }

  method NormalizeBlocks(message: OpenAiMessage) returns (blocks: seq<Block>)
    ensures blocks == Decode(message)
  {
    blocks := [];
    if message.text.Some? && message.text.value != "" {
      blocks := blocks + [Text(message.text.value)];
    }
    for i := 0 to |message.calls|
      invariant blocks == DecodeText(message.text) + DecodeCalls(message.calls[..i])
    {
      var call := message.calls[i];
      var input := DecodeArguments(call.arguments);
      blocks := blocks + [ToolUse(OrEmpty(call.id), OrEmpty(call.name), input)];
      Assoc(DecodeText(message.text), DecodeCalls(message.calls[..i]), [DecodeCall(call)]);
      assert DecodeCalls(message.calls[..i + 1]) == DecodeCalls(message.calls[..i]) + [DecodeCall(call)];
    }
    assert message.calls[..|message.calls|] == message.calls;
  }

  lemma {:induction false} TextsAppend(a: seq<Block>, b: seq<Block>)
    ensures Texts(a + b) == Texts(a) + Texts(b)
  {
    if |a| == 0 {
      assert a + b == b;
    } else {
      assert (a + b)[1..] == a[1..] + b;
      TextsAppend(a[1..], b);
      Assoc(if a[0].Text? && a[0].text != "" then [a[0].text] else [], Texts(a[1..]), Texts(b));
    }
  }

  lemma {:induction false} UsesAppend(a: seq<Block>, b: seq<Block>)
    ensures Uses(a + b) == Uses(a) + Uses(b)
  {
    if |a| == 0 {
      assert a + b == b;
    } else {
      assert (a + b)[1..] == a[1..] + b;
      UsesAppend(a[1..], b);
      Assoc(if a[0].ToolUse? then [a[0]] else [], Uses(a[1..]), Uses(b));
    }
  }

  /** What each kind of block is to the two lists; with the lemmas around, what they are for every list. */
  lemma OneBlock(b: Block)
    ensures Texts([b]) == if b.Text? && b.text != "" then [b.text] else []
    ensures Uses([b]) == if b.ToolUse? then [b] else []
  {
    assert [b][1..] == [];
  }

  lemma {:induction false} EncodeCallsAppend(a: seq<Block>, b: seq<Block>)
    ensures EncodeCalls(a + b) == EncodeCalls(a) + EncodeCalls(b)
  {
    if |a| == 0 {
      assert a + b == b;
    } else {
      assert (a + b)[1..] == a[1..] + b;
      EncodeCallsAppend(a[1..], b);
      Assoc(if a[0].ToolUse? then [EncodeCall(a[0])] else [], EncodeCalls(a[1..]), EncodeCalls(b));
    }
  }

  lemma {:induction false} EncodedCalls(blocks: seq<Block>)
    ensures |EncodeCalls(blocks)| == |Uses(blocks)|
    ensures forall i :: 0 <= i < |Uses(blocks)| ==>
      var use := Uses(blocks)[i];
      use.ToolUse? && EncodeCalls(blocks)[i] == ToolCall(Some(use.id), Some(use.name), Some(Encoded(use.input)))
  {
    if |blocks| > 0 { EncodedCalls(blocks[1..]); }
  }

  method FormatAssistantToolMessage(blocks: seq<Block>) returns (m: OpenAiMessage)
    ensures m == Encode(blocks)
    ensures m.text == if Texts(blocks) == [] then None else Some(Join(Texts(blocks), "\n"))
    ensures |m.calls| == |Uses(blocks)|
    ensures forall i :: 0 <= i < |m.calls| ==>
      var use := Uses(blocks)[i];
      use.ToolUse? && m.calls[i] == ToolCall(Some(use.id), Some(use.name), Some(Encoded(use.input)))
  {
    EncodedCalls(blocks);
    var parts: seq<string>, calls: seq<ToolCall> := [], [];
    for i := 0 to |blocks|
      invariant parts == Texts(blocks[..i]) && calls == EncodeCalls(blocks[..i])
    {
      var block := blocks[i];
      assert blocks[..i + 1] == blocks[..i] + [block];
      TextsAppend(blocks[..i], [block]);
      EncodeCallsAppend(blocks[..i], [block]);
      if block.Text? && block.text != "" {
        parts := parts + [block.text];
      } else if block.ToolUse? {
        calls := calls + [ToolCall(Some(block.id), Some(block.name), Some(Encoded(block.input)))];
      }
    }
    assert blocks[..|blocks|] == blocks;
    m := OpenAiMessage(if |parts| > 0 then Some(Join(parts, "\n")) else None, calls);
  }

  predicate AllResults(blocks: seq<Block>)
  {
    forall i :: 0 <= i < |blocks| ==> blocks[i].ToolResult?
  }

  /** None when some block has no `tool_use_id`, where the program raises a KeyError. */
  method FormatToolResults(blocks: seq<Block>) returns (messages: Option<seq<ToolMessage>>)
    ensures messages.Some? <==> AllResults(blocks)
    ensures messages.Some? ==> messages.value == ToolMessages(blocks) && |messages.value| == |blocks|
    ensures messages.Some? ==> forall i :: 0 <= i < |blocks| ==>
      messages.value[i] == ToolMessage(blocks[i].toolUseId, blocks[i].output)
  {
    var out: seq<ToolMessage> := [];
    for i := 0 to |blocks|
      invariant AllResults(blocks[..i])
      invariant out == ToolMessages(blocks[..i])
    {
      if !blocks[i].ToolResult? {
        return None;
      }
      out := out + [ToolMessage(blocks[i].toolUseId, blocks[i].output)];
      assert AllResults(blocks[..i + 1]);
    }
    assert blocks[..|blocks|] == blocks;
    return Some(out);
  }

  function ToolMessages(blocks: seq<Block>): seq<ToolMessage>
    requires AllResults(blocks)
  {
    seq(|blocks|, i requires 0 <= i < |blocks| => ToolMessage(blocks[i].toolUseId, blocks[i].output))
  }

  // ---------- Round trip ----------

  /** One joined text block, if any text was non-empty, followed by every tool_use block in order. */
  function Canonical(blocks: seq<Block>): seq<Block>
  {
    (if Texts(blocks) == [] then [] else [Text(Join(Texts(blocks), "\n"))]) + Uses(blocks)
  }

  predicate IsCanonical(blocks: seq<Block>)
  {
    var uses := if |blocks| > 0 && blocks[0].Text? && blocks[0].text != "" then blocks[1..] else blocks;
    forall i :: 0 <= i < |uses| ==> uses[i].ToolUse?
  }

  lemma DecodeCallsCons(call: ToolCall, calls: seq<ToolCall>)
    ensures DecodeCalls([call] + calls) == [DecodeCall(call)] + DecodeCalls(calls)
  {}

  lemma {:induction false} DecodeEncodedCalls(blocks: seq<Block>)
    ensures DecodeCalls(EncodeCalls(blocks)) == Uses(blocks)
  {
    if |blocks| > 0 {
      DecodeEncodedCalls(blocks[1..]);
      if blocks[0].ToolUse? {
        DecodeCallsCons(EncodeCall(blocks[0]), EncodeCalls(blocks[1..]));
        assert DecodeCall(EncodeCall(blocks[0])) == blocks[0];
      } else {
        assert EncodeCalls(blocks) == EncodeCalls(blocks[1..]) && Uses(blocks) == Uses(blocks[1..]);
      }
    }
  }

  lemma {:induction false} UsesAreUses(blocks: seq<Block>)
    ensures forall i :: 0 <= i < |Uses(blocks)| ==> Uses(blocks)[i].ToolUse?
  {
    if |blocks| > 0 { UsesAreUses(blocks[1..]); }
  }

  lemma {:induction false} TextsNotEmpty(blocks: seq<Block>)
    ensures forall i :: 0 <= i < |Texts(blocks)| ==> Texts(blocks)[i] != ""
  {
    if |blocks| > 0 { TextsNotEmpty(blocks[1..]); }
  }

  lemma {:induction false} UsesOnly(blocks: seq<Block>)
    requires forall i :: 0 <= i < |blocks| ==> blocks[i].ToolUse?
    ensures Texts(blocks) == [] && Uses(blocks) == blocks
  {
    if |blocks| > 0 { UsesOnly(blocks[1..]); }
  }

  lemma TextThenUses(b: Block, uses: seq<Block>)
    requires b.Text? && b.text != "" && forall i :: 0 <= i < |uses| ==> uses[i].ToolUse?
    ensures Texts([b] + uses) == [b.text] && Uses([b] + uses) == uses
  {
    UsesOnly(uses);
    OneBlock(b);
    TextsAppend([b], uses);
    UsesAppend([b], uses);
  }

  lemma CanonicalFixed(blocks: seq<Block>)
    requires IsCanonical(blocks)
    ensures Canonical(blocks) == blocks
  {
    if |blocks| > 0 && blocks[0].Text? && blocks[0].text != "" {
      TextThenUses(blocks[0], blocks[1..]);
      assert blocks == [blocks[0]] + blocks[1..];
    } else {
      UsesOnly(blocks);
    }
  }

  /**
    Formatting for OpenAI and normalizing back yields the canonical form; it is the identity
    exactly on blocks already in that form.
   */
  lemma RoundTrip(blocks: seq<Block>)
    ensures Decode(Encode(blocks)) == Canonical(blocks)
    ensures Decode(Encode(blocks)) == blocks <==> IsCanonical(blocks)
    ensures Decode(Encode(Decode(Encode(blocks)))) == Decode(Encode(blocks))
  {
    EncodeDecode(blocks);
    EncodeDecode(Canonical(blocks));
    CanonicalFixed(Canonical(blocks));
    if IsCanonical(blocks) { CanonicalFixed(blocks); }
  }

  lemma EncodeDecode(blocks: seq<Block>)
    ensures Decode(Encode(blocks)) == Canonical(blocks) && IsCanonical(Canonical(blocks))
  {
    DecodeEncodedCalls(blocks);
    UsesAreUses(blocks);
    TextsNotEmpty(blocks);
    if |Texts(blocks)| > 0 {
      assert Join(Texts(blocks), "\n") != "";
      assert Canonical(blocks)[1..] == Uses(blocks);
    }
  }
}
