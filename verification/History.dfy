/**
  The two parallel lists of a chat invocation: the messages of the prompt and, for
  each of them, the id of a stored row (or None for a synthetic entry).
 */
module History {
  import opened Common
  import opened Messages
  import opened ApiStandard
  import opened Pairing

  type RowId = Option<int>

  /** A message in a provider's own format. */
  datatype ProviderMessage =
    | Canonical(msg: ApiMessage)
    | Calls(message: OpenAiMessage)
    | Reply(reply: ToolMessage)

  datatype Converted = Converted(messages: seq<ProviderMessage>, ids: seq<RowId>)

  // ---------- The id map ----------

  /** Entry `i` carries the id of stored row `i`, whether or not rows were merged before it. */
  method BuildMessageIdMap(rows: seq<Row>, api: seq<ApiMessage>) returns (ids: seq<RowId>)
    ensures |ids| == |api|
    ensures forall i :: 0 <= i < |api| ==> ids[i] == if i < |rows| then Some(rows[i].id) else None
  {
    var raw: seq<RowId> := seq(|rows|, i requires 0 <= i < |rows| => Some(rows[i].id));
    if |api| == |rows| {
      return raw;
    }
    ids := [];
    var next := 0;
    for k := 0 to |api|
      invariant |ids| == k && (k < |api| ==> next == k)
      invariant forall i :: 0 <= i < k ==> ids[i] == if i < |rows| then Some(rows[i].id) else None
    {
      ids := ids + [if next < |raw| then raw[next] else None];
      next := next + 1;
      while next < |rows|
        invariant |ids| < |api| ==> next == k + 1
      {
        if |ids| < |api| {
          break;
        }
        next := next + 1;
      }
    }
  }

  function IdMap(rows: seq<Row>, n: nat): seq<RowId>
  {
    seq(n, i => if 0 <= i < |rows| then Some(rows[i].id) else None)
  }

  // ---------- Conversion for a provider ----------

  function ConvertOne(m: ApiMessage): seq<ProviderMessage>
    requires ConvertibleOne(m)
  {
    if Opens(m) != [] then [Calls(Encode(m.content.blocks))]
    else if Answers(m) != [] then Replies(m.content.blocks)
    else [Canonical(m)]
  }

  function Replies(blocks: seq<Block>): seq<ProviderMessage>
    requires AllResults(blocks)
  {
    seq(|blocks|, i requires 0 <= i < |blocks| => Reply(ToolMessage(blocks[i].toolUseId, blocks[i].output)))
  }

  /** A user list holding a tool_result holds nothing else. */
  predicate ConvertibleOne(m: ApiMessage)
  {
    Answers(m) != [] ==> AllResults(m.content.blocks)
  }

  predicate Convertible(msgs: seq<ApiMessage>)
  {
    forall i :: 0 <= i < |msgs| ==> ConvertibleOne(msgs[i])
  }

  /** The row id, followed by None for each further message the entry expanded to. */
  function ExpandId(id: RowId, n: nat): seq<RowId>
  {
    seq(n, i => if i == 0 then id else None)
  }

  function ConvertMessages(msgs: seq<ApiMessage>): seq<ProviderMessage>
    requires Convertible(msgs)
  {
    if |msgs| == 0 then [] else ConvertMessages(msgs[..|msgs| - 1]) + ConvertOne(msgs[|msgs| - 1])
  }

  /** How many provider messages an entry becomes. */
  function Width(m: ApiMessage): nat
  {
    if Answers(m) != [] then |m.content.blocks| else 1
  }

  function ConvertIds(msgs: seq<ApiMessage>, ids: seq<RowId>): seq<RowId>
    requires |msgs| == |ids|
  {
    if |msgs| == 0 then []
    else
      var n := |msgs| - 1;
      ConvertIds(msgs[..n], ids[..n]) + ExpandId(ids[n], Width(msgs[n]))
  }

  lemma ConvertStep(msgs: seq<ApiMessage>, ids: seq<RowId>, i: nat)
    requires i < |msgs| == |ids| && Convertible(msgs[..i]) && ConvertibleOne(msgs[i])
    ensures Convertible(msgs[..i + 1])
    ensures ConvertMessages(msgs[..i + 1]) == ConvertMessages(msgs[..i]) + ConvertOne(msgs[i])
    ensures ConvertIds(msgs[..i + 1], ids[..i + 1])
         == ConvertIds(msgs[..i], ids[..i]) + ExpandId(ids[i], Width(msgs[i]))
  {
    assert msgs[..i + 1][..i] == msgs[..i] && ids[..i + 1][..i] == ids[..i];
  }

  /** One entry in the provider's format: calls, one reply for each result, or the message as it stands. */
  predicate IsConverted(out: seq<ProviderMessage>, m: ApiMessage)
  {
    if m.role == "assistant" && m.content.List? && (exists b :: b in m.content.blocks && b.ToolUse?)
    then out == [Calls(Encode(m.content.blocks))]
    else if m.role == "user" && m.content.List? && (exists b :: b in m.content.blocks && b.ToolResult?)
    then
      && |out| == |m.content.blocks|
      && forall i :: 0 <= i < |out| ==>
           m.content.blocks[i].ToolResult?
           && out[i] == Reply(ToolMessage(m.content.blocks[i].toolUseId, m.content.blocks[i].output))
    else out == [Canonical(m)]
  }

  lemma ConvertOneMeaning(m: ApiMessage)
    requires ConvertibleOne(m)
    ensures IsConverted(ConvertOne(m), m) && |ConvertOne(m)| == Width(m)
  {
    if m.content.List? {
      ResultsPresent(m.content.blocks);
      CallsPresent(m.content.blocks);
    }
  }

  /** What the first entries became stays in front; with `ConvertStep`, each entry has its place in order. */
  lemma {:induction false} ConvertPrefix(msgs: seq<ApiMessage>, ids: seq<RowId>, k: nat)
    requires k <= |msgs| == |ids| && Convertible(msgs)
    ensures ConvertMessages(msgs[..k]) <= ConvertMessages(msgs)
    ensures ConvertIds(msgs[..k], ids[..k]) <= ConvertIds(msgs, ids)
    decreases |msgs|
  {
    var n := |msgs| - 1;
    if k <= n {
      ConvertPrefix(msgs[..n], ids[..n], k);
      assert msgs[..n][..k] == msgs[..k] && ids[..n][..k] == ids[..k];
    } else {
      assert msgs[..k] == msgs && ids[..k] == ids;
    }
  }

  /** What one entry contributes; None where the program raises a KeyError. */
  method ConvertEntry(m: ApiMessage, id: RowId) returns (r: Option<Converted>)
    ensures r.Some? <==> ConvertibleOne(m)
    ensures r.Some? ==> r.value == Converted(ConvertOne(m), ExpandId(id, Width(m)))
    ensures r.Some? ==> IsConverted(r.value.messages, m) && |r.value.ids| == |r.value.messages|
    ensures r.Some? ==> forall k :: 0 <= k < |r.value.ids| ==> r.value.ids[k] == if k == 0 then id else None
  {
    if ConvertibleOne(m) { ConvertOneMeaning(m); }
    assert ExpandId(id, 1) == [id];
    if m.role == ASSISTANT && m.content.List? && UseIds(m.content.blocks) != [] {
      var calls := FormatAssistantToolMessage(m.content.blocks);
      return Some(Converted([Calls(calls)], [id]));
    }
    if m.role == USER && m.content.List? && ResultIds(m.content.blocks) != [] {
      var replies := FormatToolResults(m.content.blocks);
      if replies.None? {
        return None;
      }
      var messages: seq<ProviderMessage>, adjusted: seq<RowId> := [], [];
      for k := 0 to |replies.value|
        invariant messages == Replies(m.content.blocks)[..k]
        invariant adjusted == ExpandId(id, k)
      {
        messages := messages + [Reply(replies.value[k])];
        adjusted := adjusted + [if k == 0 then id else None];
      }
      assert messages == Replies(m.content.blocks);
      return Some(Converted(messages, adjusted));
    }
    return Some(Converted([Canonical(m)], [id]));
  }

  method ConvertHistoryToOpenAi(msgs: seq<ApiMessage>, ids: seq<RowId>) returns (r: Option<Converted>)
    requires |msgs| == |ids|
    ensures r.Some? <==> Convertible(msgs)
    ensures r.Some? ==> r.value == Converted(ConvertMessages(msgs), ConvertIds(msgs, ids))
  {
    var messages: seq<ProviderMessage>, adjusted: seq<RowId> := [], [];
    for i := 0 to |msgs|
      invariant Convertible(msgs[..i])
      invariant messages == ConvertMessages(msgs[..i]) && adjusted == ConvertIds(msgs[..i], ids[..i])
    {
      var entry := ConvertEntry(msgs[i], ids[i]);
      if entry.None? {
        return None;
      }
      ConvertStep(msgs, ids, i);
      messages, adjusted := messages + entry.value.messages, adjusted + entry.value.ids;
    }
    assert msgs[..|msgs|] == msgs && ids[..|msgs|] == ids;
    return Some(Converted(messages, adjusted));
  }

  /** The ids present in a parallel list, in order. */
  function Present(ids: seq<RowId>): seq<int>
  {
    if |ids| == 0 then []
    else Present(ids[..|ids| - 1]) + (if ids[|ids| - 1].Some? then [ids[|ids| - 1].value] else [])
  }

  function ToolIds(msgs: seq<ApiMessage>): seq<string>
  {
    if |msgs| == 0 then [] else ToolIds(msgs[..|msgs| - 1]) + (Opens(msgs[|msgs| - 1]) + Answers(msgs[|msgs| - 1]))
  }

  function CallIds(calls: seq<ToolCall>): seq<string>
  {
    seq(|calls|, i requires 0 <= i < |calls| => OrEmpty(calls[i].id))
  }

  function ProviderToolIds(msgs: seq<ProviderMessage>): seq<string>
  {
    if |msgs| == 0 then []
    else ProviderToolIds(msgs[..|msgs| - 1]) + ProviderIds(msgs[|msgs| - 1])
  }

  function ProviderIds(msg: ProviderMessage): seq<string>
  {
    match msg
    case Canonical(m) => Opens(m) + Answers(m)
    case Calls(m) => CallIds(m.calls)
    case Reply(m) => [m.callId]
  }

  lemma {:induction false} PresentAppend(a: seq<RowId>, b: seq<RowId>)
    ensures Present(a + b) == Present(a) + Present(b)
  {
    if |b| == 0 {
      assert a + b == a;
    } else {
      assert (a + b)[..|a + b| - 1] == a + b[..|b| - 1];
      PresentAppend(a, b[..|b| - 1]);
      var last := b[|b| - 1];
      Assoc(Present(a), Present(b[..|b| - 1]), if last.Some? then [last.value] else []);
    }
  }

  lemma LastPresent(ids: seq<RowId>)
    requires |ids| > 0
    ensures Present(ids) == Present(ids[..|ids| - 1]) + Present([ids[|ids| - 1]])
  {
    assert [ids[|ids| - 1]][..0] == [];
  }

  lemma {:induction false} ExpandKeepsId(id: RowId, n: nat)
    requires n > 0
    ensures Present(ExpandId(id, n)) == Present([id])
  {
    assert ExpandId(id, n)[..n - 1] == ExpandId(id, n - 1);
    if n > 1 { ExpandKeepsId(id, n - 1); } else { assert ExpandId(id, 1) == [id]; }
  }

  lemma {:induction false} ProviderToolIdsAppend(a: seq<ProviderMessage>, b: seq<ProviderMessage>)
    ensures ProviderToolIds(a + b) == ProviderToolIds(a) + ProviderToolIds(b)
  {
    if |b| == 0 {
      assert a + b == a;
    } else {
      assert (a + b)[..|a + b| - 1] == a + b[..|b| - 1];
      ProviderToolIdsAppend(a, b[..|b| - 1]);
      Assoc(ProviderToolIds(a), ProviderToolIds(b[..|b| - 1]), ProviderIds(b[|b| - 1]));
    }
  }

  lemma {:induction false} EncodedCallIds(blocks: seq<Block>)
    ensures CallIds(EncodeCalls(blocks)) == UseIds(blocks)
  {
    if |blocks| > 0 { EncodedCallIds(blocks[1..]); }
  }

  lemma {:induction false} ReplyIds(blocks: seq<Block>)
    requires AllResults(blocks)
    ensures ProviderToolIds(Replies(blocks)) == ResultIds(blocks)
  {
    if |blocks| > 0 {
      var front := blocks[..|blocks| - 1];
      ReplyIds(front);
      assert Replies(blocks)[..|blocks| - 1] == Replies(front);
      ResultIdsAppend(front, [blocks[|blocks| - 1]]);
      assert blocks == front + [blocks[|blocks| - 1]];
    }
  }

  lemma ConvertOneKeepsIds(m: ApiMessage)
    requires ConvertibleOne(m)
    ensures |ConvertOne(m)| == Width(m) > 0
    ensures ProviderToolIds(ConvertOne(m)) == Opens(m) + Answers(m)
  {
    var one := ConvertOne(m);
    if Opens(m) != [] {
      EncodedCallIds(m.content.blocks);
    } else if Answers(m) != [] {
      ReplyIds(m.content.blocks);
    }
    assert |one| == 1 ==> one[..0] == [];
  }

  lemma {:induction false} ConvertedToolIds(msgs: seq<ApiMessage>)
    requires Convertible(msgs)
    ensures ProviderToolIds(ConvertMessages(msgs)) == ToolIds(msgs)
  {
    if |msgs| > 0 {
      var n := |msgs| - 1;
      ConvertedToolIds(msgs[..n]);
      ConvertOneKeepsIds(msgs[n]);
      ProviderToolIdsAppend(ConvertMessages(msgs[..n]), ConvertOne(msgs[n]));
    }
  }

  lemma {:induction false} ConvertedLengths(msgs: seq<ApiMessage>, ids: seq<RowId>)
    requires |msgs| == |ids| && Convertible(msgs)
    ensures |ConvertMessages(msgs)| == |ConvertIds(msgs, ids)|
  {
    if |msgs| > 0 {
      var n := |msgs| - 1;
      ConvertedLengths(msgs[..n], ids[..n]);
      ConvertOneKeepsIds(msgs[n]);
    }
  }

  lemma WidthPositive(m: ApiMessage)
    ensures Width(m) > 0
  {}

  /** An expanded entry contributes the id it stands for, once. */
  lemma ExpandedIds(before: seq<RowId>, id: RowId, m: ApiMessage)
    ensures Present(before + ExpandId(id, Width(m))) == Present(before) + Present([id])
  {
    WidthPositive(m);
    ExpandKeepsId(id, Width(m));
    PresentAppend(before, ExpandId(id, Width(m)));
  }

  lemma {:induction false} ConvertedRowIds(msgs: seq<ApiMessage>, ids: seq<RowId>)
    requires |msgs| == |ids|
    ensures Present(ConvertIds(msgs, ids)) == Present(ids)
  {
    if |msgs| > 0 {
      var n := |msgs| - 1;
      var front := ConvertIds(msgs[..n], ids[..n]);
      ConvertedRowIds(msgs[..n], ids[..n]);
      ExpandedIds(front, ids[n], msgs[n]);
      assert ConvertIds(msgs, ids) == front + ExpandId(ids[n], Width(msgs[n]));
      LastPresent(ids);
    }
  }

  /** Conversion keeps the two lists in step, every row id in order, and every tool id in order. */
  lemma ConversionKeepsIds(msgs: seq<ApiMessage>, ids: seq<RowId>)
    requires |msgs| == |ids| && Convertible(msgs)
    ensures |ConvertMessages(msgs)| == |ConvertIds(msgs, ids)|
    ensures Present(ConvertIds(msgs, ids)) == Present(ids)
    ensures ProviderToolIds(ConvertMessages(msgs)) == ToolIds(msgs)
  {
    ConvertedToolIds(msgs);
    ConvertedLengths(msgs, ids);
    ConvertedRowIds(msgs, ids);
  }

  /** A user message with results holds nothing else, and no user string comes right after it. */
  predicate StandsAlone(m: ApiMessage, next: seq<ApiMessage>)
  {
    Answers(m) != [] ==>
      && AllResults(m.content.blocks)
      && (|next| > 0 ==> !(next[0].role == USER && next[0].content.Str?))
  }

  predicate ResultsStandAlone(msgs: seq<ApiMessage>)
  {
    |msgs| > 0 ==> StandsAlone(msgs[0], msgs[1..]) && ResultsStandAlone(msgs[1..])
  }

  lemma ConvertibleCons(m: ApiMessage, rest: seq<ApiMessage>)
    ensures Convertible([m] + rest) <==> ConvertibleOne(m) && Convertible(rest)
  {
    var all := [m] + rest;
    if Convertible(all) {
      assert ConvertibleOne(all[0]);
      forall i | 0 <= i < |rest| ensures ConvertibleOne(rest[i]) {
        assert ConvertibleOne(all[i + 1]);
      }
    }
  }

  /** A user string absorbed by a message with results makes a message that cannot be converted. */
  lemma AbsorbConvertible(prev: ApiMessage, m: ApiMessage)
    requires Mergeable(prev, m)
    ensures Answers(prev) != [] ==> !ConvertibleOne(Absorb(prev, m))
    ensures Answers(prev) == [] ==> Answers(Absorb(prev, m)) == Answers(m)
  {
    if prev.content.List? {
      TextHasNoIds(prev.content.blocks, m.content.s);
      assert Absorb(prev, m).content.blocks[|prev.content.blocks|] == Text(m.content.s);
    }
  }

  lemma {:induction false} UnconvertibleStays(prev: ApiMessage, rest: seq<ApiMessage>)
    requires !ConvertibleOne(prev)
    ensures !Convertible(Fold(prev, rest))
    decreases |rest|
  {
    if |rest| == 0 {
      assert [prev][0] == prev;
    } else if Mergeable(prev, rest[0]) {
      AbsorbConvertible(prev, rest[0]);
      UnconvertibleStays(Absorb(prev, rest[0]), rest[1..]);
    } else {
      ConvertibleCons(prev, Fold(rest[0], rest[1..]));
    }
  }

  lemma {:induction false} FoldConvertible(prev: ApiMessage, rest: seq<ApiMessage>)
    ensures Convertible(Fold(prev, rest)) <==> StandsAlone(prev, rest) && ResultsStandAlone(rest)
    decreases |rest|
  {
    if |rest| == 0 {
      ConvertibleCons(prev, []);
      assert [prev] + [] == [prev];
    } else if Mergeable(prev, rest[0]) {
      AbsorbConvertible(prev, rest[0]);
      if Answers(prev) != [] {
        UnconvertibleStays(Absorb(prev, rest[0]), rest[1..]);
      } else {
        FoldConvertible(Absorb(prev, rest[0]), rest[1..]);
      }
    } else {
      FoldConvertible(rest[0], rest[1..]);
      ConvertibleCons(prev, Fold(rest[0], rest[1..]));
    }
  }

  /** Exactly which stored histories can be converted once their rows are formatted and merged. */
  lemma MergedHistoryConvertible(rows: seq<Row>)
    ensures Convertible(Merge(FormatRows(rows))) <==> ResultsStandAlone(FormatRows(rows))
  {
    var msgs := FormatRows(rows);
    if |msgs| > 0 { FoldConvertible(msgs[0], msgs[1..]); }
  }

  /**
    The smallest such history: a user row stored right after a tool turn merges into the
    result list, and the conversion then fails on its text block.
   */
  lemma NoteAfterResultsIsNotConvertible(use: Block, output: string, text: string)
    requires use.ToolUse?
    ensures var rows := [
        Row(1, TOOL_CALL, "", Parsed(List([use]))),
        Row(2, TOOL_RESULT, "", Parsed(List([ToolResult(use.id, output)]))),
        Row(3, USER, text, NoJson)];
      !Convertible(Merge(FormatRows(rows)))
  {
    var call := ApiMessage(ASSISTANT, List([use]));
    var result := ApiMessage(USER, List([ToolResult(use.id, output)]));
    var note := ApiMessage(USER, Str(text));
    var rows := [
      Row(1, TOOL_CALL, "", Parsed(List([use]))),
      Row(2, TOOL_RESULT, "", Parsed(List([ToolResult(use.id, output)]))),
      Row(3, USER, text, NoJson)];
    assert FormatRows(rows[2..]) == [note] by { assert rows[2..][1..] == []; }
    assert FormatRows(rows[1..]) == [result, note] by { assert rows[1..][1..] == rows[2..]; }
    assert FormatRows(rows) == [call, result, note];
    var mixed := Absorb(result, note);
    assert [result, note][1..] == [note] && [note][1..] == [];
    assert Fold(result, [note]) == [mixed];
    assert Merge([call, result, note]) == [call, mixed] by { assert [call, result, note][1..] == [result, note]; }
    assert mixed.content.blocks[1] == Text(text);
    assert [call, mixed][1] == mixed && !ConvertibleOne(mixed);
  }

  // ---------- Compaction ----------

  datatype Lists = Lists(api: seq<ApiMessage>, ids: seq<RowId>)

  const COMPACTED: string := "[System notification: Compacted context]\n"

  /** The split and rebuild of a compaction; `summary` is None when the summarization call gave nothing. */
  function Compact(l: Lists, preserve: int, summary: Option<string>, summaryId: int): Lists
  {
    if |l.api| <= preserve || summary.None? then l
    else
      var cut := Max(0, Min(|l.api| - preserve, |l.api|));
      Lists([ApiMessage(USER, Str(COMPACTED + summary.value))] + l.api[cut..],
            [Some(summaryId)] + l.ids[Min(cut, |l.ids|)..])
  }

  /**
    Compaction keeps the lists in step: the summary and its row in front, and exactly the last
    `preserve` entries of both behind it.  Without a summary, or with too few entries, nothing changes.
   */
  lemma CompactKeepsTail(l: Lists, preserve: nat, summary: Option<string>, summaryId: int)
    requires |l.api| == |l.ids|
    ensures var l' := Compact(l, preserve, summary, summaryId);
      && |l'.api| == |l'.ids|
      && (summary.None? || |l.api| <= preserve ==> l' == l)
      && (summary.Some? && |l.api| > preserve ==>
            && |l'.api| == preserve + 1
            && l'.api[0] == ApiMessage("user", Str("[System notification: Compacted context]\n" + summary.value))
            && l'.ids[0] == Some(summaryId)
            && l'.api[1..] == l.api[|l.api| - preserve..]
            && l'.ids[1..] == l.ids[|l.ids| - preserve..])
  {}

  /** A cut keeps every tool_use answered, but leaves no stray results exactly when it does not split a pair. */
  lemma CompactionPairing(l: Lists, preserve: int, summary: string, summaryId: int)
    requires WellPaired(l.api) && |l.api| > preserve
    ensures var l' := Compact(l, preserve, Some(summary), summaryId);
      && (forall i :: 0 <= i < |l'.api| ==> AnsweredAt(l'.api, i))
      && (WellPaired(l'.api) <==> preserve <= 0 || Answers(l.api[|l.api| - preserve]) == [])
  {
    var cut := Min(|l.api| - preserve, |l.api|);
    var tail := l.api[cut..];
    var out := [ApiMessage(USER, Str(COMPACTED + summary))] + tail;
    assert out[1..] == tail;
    if cut > 0 {
      ChainSuffix([], l.api, cut);
      ChainPairs(Opens(l.api[cut - 1]), tail);
      if |tail| > 0 && Opens(l.api[cut - 1]) != [] { LeadsAnswers(tail[0], Opens(l.api[cut - 1])); }
    }
    assert Chain([], out) <==> Chain([], tail);
    if |tail| > 0 { assert tail[0] == l.api[|l.api| - preserve]; }
    forall i | 0 <= i < |out| ensures AnsweredAt(out, i) {
      if i > 0 { assert AnsweredAt(tail, i - 1); }
    }
  }
}
