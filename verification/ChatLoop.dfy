/**
  The tool loop of a chat invocation (Anthropic format): the rows it stores, the
  prompt lists it grows in memory, and every list it sends to the provider.
 */
module ChatLoop {
  import opened Common
  import opened Messages
  import opened ApiStandard
  import opened Pairing
  import opened History

  const ASYNC_TOOLS: set<string> := {"fetch_web_content"}
  const SUMMARY_REQUEST: string := "Please summarize what you found and what should happen next."

  /** A string, which may be stored at any point: a user message, a notification or a delivered message. */
  datatype Note = UserNote(text: string) | SystemNote(text: string) | AssistantNote(text: string)

  datatype ToolOutput = ToolOutput(text: string, isFinalReply: bool)

  /** What the environment supplies for one pass of the loop. */
  datatype Pass = Pass(
    summary: Option<string>,         // the text of a compaction made before the call, if one was
    before: seq<Note>,               // stored while the model is called
    response: Option<Response>,      // None when the call failed
    errorText: string,
    errorJson: Option<Json>,         // the description of the failure, when there is one
    outcome: Block -> ToolOutput,    // what each tool call returns
    during: seq<Note>)               // stored while the tools run

  /** One invocation; `context` is the per-turn block. */
  datatype Turn = Turn(
    context: string,
    isArc: bool,
    maxPasses: nat,
    preserve: int,
    passes: nat -> Pass,
    finalText: Option<string>)       // the forced final response, when one is needed and is not blank

  datatype Loop = Loop(
    rows: seq<Row>,
    lists: Lists,
    sent: seq<seq<ApiMessage>>,
    collected: bool,
    lastStop: string)

  datatype Verdict = Continue | Break | Return

  // ---------- Per-turn context ----------

  /** One more than the index of the last user message, or 0. */
  function LastUser(msgs: seq<ApiMessage>): (n: nat)
    ensures n <= |msgs| && (n > 0 ==> msgs[n - 1].role == USER)
    ensures forall i :: n <= i < |msgs| ==> msgs[i].role != USER
  {
    if |msgs| == 0 then 0
    else if msgs[|msgs| - 1].role == USER then |msgs|
    else LastUser(msgs[..|msgs| - 1])
  }

  function WithContext(m: ApiMessage, context: string): ApiMessage
  {
    match m.content
    case Str(s) => m.(content := List([Text(context), Text(s)]))
    case List(blocks) =>
      m.(content := List(if ResultIds(blocks) != [] then blocks + [Text(context)] else [Text(context)] + blocks))
    case Shape(_) => m
  }

  function Attached(msgs: seq<ApiMessage>, context: string): seq<ApiMessage>
  {
    if context == "" || LastUser(msgs) == 0 then msgs
    else msgs[LastUser(msgs) - 1 := WithContext(msgs[LastUser(msgs) - 1], context)]
  }

  /** `m'` is `m` with the block: behind tool_results, in front of anything else. */
  predicate CarriesContext(m': ApiMessage, m: ApiMessage, context: string)
  {
    && m'.role == m.role
    && match m.content
       case Str(s) => m'.content == List([Text(context), Text(s)])
       case List(blocks) =>
         if exists i :: 0 <= i < |blocks| && blocks[i].ToolResult?
         then m'.content == List(blocks + [Text(context)]) else m'.content == List([Text(context)] + blocks)
       case Shape(_) => m' == m
  }

  lemma WithContextCarries(m: ApiMessage, context: string)
    ensures CarriesContext(WithContext(m, context), m, context)
  {
    if m.content.List? { ResultsPresent(m.content.blocks); }
  }

  predicate IsLastUser(msgs: seq<ApiMessage>, u: int)
  {
    0 <= u < |msgs| && msgs[u].role == "user" && forall i :: u < i < |msgs| ==> msgs[i].role != "user"
  }

  predicate ChangesOnly(r: seq<ApiMessage>, msgs: seq<ApiMessage>, u: int, context: string)
    requires 0 <= u < |msgs|
  {
    |r| == |msgs| && CarriesContext(r[u], msgs[u], context) && r == msgs[u := r[u]]
  }

  lemma AttachedMeaning(msgs: seq<ApiMessage>, context: string)
    ensures context == "" || (forall i :: 0 <= i < |msgs| ==> msgs[i].role != "user") ==>
      Attached(msgs, context) == msgs
    ensures forall u :: context != "" && IsLastUser(msgs, u) ==>
      ChangesOnly(Attached(msgs, context), msgs, u, context)
  {
    forall u | context != "" && IsLastUser(msgs, u) ensures ChangesOnly(Attached(msgs, context), msgs, u, context) {
      assert LastUser(msgs) == u + 1;
      WithContextCarries(msgs[u], context);
    }
  }

  /** The reverse search; 0 when there is no user message. */
  method FindLastUser(msgs: seq<ApiMessage>) returns (last: nat)
    ensures last == LastUser(msgs)
  {
    last := |msgs|;
    while last > 0 && msgs[last - 1].role != USER
      invariant last <= |msgs|
      invariant LastUser(msgs) == LastUser(msgs[..last])
      decreases last
    {
      assert msgs[..last][..last - 1] == msgs[..last - 1];
      last := last - 1;
    }
  }

  /** Only the last user message changes. */
  method AttachPerTurnContext(msgs: seq<ApiMessage>, context: string) returns (r: seq<ApiMessage>)
    ensures r == Attached(msgs, context)
    ensures context == "" || (forall i :: 0 <= i < |msgs| ==> msgs[i].role != "user") ==> r == msgs
    ensures forall u :: context != "" && IsLastUser(msgs, u) ==> ChangesOnly(r, msgs, u, context)
  {
    AttachedMeaning(msgs, context);
    if context == "" || |msgs| == 0 {
      return msgs;
    }
    var last := FindLastUser(msgs);
    if last == 0 {
      return msgs;
    }
    var target := AddContext(msgs[last - 1], context);
    return msgs[last - 1 := target];
  }

  method AddContext(target: ApiMessage, context: string) returns (r: ApiMessage)
    ensures r == WithContext(target, context) && CarriesContext(r, target, context)
  {
    WithContextCarries(target, context);
    var block := Text(context);
    match target.content
    case Str(s) => return target.(content := List([block, Text(s)]));
    case List(blocks) =>
      if ResultIds(blocks) != [] {
        return target.(content := List(blocks + [block]));
      } else {
        return target.(content := List([block] + blocks));
      }
    case Shape(_) => return target;
  }

  lemma ContextOpensNothing(m: ApiMessage, context: string)
    requires m.role == USER
    ensures Opens(WithContext(m, context)) == Opens(m) && Answers(WithContext(m, context)) == Answers(m)
  {
    assert USER[0] != ASSISTANT[0];
    if m.content.List? {
      ResultIdsAppend([Text(context)], m.content.blocks);
      TextHasNoIds(m.content.blocks, context);
    } else if m.content.Str? {
      TextHasNoIds([Text(context)], m.content.s);
      assert [Text(context), Text(m.content.s)] == [Text(context)] + [Text(m.content.s)];
    }
    assert [Text(context)][1..] == [];
  }

  lemma ContextLeadsAlike(m: ApiMessage, context: string, ids: seq<string>)
    requires m.role == USER && ids != []
    ensures LeadsWith(WithContext(m, context), ids) <==> LeadsWith(m, ids)
  {
    if m.content.List? {
      var blocks := m.content.blocks;
      if ResultIds(blocks) != [] {
        TextLeadsAlike(blocks, context, ids);
      } else {
        assert ([Text(context)] + blocks)[0] == Text(context);
        if LeadsWith(m, ids) { LeadsAnswers(m, ids); }
      }
    } else if m.content.Str? {
      assert WithContext(m, context).content.blocks[0] == Text(context);
    }
  }

  /** The per-turn block never comes between a tool_use and its results. */
  lemma AttachKeepsPairing(msgs: seq<ApiMessage>, context: string)
    ensures WellPaired(Attached(msgs, context)) <==> WellPaired(msgs)
    ensures |Attached(msgs, context)| == |msgs|
  {
    if context != "" && LastUser(msgs) > 0 {
      var k := LastUser(msgs) - 1;
      ContextOpensNothing(msgs[k], context);
      forall ids | ids != []
        ensures LeadsWith(WithContext(msgs[k], context), ids) <==> LeadsWith(msgs[k], ids)
      {
        ContextLeadsAlike(msgs[k], context, ids);
      }
      ChainReplace([], msgs, k, WithContext(msgs[k], context));
    }
  }

  // ---------- Storing rows ----------

  function NextId(rows: seq<Row>): int
  {
    if |rows| == 0 then 1 else rows[|rows| - 1].id + 1
  }

  function Store(rows: seq<Row>, role: string, content: string, json: Stored): seq<Row>
  {
    rows + [Row(NextId(rows), role, content, json)]
  }

  function RoleOf(note: Note): string
  {
    match note
    case UserNote(_) => USER
    case SystemNote(_) => SYSTEM
    case AssistantNote(_) => ASSISTANT
  }

  function StoreNote(rows: seq<Row>, note: Note): seq<Row>
  {
    Store(rows, RoleOf(note), note.text, NoJson)
  }

  function StoreNotes(rows: seq<Row>, notes: seq<Note>): seq<Row>
    decreases |notes|
  {
    if |notes| == 0 then rows else StoreNotes(StoreNote(rows, notes[0]), notes[1..])
  }

  predicate IsNote(row: Row, note: Note)
  {
    && row.content == note.text && row.contentJson == NoJson
    && row.role == match note
                   case UserNote(_) => "user"
                   case SystemNote(_) => "system"
                   case AssistantNote(_) => "assistant"
  }

  /** The notes become rows of their own kind, one each, in order. */
  predicate NotesFollow(rows: seq<Row>, notes: seq<Note>, at: nat)
  {
    at + |notes| <= |rows| && forall i :: 0 <= i < |notes| ==> IsNote(rows[at + i], notes[i])
  }

  lemma FirstNoteFollows(rows: seq<Row>, notes: seq<Note>, at: nat)
    requires 0 < |notes| && at < |rows| && IsNote(rows[at], notes[0]) && NotesFollow(rows, notes[1..], at + 1)
    ensures NotesFollow(rows, notes, at)
  {
    forall i | 0 <= i < |notes| ensures IsNote(rows[at + i], notes[i]) {
      if i > 0 { assert IsNote(rows[at + 1 + (i - 1)], notes[1..][i - 1]); }
    }
  }

  lemma {:induction false} NotesExtend(rows: seq<Row>, notes: seq<Note>)
    ensures |StoreNotes(rows, notes)| == |rows| + |notes| && rows <= StoreNotes(rows, notes)
    decreases |notes|
  {
    if |notes| > 0 { NotesExtend(StoreNote(rows, notes[0]), notes[1..]); }
  }

  lemma {:induction false} StoredNotes(rows: seq<Row>, notes: seq<Note>)
    ensures |StoreNotes(rows, notes)| == |rows| + |notes| && rows <= StoreNotes(rows, notes)
    ensures NotesFollow(StoreNotes(rows, notes), notes, |rows|)
    decreases |notes|
  {
    NotesExtend(rows, notes);
    if |notes| > 0 {
      var once, all := StoreNote(rows, notes[0]), StoreNotes(rows, notes);
      StoredNotes(once, notes[1..]);
      NotesExtend(once, notes[1..]);
      assert all[|rows|] == once[|rows|] && IsNote(once[|rows|], notes[0]);
      FirstNoteFollows(all, notes, |rows|);
    }
  }

  // ---------- One pass ----------

  function TextOf(content: seq<Block>): string
  {
    Join(Texts(content), "\n")
  }

  function TextsOfOutputs(outcome: Block -> ToolOutput): Block -> string
  {
    (b: Block) => outcome(b).text
  }

  function Results(content: seq<Block>, outcome: Block -> ToolOutput): seq<Block>
  {
    ResultsFor(content, TextsOfOutputs(outcome))
  }

  function FinalReplies(uses: seq<Block>, outcome: Block -> ToolOutput): seq<string>
  {
    if |uses| == 0 then []
    else
      var last := outcome(uses[|uses| - 1]);
      FinalReplies(uses[..|uses| - 1], outcome) + (if last.isFinalReply then [last.text] else [])
  }

  predicate AllAsync(uses: seq<Block>)
  {
    |uses| > 0 && forall i :: 0 <= i < |uses| ==> uses[i].ToolUse? && uses[i].name in ASYNC_TOOLS
  }

  function FinalJson(content: seq<Block>): Stored
  {
    if exists i :: 0 <= i < |content| && !content[i].Text? then Parsed(List(content)) else NoJson
  }

  function ErrorJson(pass: Pass): Stored
  {
    if pass.errorJson.Some? then Parsed(Shape(pass.errorJson.value)) else NoJson
  }

  /** The rows of a tool turn: the response, whatever was stored while the tools ran, and the results. */
  function ToolRows(rows: seq<Row>, content: seq<Block>, pass: Pass): seq<Row>
  {
    var role := if TextOf(content) != "" then ASSISTANT else TOOL_CALL;
    var called := Store(rows, role, TextOf(content), Parsed(List(content)));
    Store(StoreNotes(called, pass.during), TOOL_RESULT, "", Parsed(List(Results(content, pass.outcome))))
  }

  function GrowLists(lists: Lists, content: seq<Block>, results: seq<Block>, assistantId: int): Lists
  {
    Lists(lists.api + [ApiMessage(ASSISTANT, List(content)), ApiMessage(USER, List(results))],
          lists.ids + [Some(assistantId), None])
  }

  function CompactStep(l: Loop, pass: Pass, preserve: int): Loop
  {
    if pass.summary.None? || |l.lists.api| <= preserve then l
    else l.(rows := Store(l.rows, SYSTEM, "[Compacted context]\n" + pass.summary.value, NoJson),
            lists := Compact(l.lists, preserve, pass.summary, NextId(l.rows)))
  }

  /** The tool turn after a response whose stop reason is `tool_use`. */
  function ToolStep(l: Loop, content: seq<Block>, pass: Pass, isArc: bool): (Loop, Verdict)
  {
    var rows := ToolRows(l.rows, content, pass);
    var replies := if isArc then [] else FinalReplies(Uses(content), pass.outcome);
    var l' := l.(rows := rows,
                 lists := GrowLists(l.lists, content, Results(content, pass.outcome), NextId(l.rows)),
                 collected := l.collected || TextOf(content) != "",
                 lastStop := TOOL_USE);
    if replies != [] then
      (l'.(rows := Store(rows, ASSISTANT, Join(replies, "\n\n"), NoJson), collected := true, lastStop := END_TURN),
       Break)
    else if AllAsync(Uses(content)) && TextOf(content) != "" then (l'.(lastStop := END_TURN), Break)
    else (l', Continue)
  }

  function PassStep(l: Loop, pass: Pass, isArc: bool, preserve: int): (Loop, Verdict)
  {
    var c := CompactStep(l, pass, preserve);
    var s := c.(sent := c.sent + [c.lists.api], rows := StoreNotes(c.rows, pass.before));
    match pass.response
    case None =>
      if s.collected then (s, Break)
      else (s.(rows := Store(s.rows, SYSTEM, pass.errorText, ErrorJson(pass))), Return)
    case Some(r) =>
      if r.stopReason != TOOL_USE then
        (s.(rows := Store(s.rows, ASSISTANT, TextOf(r.content), FinalJson(r.content)),
            collected := true, lastStop := r.stopReason), Break)
      else ToolStep(s, r.content, pass, isArc)
  }

  // ---------- What one pass does, block by block ----------

  predicate Says(content: seq<Block>)
  {
    exists i :: 0 <= i < |content| && content[i].Text? && content[i].text != ""
  }

  predicate Calls(content: seq<Block>)
  {
    exists i :: 0 <= i < |content| && content[i].ToolUse?
  }

  /** After a tool turn the model is called again, unless a tool gave the reply or every call answers later. */
  predicate GoesOnAfter(content: seq<Block>, outcome: Block -> ToolOutput, isArc: bool)
  {
    && (isArc || forall i :: 0 <= i < |content| && content[i].ToolUse? ==> !outcome(content[i]).isFinalReply)
    && (!Says(content) || !Calls(content)
        || exists i :: 0 <= i < |content| && content[i].ToolUse? && content[i].name != "fetch_web_content")
  }

  lemma {:induction false} TextPresent(content: seq<Block>)
    ensures |Texts(content)| > 0 <==> Says(content)
  {
    if |content| > 0 {
      TextPresent(content[1..]);
      assert forall i :: 1 <= i < |content| ==> content[i] == content[1..][i - 1];
      if Says(content[1..]) {
        var i :| 0 <= i < |content[1..]| && content[1..][i].Text? && content[1..][i].text != "";
        assert content[i + 1].Text? && content[i + 1].text != "";
      }
    }
  }

  lemma TextOfSays(content: seq<Block>)
    ensures TextOf(content) != "" <==> Says(content)
  {
    TextPresent(content);
    TextsNotEmpty(content);
  }

  lemma {:induction false} UsesPresent(content: seq<Block>)
    ensures forall b :: b in Uses(content) <==> b.ToolUse? && b in content
  {
    if |content| > 0 {
      UsesPresent(content[1..]);
      assert content == [content[0]] + content[1..];
    }
  }

  lemma CallsUses(content: seq<Block>)
    ensures |Uses(content)| > 0 <==> Calls(content)
  {
    UsesPresent(content);
    if |Uses(content)| > 0 {
      assert Uses(content)[0] in content;
    }
    if Calls(content) {
      var i :| 0 <= i < |content| && content[i].ToolUse?;
      assert content[i] in Uses(content);
    }
  }

  lemma {:induction false} FinalReplyPresent(uses: seq<Block>, outcome: Block -> ToolOutput)
    ensures |FinalReplies(uses, outcome)| > 0 <==> exists b :: b in uses && outcome(b).isFinalReply
  {
    if |uses| > 0 {
      var front := uses[..|uses| - 1];
      FinalReplyPresent(front, outcome);
      assert uses == front + [uses[|uses| - 1]];
    }
  }

  /** Replies come in the order of their calls, one for each call that gave one. */
  lemma {:induction false} FinalRepliesAppend(a: seq<Block>, b: seq<Block>, outcome: Block -> ToolOutput)
    ensures FinalReplies(a + b, outcome) == FinalReplies(a, outcome) + FinalReplies(b, outcome)
    ensures |b| == 1 ==> FinalReplies(b, outcome) == if outcome(b[0]).isFinalReply then [outcome(b[0]).text] else []
  {
    if |b| == 0 {
      assert a + b == a;
    } else {
      assert (a + b)[..|a + b| - 1] == a + b[..|b| - 1];
      FinalRepliesAppend(a, b[..|b| - 1], outcome);
      var last := outcome(b[|b| - 1]);
      Assoc(FinalReplies(a, outcome), FinalReplies(b[..|b| - 1], outcome),
            if last.isFinalReply then [last.text] else []);
    }
  }

  lemma AllAsyncMeaning(content: seq<Block>)
    ensures AllAsync(Uses(content)) <==>
      Calls(content) && forall i :: 0 <= i < |content| && content[i].ToolUse? ==> content[i].name == "fetch_web_content"
  {
    CallsUses(content);
    UsesPresent(content);
    var uses := Uses(content);
    if AllAsync(uses) {
      forall i | 0 <= i < |content| && content[i].ToolUse? ensures content[i].name == "fetch_web_content" {
        assert content[i] in uses;
        var k :| 0 <= k < |uses| && uses[k] == content[i];
        assert uses[k].name in ASYNC_TOOLS;
      }
    } else if |uses| > 0 {
      var k :| 0 <= k < |uses| && !(uses[k].ToolUse? && uses[k].name in ASYNC_TOOLS);
      assert uses[k] in content;
    }
  }

  lemma NoRepliesMeaning(content: seq<Block>, outcome: Block -> ToolOutput)
    ensures FinalReplies(Uses(content), outcome) == [] <==>
      forall i :: 0 <= i < |content| && content[i].ToolUse? ==> !outcome(content[i]).isFinalReply
  {
    FinalReplyPresent(Uses(content), outcome);
    UsesPresent(content);
    forall i | 0 <= i < |content| && content[i].ToolUse? ensures content[i] in Uses(content) {}
  }

  /** The verdict of a tool turn, and the stop reason it leaves. */
  lemma ToolStepVerdict(l: Loop, content: seq<Block>, pass: Pass, isArc: bool)
    ensures var (l', verdict) := ToolStep(l, content, pass, isArc);
      && verdict == (if GoesOnAfter(content, pass.outcome, isArc) then Continue else Break)
      && l'.lastStop == (if verdict.Continue? then "tool_use" else "end_turn")
      && (l'.collected <==> l.collected || Says(content) || verdict.Break?)
      && l'.sent == l.sent
  {
    TextOfSays(content);
    AllAsyncMeaning(content);
    NoRepliesMeaning(content, pass.outcome);
  }

  /** The messages a tool turn adds to the prompt: the response and one result for each call, in order. */
  predicate TurnFollows(msgs: seq<ApiMessage>, before: seq<ApiMessage>, content: seq<Block>,
                        outcome: Block -> ToolOutput)
  {
    && |msgs| == |before| + 2 && before <= msgs
    && msgs[|before|] == ApiMessage("assistant", List(content))
    && msgs[|before| + 1].role == "user" && msgs[|before| + 1].content.List?
    && AnswersCalls(msgs[|before| + 1].content.blocks, Uses(content), outcome)
  }

  predicate AnswersCalls(results: seq<Block>, uses: seq<Block>, outcome: Block -> ToolOutput)
  {
    && |results| == |uses|
    && forall k :: 0 <= k < |uses| ==>
         uses[k].ToolUse? && results[k] == ToolResult(uses[k].id, outcome(uses[k]).text)
  }

  lemma ResultsAnswerCalls(content: seq<Block>, outcome: Block -> ToolOutput)
    ensures AnswersCalls(Results(content, outcome), Uses(content), outcome)
  {
    UsesHaveIds(content);
  }

  /** The rows of a tool turn: the call with its text, the strings stored meanwhile, and the results. */
  predicate CallStored(rows: seq<Row>, content: seq<Block>, pass: Pass, at: nat)
  {
    var result := at + |pass.during| + 1;
    && result < |rows|
    && rows[at].role == (if Says(content) then "assistant" else "tool_call")
    && rows[at].content == Join(Texts(content), "\n") && rows[at].contentJson == Parsed(List(content))
    && NotesFollow(rows, pass.during, at + 1)
    && rows[result].role == "tool_result" && rows[result].contentJson.Parsed?
    && rows[result].contentJson.content.List?
    && AnswersCalls(rows[result].contentJson.content.blocks, Uses(content), pass.outcome)
  }

  lemma ToolRowsMeaning(rows: seq<Row>, content: seq<Block>, pass: Pass)
    ensures var rows' := ToolRows(rows, content, pass);
      |rows'| == |rows| + |pass.during| + 2 && rows <= rows' && CallStored(rows', content, pass, |rows|)
  {
    var role := if TextOf(content) != "" then ASSISTANT else TOOL_CALL;
    var called := Store(rows, role, TextOf(content), Parsed(List(content)));
    TextOfSays(content);
    StoredNotes(called, pass.during);
    ResultsAnswerCalls(content, pass.outcome);
    var noted, rows' := StoreNotes(called, pass.during), ToolRows(rows, content, pass);
    assert rows'[|rows|] == noted[|rows|] == called[|rows|];
    NotesFollowOn(noted, rows', pass.during, |rows| + 1);
  }

  lemma NotesFollowOn(rows: seq<Row>, rows': seq<Row>, notes: seq<Note>, at: nat)
    requires rows <= rows' && NotesFollow(rows, notes, at)
    ensures NotesFollow(rows', notes, at)
  {
    forall j | 0 <= j < |rows| ensures rows'[j] == rows[j] {}
  }

  lemma CallStaysStored(rows: seq<Row>, row: Row, content: seq<Block>, pass: Pass, at: nat)
    requires CallStored(rows, content, pass, at)
    ensures CallStored(rows + [row], content, pass, at)
  {
    NotesFollowOn(rows, rows + [row], pass.during, at + 1);
  }

  /** The replies of the called tools, which end a chat turn; an arc step takes them as plain results. */
  function TurnReplies(content: seq<Block>, outcome: Block -> ToolOutput, isArc: bool): seq<string>
  {
    if isArc then [] else FinalReplies(Uses(content), outcome)
  }

  lemma ToolStepRows(l: Loop, content: seq<Block>, pass: Pass, isArc: bool)
    ensures var rows := ToolRows(l.rows, content, pass);
      var replies := TurnReplies(content, pass.outcome, isArc);
      ToolStep(l, content, pass, isArc).0.rows
        == if replies != [] then rows + [Row(NextId(rows), "assistant", Join(replies, "\n\n"), NoJson)] else rows
  {}

  /** What a tool turn stores, and the reply row when a tool supplied the reply. */
  lemma ToolStepStores(l: Loop, content: seq<Block>, pass: Pass, isArc: bool)
    ensures var rows := ToolStep(l, content, pass, isArc).0.rows;
      var replies, stored := TurnReplies(content, pass.outcome, isArc), |l.rows| + |pass.during| + 2;
      && l.rows <= rows && CallStored(rows, content, pass, |l.rows|)
      && |rows| == stored + (if replies != [] then 1 else 0)
      && (replies != [] ==> rows[stored].role == "assistant" && rows[stored].contentJson == NoJson
                            && rows[stored].content == Join(replies, "\n\n"))
  {
    var rows, replies := ToolRows(l.rows, content, pass), TurnReplies(content, pass.outcome, isArc);
    ToolRowsMeaning(l.rows, content, pass);
    ToolStepRows(l, content, pass, isArc);
    CallStaysStored(rows, Row(NextId(rows), "assistant", Join(replies, "\n\n"), NoJson), content, pass, |l.rows|);
  }

  /** What a tool turn adds to the prompt. */
  lemma ToolStepLists(l: Loop, content: seq<Block>, pass: Pass, isArc: bool)
    ensures var l' := ToolStep(l, content, pass, isArc).0;
      && TurnFollows(l'.lists.api, l.lists.api, content, pass.outcome)
      && l'.lists.ids == l.lists.ids + [Some(NextId(l.rows)), None]
  {
    ResultsAnswerCalls(content, pass.outcome);
    assert ToolStep(l, content, pass, isArc).0.lists
        == GrowLists(l.lists, content, Results(content, pass.outcome), NextId(l.rows));
  }

  /** The loop makes another pass after this one. */
  predicate GoesOn(pass: Pass, isArc: bool)
  {
    && pass.response.Some? && pass.response.value.stopReason == "tool_use"
    && GoesOnAfter(pass.response.value.content, pass.outcome, isArc)
  }

  predicate Spoke(pass: Pass)
  {
    pass.response.Some? && Says(pass.response.value.content)
  }

  /** What a pass sends, whether it is the last, and what it leaves for the end of the loop. */
  lemma PassVerdict(l: Loop, pass: Pass, isArc: bool, preserve: int)
    ensures var (l', verdict) := PassStep(l, pass, isArc, preserve);
      && (verdict.Continue? <==> GoesOn(pass, isArc))
      && (verdict.Return? <==> pass.response.None? && !l.collected)
      && l'.sent == l.sent + [CompactStep(l, pass, preserve).lists.api]
      && (verdict.Continue? ==> l'.lastStop == "tool_use" && (l'.collected <==> l.collected || Spoke(pass)))
      && (pass.response.None? ==> l'.lastStop == l.lastStop && l'.collected == l.collected)
      && (verdict.Break? && pass.response.Some? ==> l'.lastStop != "tool_use" && l'.collected)
  {
    if pass.response.Some? && pass.response.value.stopReason == TOOL_USE {
      var c := CompactStep(l, pass, preserve);
      var s := c.(sent := c.sent + [c.lists.api], rows := StoreNotes(c.rows, pass.before));
      ToolStepVerdict(s, pass.response.value.content, pass, isArc);
    }
  }

  /** A pass with tool calls leaves a prompt that ends with the response and the results of its calls. */
  predicate EndsWithTurn(msgs: seq<ApiMessage>, pass: Pass)
  {
    && pass.response.Some? && 2 <= |msgs|
    && TurnFollows(msgs, msgs[..|msgs| - 2], pass.response.value.content, pass.outcome)
  }

  lemma PassEndsWithTurn(l: Loop, pass: Pass, isArc: bool, preserve: int)
    requires pass.response.Some? && pass.response.value.stopReason == TOOL_USE
    ensures EndsWithTurn(PassStep(l, pass, isArc, preserve).0.lists.api, pass)
  {
    var c := CompactStep(l, pass, preserve);
    var s := c.(sent := c.sent + [c.lists.api], rows := StoreNotes(c.rows, pass.before));
    ToolStepLists(s, pass.response.value.content, pass, isArc);
    var api := PassStep(l, pass, isArc, preserve).0.lists.api;
    assert api[..|api| - 2] == c.lists.api;
  }

  /** What a compaction due in this pass stores and leaves of the prompt. */
  lemma CompactStepMeaning(l: Loop, pass: Pass, preserve: int)
    ensures var c := CompactStep(l, pass, preserve);
      if pass.summary.Some? && |l.lists.api| > preserve
      then
        && |c.rows| == |l.rows| + 1 && l.rows <= c.rows && c.rows[|l.rows|].role == "system"
        && c.rows[|l.rows|].content == "[Compacted context]\n" + pass.summary.value
        && c.rows[|l.rows|].contentJson == NoJson
        && c.lists.api == [ApiMessage("user", Str("[System notification: Compacted context]\n" + pass.summary.value))]
                        + l.lists.api[|l.lists.api| - Max(0, preserve)..]
      else c == l
  {}

  predicate StructuredIn(content: seq<Block>)
  {
    exists i :: 0 <= i < |content| && !content[i].Text?
  }

  /** What a pass without tool calls stores: the strings of the call, then the answer or the error. */
  lemma PassStores(l: Loop, pass: Pass, isArc: bool, preserve: int)
    requires pass.response.Some? ==> pass.response.value.stopReason != TOOL_USE
    ensures var before, rows := CompactStep(l, pass, preserve).rows, PassStep(l, pass, isArc, preserve).0.rows;
      var n := |before| + |pass.before|;
      && before <= rows && NotesFollow(rows, pass.before, |before|)
      && |rows| == n + (if pass.response.None? && l.collected then 0 else 1)
      && (pass.response.None? && !l.collected ==>
            && rows[n].role == "system" && rows[n].content == pass.errorText
            && rows[n].contentJson == (if pass.errorJson.Some? then Parsed(Shape(pass.errorJson.value)) else NoJson))
      && (pass.response.Some? ==>
            var content := pass.response.value.content;
            && rows[n].role == "assistant" && rows[n].content == Join(Texts(content), "\n")
            && rows[n].contentJson == (if StructuredIn(content) then Parsed(List(content)) else NoJson))
  {
    var c := CompactStep(l, pass, preserve);
    var noted := StoreNotes(c.rows, pass.before);
    StoredNotes(c.rows, pass.before);
    NotesFollowOn(noted, PassStep(l, pass, isArc, preserve).0.rows, pass.before, |c.rows|);
  }

  function Begin(rows: seq<Row>, turn: Turn): Loop
  {
    var merged := Merge(FormatRows(rows));
    var api := if turn.isArc then merged else Attached(merged, turn.context);
    Loop(rows, Lists(api, IdMap(rows, |merged|)), [], false, "")
  }

  function StepOf(turn: Turn): (Loop, nat) -> (Loop, Verdict)
  {
    (l, k: nat) => PassStep(l, turn.passes(k), turn.isArc, turn.preserve)
  }

  /** The passes from the `k`-th on, until one of them ends the loop. */
  function Passes(l: Loop, step: (Loop, nat) -> (Loop, Verdict), k: nat, n: nat): (Loop, Verdict)
    decreases n - k
  {
    if k >= n then (l, Break)
    else if step(l, k).1.Continue? then Passes(step(l, k).0, step, k + 1, n)
    else step(l, k)
  }

  /** What every pass keeps, the whole loop keeps. */
  lemma {:induction false} PassesKeep(l: Loop, step: (Loop, nat) -> (Loop, Verdict), k: nat, n: nat, inv: Loop -> bool)
    requires inv(l)
    requires forall l, k: nat :: inv(l) && k < n ==> inv(step(l, k).0)
    ensures inv(Passes(l, step, k, n).0)
    decreases n - k
  {
    if k < n && step(l, k).1.Continue? { PassesKeep(step(l, k).0, step, k + 1, n, inv); }
  }

  /** The forced final response, asked for when the loop ended mid tool use or collected no text. */
  function Finish(l: Loop, turn: Turn): Loop
  {
    if l.lastStop != TOOL_USE && l.collected then l
    else
      var asked := l.lists.api + [ApiMessage(USER, Str(SUMMARY_REQUEST))];
      l.(sent := l.sent + [asked],
         rows := if turn.finalText.Some? then Store(l.rows, ASSISTANT, turn.finalText.value, NoJson) else l.rows)
  }

  function Invoke(rows: seq<Row>, turn: Turn): Loop
  {
    var (l, verdict) := Passes(Begin(rows, turn), StepOf(turn), 0, turn.maxPasses);
    if verdict.Return? then l else Finish(l, turn)
  }

  // ---------- How an invocation goes on and ends ----------

  /** The state in which the `m`-th pass starts, when all passes from the `k`-th to there went on. */
  function StateAt(l: Loop, step: (Loop, nat) -> (Loop, Verdict), k: nat, m: nat): Loop
    decreases m - k
  {
    if k >= m then l else StateAt(step(l, k).0, step, k + 1, m)
  }

  lemma {:induction false} PassesFrom(l: Loop, step: (Loop, nat) -> (Loop, Verdict), k: nat, m: nat, n: nat)
    requires k <= m <= n
    requires forall l, j: nat :: k <= j < m ==> step(l, j).1.Continue?
    ensures Passes(l, step, k, n) == Passes(StateAt(l, step, k, m), step, m, n)
    decreases m - k
  {
    if k < m { PassesFrom(step(l, k).0, step, k + 1, m, n); }
  }

  lemma StepContinues(l: Loop, turn: Turn, j: nat)
    ensures StepOf(turn)(l, j).1.Continue? <==> GoesOn(turn.passes(j), turn.isArc)
  {
    PassVerdict(l, turn.passes(j), turn.isArc, turn.preserve);
  }

  lemma {:induction false} StateAtCounts(l: Loop, step: (Loop, nat) -> (Loop, Verdict), spoke: nat -> bool,
                                         k: nat, m: nat)
    requires k <= m
    requires forall l: Loop, j: nat :: k <= j < m ==>
      |step(l, j).0.sent| == |l.sent| + 1 && (step(l, j).0.collected <==> l.collected || spoke(j))
    ensures |StateAt(l, step, k, m).sent| == |l.sent| + (m - k)
    ensures StateAt(l, step, k, m).collected <==> l.collected || exists j: nat :: k <= j < m && spoke(j)
    decreases m - k
  {
    if k < m {
      StateAtCounts(step(l, k).0, step, spoke, k + 1, m);
      assert spoke(k) ==> exists j: nat :: k <= j < m && spoke(j);
    }
  }

  lemma {:induction false} StateAtLast(l: Loop, step: (Loop, nat) -> (Loop, Verdict), ends: (Loop, nat) -> bool,
                                       k: nat, m: nat)
    requires k < m && forall l: Loop, j: nat :: k <= j < m ==> ends(step(l, j).0, j)
    ensures ends(StateAt(l, step, k, m), m - 1)
    decreases m - k
  {
    if k + 1 < m { StateAtLast(step(l, k).0, step, ends, k + 1, m); }
  }

  lemma StepGoesOn(l: Loop, turn: Turn, j: nat)
    requires GoesOn(turn.passes(j), turn.isArc)
    ensures var l' := StepOf(turn)(l, j).0;
      && StepOf(turn)(l, j).1.Continue? && |l'.sent| == |l.sent| + 1 && l'.lastStop == "tool_use"
      && (l'.collected <==> l.collected || Spoke(turn.passes(j)))
      && EndsWithTurn(l'.lists.api, turn.passes(j))
  {
    PassVerdict(l, turn.passes(j), turn.isArc, turn.preserve);
    PassEndsWithTurn(l, turn.passes(j), turn.isArc, turn.preserve);
  }

  /** The first `m` passes of the invocation all go on. */
  predicate GoesOnFor(turn: Turn, m: nat)
  {
    m <= turn.maxPasses && forall j: nat :: j < m ==> GoesOn(turn.passes(j), turn.isArc)
  }

  lemma ReachesPass(rows: seq<Row>, turn: Turn, m: nat)
    requires GoesOnFor(turn, m)
    ensures var s := StateAt(Begin(rows, turn), StepOf(turn), 0, m);
      && Passes(Begin(rows, turn), StepOf(turn), 0, turn.maxPasses) == Passes(s, StepOf(turn), m, turn.maxPasses)
      && (0 < m ==> s.lastStop == "tool_use" && EndsWithTurn(s.lists.api, turn.passes(m - 1)))
  {
    var l, step := Begin(rows, turn), StepOf(turn);
    var ends := (s: Loop, j: nat) => s.lastStop == "tool_use" && EndsWithTurn(s.lists.api, turn.passes(j));
    forall l: Loop, j: nat | j < m ensures step(l, j).1.Continue? && ends(step(l, j).0, j) {
      StepGoesOn(l, turn, j);
    }
    PassesFrom(l, step, 0, m, turn.maxPasses);
    if 0 < m { StateAtLast(l, step, ends, 0, m); }
  }

  lemma CountsToPass(rows: seq<Row>, turn: Turn, m: nat)
    requires GoesOnFor(turn, m)
    ensures var s := StateAt(Begin(rows, turn), StepOf(turn), 0, m);
      |s.sent| == m && (s.collected <==> exists j: nat :: j < m && Spoke(turn.passes(j)))
  {
    var l, step := Begin(rows, turn), StepOf(turn);
    var spoke := (j: nat) => Spoke(turn.passes(j));
    forall l: Loop, j: nat | j < m
      ensures |step(l, j).0.sent| == |l.sent| + 1 && (step(l, j).0.collected <==> l.collected || spoke(j))
    {
      StepGoesOn(l, turn, j);
    }
    StateAtCounts(l, step, spoke, 0, m);
    assert forall j: nat :: j < m ==> (spoke(j) <==> Spoke(turn.passes(j)));
  }

  /** The forced request for a reply: every pass went on, or the last one failed after some text. */
  predicate ForcesReply(turn: Turn, m: nat)
  {
    m == turn.maxPasses || (turn.passes(m).response.None? && exists j: nat :: j < m && Spoke(turn.passes(j)))
  }

  /** The first pass that does not go on is the last, and then a reply is forced in exactly two cases. */
  lemma InvocationEnds(rows: seq<Row>, turn: Turn, m: nat)
    requires GoesOnFor(turn, m) && (m < turn.maxPasses ==> !GoesOn(turn.passes(m), turn.isArc))
    ensures var sent := Invoke(rows, turn).sent;
      && |sent| == (if m < turn.maxPasses then m + 1 else m) + (if ForcesReply(turn, m) then 1 else 0)
      && (ForcesReply(turn, m) ==>
            var asked := sent[|sent| - 1];
            |asked| > 0 && asked[|asked| - 1]
              == ApiMessage("user", Str("Please summarize what you found and what should happen next.")))
  {
    ReachesPass(rows, turn, m);
    CountsToPass(rows, turn, m);
    var s := StateAt(Begin(rows, turn), StepOf(turn), 0, m);
    if m < turn.maxPasses {
      PassVerdict(s, turn.passes(m), turn.isArc, turn.preserve);
      StepContinues(s, turn, m);
    }
  }

  lemma {:induction false} PassesExtend(l: Loop, step: (Loop, nat) -> (Loop, Verdict), k: nat, n: nat)
    requires forall l: Loop, j: nat :: l.sent <= step(l, j).0.sent
    ensures l.sent <= Passes(l, step, k, n).0.sent
    decreases n - k
  {
    if k < n && step(l, k).1.Continue? { PassesExtend(step(l, k).0, step, k + 1, n); }
  }

  lemma SentOnward(l: Loop, turn: Turn, m: nat)
    requires m < turn.maxPasses
    ensures l.sent + [CompactStep(l, turn.passes(m), turn.preserve).lists.api]
         <= Passes(l, StepOf(turn), m, turn.maxPasses).0.sent
  {
    forall l: Loop, j: nat ensures l.sent <= StepOf(turn)(l, j).0.sent {
      PassVerdict(l, turn.passes(j), turn.isArc, turn.preserve);
    }
    PassVerdict(l, turn.passes(m), turn.isArc, turn.preserve);
    PassesExtend(StepOf(turn)(l, m).0, StepOf(turn), m + 1, turn.maxPasses);
  }

  /** The `m`-th list sent is the prompt with which the `m`-th pass starts, compacted if that is due. */
  lemma PassSends(rows: seq<Row>, turn: Turn, m: nat)
    requires GoesOnFor(turn, m) && m < turn.maxPasses
    ensures var s := StateAt(Begin(rows, turn), StepOf(turn), 0, m);
      && m < |Invoke(rows, turn).sent|
      && Invoke(rows, turn).sent[m] == CompactStep(s, turn.passes(m), turn.preserve).lists.api
  {
    ReachesPass(rows, turn, m);
    CountsToPass(rows, turn, m);
    var s := StateAt(Begin(rows, turn), StepOf(turn), 0, m);
    SentOnward(s, turn, m);
    var l := Passes(s, StepOf(turn), m, turn.maxPasses).0;
    assert l.sent[m] == (s.sent + [CompactStep(s, turn.passes(m), turn.preserve).lists.api])[m];
    assert l.sent <= Invoke(rows, turn).sent;
  }

  /** The model sees the results of the calls it made in the pass before, unless they are compacted first. */
  lemma NextPassSeesResults(rows: seq<Row>, turn: Turn, m: nat)
    requires 0 < m < turn.maxPasses && GoesOnFor(turn, m)
    ensures m < |Invoke(rows, turn).sent|
    ensures turn.passes(m).summary.None? ==> EndsWithTurn(Invoke(rows, turn).sent[m], turn.passes(m - 1))
  {
    ReachesPass(rows, turn, m);
    PassSends(rows, turn, m);
  }

  /** The first list is the stored history, with the per-turn block in a chat turn. */
  lemma FirstListSent(rows: seq<Row>, turn: Turn)
    requires 0 < turn.maxPasses && turn.passes(0).summary.None?
    ensures var merged, sent := Merge(FormatRows(rows)), Invoke(rows, turn).sent;
      0 < |sent| && sent[0] == if turn.isArc then merged else Attached(merged, turn.context)
  {
    PassSends(rows, turn, 0);
  }

  // ---------- Lengths ----------

  predicate InStep(l: Loop) { |l.lists.api| == |l.lists.ids| }

  lemma ToolStepKeepsLengths(l: Loop, content: seq<Block>, pass: Pass, isArc: bool)
    requires InStep(l)
    ensures InStep(ToolStep(l, content, pass, isArc).0)
  {
    var lists := GrowLists(l.lists, content, Results(content, pass.outcome), NextId(l.rows));
    assert |lists.api| == |lists.ids|;
  }

  /** Every tool turn and every compaction keeps the message list and the id list equal in length. */
  lemma PassKeepsLengths(l: Loop, pass: Pass, isArc: bool, preserve: int)
    requires InStep(l)
    ensures InStep(PassStep(l, pass, isArc, preserve).0)
  {
    var c := CompactStep(l, pass, preserve);
    assert InStep(c);
    var s := c.(sent := c.sent + [c.lists.api], rows := StoreNotes(c.rows, pass.before));
    if pass.response.Some? { ToolStepKeepsLengths(s, pass.response.value.content, pass, isArc); }
  }

  /** In every invocation the two lists end equal in length, whatever was compacted. */
  lemma InvocationKeepsLengths(rows: seq<Row>, turn: Turn)
    ensures InStep(Invoke(rows, turn))
  {
    forall l, k: nat | InStep(l) && k < turn.maxPasses ensures InStep(StepOf(turn)(l, k).0) {
      PassKeepsLengths(l, turn.passes(k), turn.isArc, turn.preserve);
    }
    PassesKeep(Begin(rows, turn), StepOf(turn), 0, turn.maxPasses, InStep);
  }

  // ---------- Pairing: the stored rows ----------

  /** The stored rows owe no tool_result. */
  predicate Closed(rows: seq<Row>)
  {
    Scan(Idle, FormatRows(rows)) == Idle
  }

  predicate AllPaired(sent: seq<seq<ApiMessage>>)
  {
    forall k :: 0 <= k < |sent| ==> WellPaired(sent[k])
  }

  lemma FormatOne(row: Row)
    ensures FormatRows([row]) == FormatRow(row)
  {
    assert [row][1..] == [];
  }

  lemma ScanSingle(p: Phase, m: ApiMessage)
    ensures Scan(p, [m]) == ScanOne(p, m)
  {
    assert [m][1..] == [];
  }

  /** What storing a row that is sent as `m` does. */
  lemma StoreScan(rows: seq<Row>, role: string, content: string, json: Stored, m: ApiMessage)
    requires FormatRow(Row(NextId(rows), role, content, json)) == [m]
    ensures Scan(Idle, FormatRows(Store(rows, role, content, json))) == ScanOne(Scan(Idle, FormatRows(rows)), m)
  {
    var row := Row(NextId(rows), role, content, json);
    FormatRowsAppend(rows, [row]);
    FormatOne(row);
    ScanAppend(Idle, FormatRows(rows), [m]);
    ScanSingle(Scan(Idle, FormatRows(rows)), m);
  }

  /** A row sent as a string owes nothing and settles nothing. */
  lemma StringRow(rows: seq<Row>, role: string, text: string, json: Stored)
    requires role == SYSTEM || (!json.Parsed? && (role == USER || role == ASSISTANT))
    ensures Closed(Store(rows, role, text, json)) <==> Closed(rows)
  {
    var m := FormatRow(Row(NextId(rows), role, text, json))[0];
    StoreScan(rows, role, text, json, m);
    StringsOweTheSame(Scan(Idle, FormatRows(rows)), [m]);
    ScanSingle(Scan(Idle, FormatRows(rows)), m);
  }

  function Message(note: Note): ApiMessage
  {
    match note
    case UserNote(text) => ApiMessage(USER, Str(text))
    case SystemNote(text) => ApiMessage(USER, Str("[System notification: " + text + "]"))
    case AssistantNote(text) => ApiMessage(ASSISTANT, Str(text))
  }

  function NotesPhase(p: Phase, notes: seq<Note>): Phase
    decreases |notes|
  {
    if |notes| == 0 then p else NotesPhase(ScanOne(p, Message(notes[0])), notes[1..])
  }

  lemma {:induction false} NotesScan(rows: seq<Row>, notes: seq<Note>)
    ensures Scan(Idle, FormatRows(StoreNotes(rows, notes))) == NotesPhase(Scan(Idle, FormatRows(rows)), notes)
    decreases |notes|
  {
    if |notes| > 0 {
      var note := notes[0];
      assert SYSTEM[0] != USER[0] && SYSTEM[0] != ASSISTANT[0];
      StoreScan(rows, RoleOf(note), note.text, NoJson, Message(note));
      NotesScan(StoreNote(rows, note), notes[1..]);
    }
  }

  lemma {:induction false} NotesOweTheSame(p: Phase, notes: seq<Note>)
    ensures NotesPhase(p, notes) == Idle <==> p == Idle
    decreases |notes|
  {
    if |notes| > 0 {
      StringsOweTheSame(p, [Message(notes[0])]);
      ScanSingle(p, Message(notes[0]));
      NotesOweTheSame(ScanOne(p, Message(notes[0])), notes[1..]);
    }
  }

  lemma NotesKeepClosed(rows: seq<Row>, notes: seq<Note>)
    ensures Closed(StoreNotes(rows, notes)) <==> Closed(rows)
  {
    NotesScan(rows, notes);
    NotesOweTheSame(Scan(Idle, FormatRows(rows)), notes);
  }

  /** No assistant string comes after a user or system string. */
  predicate Orderly(notes: seq<Note>)
  {
    forall i, j :: 0 <= i < j < |notes| && notes[j].AssistantNote? ==> notes[i].AssistantNote?
  }

  predicate NoneDelivered(notes: seq<Note>)
  {
    forall i :: 0 <= i < |notes| ==> !notes[i].AssistantNote?
  }

  lemma OrderlyCons(notes: seq<Note>)
    requires |notes| > 0
    ensures Orderly(notes) <==> if notes[0].AssistantNote? then Orderly(notes[1..]) else NoneDelivered(notes[1..])
    ensures NoneDelivered(notes) <==> !notes[0].AssistantNote? && NoneDelivered(notes[1..])
  {
    var rest := notes[1..];
    assert forall i :: 0 <= i < |rest| ==> rest[i] == notes[i + 1];
    assert forall i :: 1 <= i < |notes| ==> notes[i] == rest[i - 1];
  }

  /** While results are awaited the notes are harmless exactly when they are orderly. */
  lemma {:induction false} NotesWhileAwaited(ids: seq<string>, direct: bool, notes: seq<Note>)
    ensures var p := NotesPhase(Awaiting(ids, direct), notes);
      if (if direct then Orderly(notes) else NoneDelivered(notes)) then p.Awaiting? && p.ids == ids else p == Broken
    decreases |notes|
  {
    if |notes| > 0 {
      assert USER[0] != ASSISTANT[0];
      OrderlyCons(notes);
      if notes[0].AssistantNote? && !direct {
        NotesStayBroken(notes[1..]);
      } else {
        NotesWhileAwaited(ids, notes[0].AssistantNote?, notes[1..]);
      }
    }
  }

  lemma {:induction false} NotesStayBroken(notes: seq<Note>)
    ensures NotesPhase(Broken, notes) == Broken
    decreases |notes|
  {
    if |notes| > 0 { NotesStayBroken(notes[1..]); }
  }

  /** What storing a response row does. */
  lemma ResponseScan(rows: seq<Row>, role: string, text: string, content: seq<Block>)
    requires role == ASSISTANT || role == TOOL_CALL
    ensures Scan(Idle, FormatRows(Store(rows, role, text, Parsed(List(content)))))
         == if Closed(rows) then PhaseAfter(UseIds(content)) else Broken
  {
    var m := ApiMessage(ASSISTANT, List(content));
    assert USER[0] != ASSISTANT[0] && SYSTEM[0] != ASSISTANT[0] && SYSTEM[0] != TOOL_CALL[0];
    assert |TOOL_CALL| != |TOOL_RESULT|;
    StoreScan(rows, role, text, Parsed(List(content)), m);
  }

  /** A row of results settles the phase its turn has reached, unless that is broken. */
  lemma ResultScan(rows: seq<Row>, content: seq<Block>, output: Block -> string)
    requires Closed(rows) ==> UseIds(content) == []
    requires Scan(Idle, FormatRows(rows)).Awaiting? ==> Scan(Idle, FormatRows(rows)).ids == UseIds(content)
    ensures Closed(Store(rows, TOOL_RESULT, "", Parsed(List(ResultsFor(content, output)))))
       <==> Scan(Idle, FormatRows(rows)) != Broken
  {
    var m := ApiMessage(USER, List(ResultsFor(content, output)));
    assert SYSTEM[0] != TOOL_RESULT[0] && USER[0] != ASSISTANT[0];
    StoreScan(rows, TOOL_RESULT, "", Parsed(m.content), m);
    ResultsAnswer(content, output);
    LeadsAnswers(m, UseIds(content));
  }

  /**
    The rows of a tool turn leave the history closed exactly when it was closed and no assistant
    string stored while the tools ran came after a user or system string, or nothing was called.
   */
  lemma ToolRowsClosed(rows: seq<Row>, content: seq<Block>, pass: Pass)
    ensures Closed(ToolRows(rows, content, pass))
       <==> Closed(rows) && (UseIds(content) == [] || Orderly(pass.during))
  {
    var role := if TextOf(content) != "" then ASSISTANT else TOOL_CALL;
    var called := Store(rows, role, TextOf(content), Parsed(List(content)));
    ResponseScan(rows, role, TextOf(content), content);
    NotesScan(called, pass.during);
    NotesStayBroken(pass.during);
    NotesWhileAwaited(UseIds(content), true, pass.during);
    NotesOweTheSame(Scan(Idle, FormatRows(called)), pass.during);
    ResultScan(StoreNotes(called, pass.during), content, TextsOfOutputs(pass.outcome));
  }

  lemma {:induction false} TextOnlyOpensNothing(content: seq<Block>)
    requires forall i :: 0 <= i < |content| ==> content[i].Text?
    ensures UseIds(content) == []
  {
    if |content| > 0 { TextOnlyOpensNothing(content[1..]); }
  }

  /** A closing row leaves the history closed exactly when it was and its response carries no tool_use block. */
  lemma FinalRowClosed(rows: seq<Row>, content: seq<Block>)
    ensures Closed(Store(rows, ASSISTANT, TextOf(content), FinalJson(content)))
       <==> Closed(rows) && UseIds(content) == []
  {
    if FinalJson(content).Parsed? {
      ResponseScan(rows, ASSISTANT, TextOf(content), content);
    } else {
      StringRow(rows, ASSISTANT, TextOf(content), NoJson);
      TextOnlyOpensNothing(content);
    }
  }

  lemma OneCall(use: Block, outcome: Block -> ToolOutput)
    requires use.ToolUse?
    ensures TextOf([use]) == "" && UseIds([use]) == [use.id]
    ensures Results([use], outcome) == [ToolResult(use.id, outcome(use).text)]
  {
    assert [use][1..] == [];
    assert Texts([use]) == Texts([]) && UseIds([use]) == [use.id] + UseIds([]) && Uses([use]) == [use] + Uses([]);
    assert Uses([use]) == [use];
  }

  lemma NotesOneByOne(rows: seq<Row>, a: Note, b: Note)
    ensures StoreNotes(rows, [b]) == StoreNote(rows, b)
    ensures StoreNotes(rows, [a, b]) == StoreNote(StoreNote(rows, a), b)
  {
    assert [a, b][1..] == [b] && [b][1..] == [];
    assert StoreNotes(rows, [a, b]) == StoreNotes(StoreNote(rows, a), [b]);
    var once := StoreNote(rows, a);
    assert StoreNotes(once, [b]) == StoreNotes(StoreNote(once, b), []);
  }

  /** A conversation that consists of one call, the notes stored while it runs, and its result. */
  lemma CallAndResult(use: Block, outcome: Block -> ToolOutput, during: seq<Note>, noted: seq<Row>)
    requires use.ToolUse?
    requires StoreNotes([Row(1, TOOL_CALL, "", Parsed(List([use])))], during) == noted
    ensures var result := Row(NextId(noted), TOOL_RESULT, "", Parsed(List([ToolResult(use.id, outcome(use).text)])));
      WellPaired(Merge(FormatRows(noted + [result]))) <==> Orderly(during)
  {
    var pass := Pass(None, [], None, "", None, outcome, during);
    OneCall(use, outcome);
    assert Store([], TOOL_CALL, "", Parsed(List([use]))) == [Row(1, TOOL_CALL, "", Parsed(List([use])))];
    ToolRowsClosed([], [use], pass);
    MergePairs(FormatRows(ToolRows([], [use], pass)));
  }

  /**
    The smallest break: a notification and then a delivered message stored between a call and its
    results. The delivered message alone does no harm.
   */
  lemma DeliveryAfterNotificationBreaksPairing(use: Block, output: string, notice: string, text: string)
    requires use.ToolUse?
    ensures var call := Row(1, TOOL_CALL, "", Parsed(List([use])));
      var result := Parsed(List([ToolResult(use.id, output)]));
      && !WellPaired(Merge(FormatRows([
           call, Row(2, SYSTEM, notice, NoJson), Row(3, ASSISTANT, text, NoJson), Row(4, TOOL_RESULT, "", result)])))
      && WellPaired(Merge(FormatRows([call, Row(2, ASSISTANT, text, NoJson), Row(3, TOOL_RESULT, "", result)])))
  {
    var call, result := Row(1, TOOL_CALL, "", Parsed(List([use]))), Parsed(List([ToolResult(use.id, output)]));
    var outcome := (b: Block) => ToolOutput(output, false);
    OneCall(use, outcome);

    var noted := [call, Row(2, SYSTEM, notice, NoJson), Row(3, ASSISTANT, text, NoJson)];
    NotesOneByOne([call], SystemNote(notice), AssistantNote(text));
    assert StoreNotes([call], [SystemNote(notice), AssistantNote(text)]) == noted;
    CallAndResult(use, outcome, [SystemNote(notice), AssistantNote(text)], noted);
    assert [SystemNote(notice), AssistantNote(text)][1] == AssistantNote(text);
    assert noted + [Row(4, TOOL_RESULT, "", result)]
        == [call, Row(2, SYSTEM, notice, NoJson), Row(3, ASSISTANT, text, NoJson), Row(4, TOOL_RESULT, "", result)];

    var delivered := [call, Row(2, ASSISTANT, text, NoJson)];
    assert StoreNotes([call], [AssistantNote(text)]) == delivered;
    CallAndResult(use, outcome, [AssistantNote(text)], delivered);
    assert delivered + [Row(3, TOOL_RESULT, "", result)]
        == [call, Row(2, ASSISTANT, text, NoJson), Row(3, TOOL_RESULT, "", result)];
  }

  // ---------- Pairing: the lists sent ----------

  /** Each tool turn appends a call and its results, so the list stays as well paired as it was. */
  lemma TurnIsPaired(msgs: seq<ApiMessage>, content: seq<Block>, outcome: Block -> ToolOutput)
    ensures WellPaired(msgs + [ApiMessage(ASSISTANT, List(content)), ApiMessage(USER, List(Results(content, outcome)))])
       <==> WellPaired(msgs)
  {
    ResultsAnswer(content, TextsOfOutputs(outcome));
    var call, answer := ApiMessage(ASSISTANT, List(content)), ApiMessage(USER, List(Results(content, outcome)));
    LeadsAnswers(answer, UseIds(content));
    assert USER[0] != ASSISTANT[0];
    assert [call, answer][1..] == [answer] && [answer][1..] == [];
    assert Chain(Opens(call), [answer]);
    ChainAppend([], msgs, [call, answer]);
  }

  lemma AllPairedNext(sent: seq<seq<ApiMessage>>, msgs: seq<ApiMessage>)
    ensures AllPaired(sent + [msgs]) <==> AllPaired(sent) && WellPaired(msgs)
  {
    var all := sent + [msgs];
    assert all[|sent|] == msgs && forall k :: 0 <= k < |sent| ==> all[k] == sent[k];
  }

  // ---------- Pairing: one pass ----------

  /** What a pass must do for the stored rows to stay closed. */
  predicate AnswersItsCalls(pass: Pass)
  {
    pass.response.Some? ==>
      || UseIds(pass.response.value.content) == []
      || (pass.response.value.stopReason == TOOL_USE && Orderly(pass.during))
  }

  lemma ToolStepClosed(l: Loop, content: seq<Block>, pass: Pass, isArc: bool)
    ensures Closed(ToolStep(l, content, pass, isArc).0.rows)
       <==> Closed(l.rows) && (UseIds(content) == [] || Orderly(pass.during))
  {
    ToolRowsClosed(l.rows, content, pass);
    var rows := ToolRows(l.rows, content, pass);
    var replies := if isArc then [] else FinalReplies(Uses(content), pass.outcome);
    StringRow(rows, ASSISTANT, Join(replies, "\n\n"), NoJson);
  }

  /** The state in which a pass calls the model, and the one in which it handles the answer. */
  function Asked(l: Loop, pass: Pass, preserve: int): Loop
  {
    var c := CompactStep(l, pass, preserve);
    c.(sent := c.sent + [c.lists.api], rows := StoreNotes(c.rows, pass.before))
  }

  lemma AskedClosed(l: Loop, pass: Pass, preserve: int)
    ensures Closed(Asked(l, pass, preserve).rows) <==> Closed(l.rows)
  {
    var c := CompactStep(l, pass, preserve);
    if c != l { StringRow(l.rows, SYSTEM, "[Compacted context]\n" + pass.summary.value, NoJson); }
    NotesKeepClosed(c.rows, pass.before);
  }

  lemma PassCloses(l: Loop, pass: Pass, isArc: bool, preserve: int)
    ensures Closed(PassStep(l, pass, isArc, preserve).0.rows) <==> Closed(l.rows) && AnswersItsCalls(pass)
  {
    var s := Asked(l, pass, preserve);
    AskedClosed(l, pass, preserve);
    match pass.response
    case None => StringRow(s.rows, SYSTEM, pass.errorText, ErrorJson(pass));
    case Some(r) =>
      if r.stopReason != TOOL_USE {
        FinalRowClosed(s.rows, r.content);
      } else {
        ToolStepClosed(s, r.content, pass, isArc);
      }
  }

  /** A compaction due in this pass, if any, keeps every pair on one side of its cut. */
  predicate CutsBetweenPairs(l: Loop, pass: Pass, preserve: int)
  {
    pass.summary.Some? && 0 < preserve < |l.lists.api| ==> Answers(l.lists.api[|l.lists.api| - preserve]) == []
  }

  predicate ListPaired(l: Loop)
  {
    WellPaired(l.lists.api)
  }

  predicate Paired(l: Loop)
  {
    ListPaired(l) && AllPaired(l.sent)
  }

  /** Apart from the list it sends, a pass leaves the prompt list as well paired as a compaction made it. */
  lemma PassLists(l: Loop, pass: Pass, isArc: bool, preserve: int)
    ensures var l' := PassStep(l, pass, isArc, preserve).0;
      && l'.sent == l.sent + [CompactStep(l, pass, preserve).lists.api]
      && (ListPaired(l') <==> ListPaired(CompactStep(l, pass, preserve)))
  {
    if pass.response.Some? {
      TurnIsPaired(CompactStep(l, pass, preserve).lists.api, pass.response.value.content, pass.outcome);
    }
  }

  lemma CompactStepPairs(l: Loop, pass: Pass, preserve: int)
    requires ListPaired(l)
    ensures ListPaired(CompactStep(l, pass, preserve)) <==> CutsBetweenPairs(l, pass, preserve)
  {
    if pass.summary.Some? && |l.lists.api| > preserve {
      CompactionPairing(l.lists, preserve, pass.summary.value, NextId(l.rows));
    }
  }

  /** A list that is not well paired has been sent, or the next one is well paired. */
  predicate SentShows(l: Loop)
  {
    AllPaired(l.sent) ==> ListPaired(l)
  }

  lemma PassPairs(l: Loop, pass: Pass, isArc: bool, preserve: int)
    requires SentShows(l)
    ensures SentShows(PassStep(l, pass, isArc, preserve).0)
    ensures Paired(PassStep(l, pass, isArc, preserve).0) <==> Paired(l) && CutsBetweenPairs(l, pass, preserve)
  {
    PassLists(l, pass, isArc, preserve);
    AllPairedNext(l.sent, CompactStep(l, pass, preserve).lists.api);
    if ListPaired(l) { CompactStepPairs(l, pass, preserve); }
  }

  // ---------- Pairing: one invocation ----------

  /** `cond` holds of every pass that is made, at the state in which it starts. */
  predicate EachPass(l: Loop, step: (Loop, nat) -> (Loop, Verdict), cond: (Loop, nat) -> bool, k: nat, n: nat)
    decreases n - k
  {
    k < n ==> cond(l, k) && (step(l, k).1.Continue? ==> EachPass(step(l, k).0, step, cond, k + 1, n))
  }

  /** A property that each pass keeps exactly when it meets `cond` survives exactly when all of them do. */
  lemma {:induction false} PassesKeepExactly(l: Loop, step: (Loop, nat) -> (Loop, Verdict), cond: (Loop, nat) -> bool,
                                             k: nat, n: nat, side: Loop -> bool, inv: Loop -> bool)
    requires side(l)
    requires forall l, k: nat :: side(l) && k < n ==>
      side(step(l, k).0) && (inv(step(l, k).0) <==> inv(l) && cond(l, k))
    ensures side(Passes(l, step, k, n).0)
    ensures inv(Passes(l, step, k, n).0) <==> inv(l) && EachPass(l, step, cond, k, n)
    decreases n - k
  {
    if k < n && step(l, k).1.Continue? { PassesKeepExactly(step(l, k).0, step, cond, k + 1, n, side, inv); }
  }

  /** Every call of the invocation is answered, with its results in order. */
  predicate CallsAnswered(rows: seq<Row>, turn: Turn)
  {
    EachPass(Begin(rows, turn), StepOf(turn), (l, k: nat) => AnswersItsCalls(turn.passes(k)), 0, turn.maxPasses)
  }

  /** No compaction of the invocation splits a pair. */
  predicate CutsClean(rows: seq<Row>, turn: Turn)
  {
    EachPass(Begin(rows, turn), StepOf(turn), (l, k: nat) => CutsBetweenPairs(l, turn.passes(k), turn.preserve),
             0, turn.maxPasses)
  }

  predicate RowsClosed(l: Loop)
  {
    Closed(l.rows)
  }

  /** An invocation leaves the history closed exactly when it was, and every call it stored was answered. */
  lemma InvocationCloses(rows: seq<Row>, turn: Turn)
    ensures Closed(Invoke(rows, turn).rows) <==> Closed(rows) && CallsAnswered(rows, turn)
  {
    forall l, k: nat | k < turn.maxPasses
      ensures RowsClosed(StepOf(turn)(l, k).0) <==> RowsClosed(l) && AnswersItsCalls(turn.passes(k))
    {
      PassCloses(l, turn.passes(k), turn.isArc, turn.preserve);
    }
    PassesKeepExactly(Begin(rows, turn), StepOf(turn), (l, k: nat) => AnswersItsCalls(turn.passes(k)),
                      0, turn.maxPasses, l => true, RowsClosed);
    var l := Passes(Begin(rows, turn), StepOf(turn), 0, turn.maxPasses).0;
    if turn.finalText.Some? { StringRow(l.rows, ASSISTANT, turn.finalText.value, NoJson); }
  }

  lemma FinishPairs(l: Loop, turn: Turn)
    requires SentShows(l)
    ensures AllPaired(l.sent) <==> Paired(l)
    ensures AllPaired(Finish(l, turn).sent) <==> Paired(l)
  {
    var ask := ApiMessage(USER, Str(SUMMARY_REQUEST));
    assert [ask][1..] == [];
    ChainAppend([], l.lists.api, [ask]);
    AllPairedNext(l.sent, l.lists.api + [ask]);
  }

  /** The list an invocation starts from is well paired exactly when the stored history is closed. */
  lemma BeginPaired(rows: seq<Row>, turn: Turn)
    ensures ListPaired(Begin(rows, turn)) <==> Closed(rows)
  {
    MergePairs(FormatRows(rows));
    AttachKeepsPairing(Merge(FormatRows(rows)), turn.context);
  }

  /** From a closed history, an invocation sends only well-paired lists exactly when no compaction splits a pair. */
  lemma InvocationPairs(rows: seq<Row>, turn: Turn)
    requires Closed(rows)
    ensures AllPaired(Invoke(rows, turn).sent) <==> CutsClean(rows, turn)
  {
    BeginPaired(rows, turn);
    forall l, k: nat | SentShows(l) && k < turn.maxPasses
      ensures SentShows(StepOf(turn)(l, k).0)
      ensures Paired(StepOf(turn)(l, k).0) <==> Paired(l) && CutsBetweenPairs(l, turn.passes(k), turn.preserve)
    {
      PassPairs(l, turn.passes(k), turn.isArc, turn.preserve);
    }
    PassesKeepExactly(Begin(rows, turn), StepOf(turn),
                      (l, k: nat) => CutsBetweenPairs(l, turn.passes(k), turn.preserve),
                      0, turn.maxPasses, SentShows, Paired);
    FinishPairs(Passes(Begin(rows, turn), StepOf(turn), 0, turn.maxPasses).0, turn);
  }

  predicate NeverCompacts(turn: Turn)
  {
    forall k: nat :: k < turn.maxPasses ==> turn.passes(k).summary.None?
  }

  /** The prompt list is not well paired, and whatever was sent shows it. */
  predicate Astray(l: Loop)
  {
    !ListPaired(l) && (AllPaired(l.sent) ==> l.sent == [])
  }

  lemma {:induction false} PassesSend(l: Loop, step: (Loop, nat) -> (Loop, Verdict), k: nat, n: nat)
    requires k < n
    requires forall l, k: nat :: k < n ==> step(l, k).0.sent != []
    ensures Passes(l, step, k, n).0.sent != []
    decreases n - k
  {
    if step(l, k).1.Continue? && k + 1 < n { PassesSend(step(l, k).0, step, k + 1, n); }
  }

  lemma {:induction false} EachPassHolds(l: Loop, step: (Loop, nat) -> (Loop, Verdict), cond: (Loop, nat) -> bool,
                                         k: nat, n: nat)
    requires forall l, k: nat :: k < n ==> cond(l, k)
    ensures EachPass(l, step, cond, k, n)
    decreases n - k
  {
    if k < n && step(l, k).1.Continue? { EachPassHolds(step(l, k).0, step, cond, k + 1, n); }
  }

  lemma AstrayFinish(l: Loop, turn: Turn)
    requires Astray(l) && (l.sent != [] || !l.collected)
    ensures !AllPaired(Finish(l, turn).sent)
  {
    var ask := ApiMessage(USER, Str(SUMMARY_REQUEST));
    assert [ask][1..] == [];
    ChainAppend([], l.lists.api, [ask]);
    AllPairedNext(l.sent, l.lists.api + [ask]);
  }

  /** Without a compaction the lists sent are well paired exactly when the history was closed. */
  lemma PlainInvocationPairs(rows: seq<Row>, turn: Turn)
    requires NeverCompacts(turn)
    ensures AllPaired(Invoke(rows, turn).sent) <==> Closed(rows)
  {
    BeginPaired(rows, turn);
    if Closed(rows) {
      InvocationPairs(rows, turn);
      EachPassHolds(Begin(rows, turn), StepOf(turn),
                    (l, k: nat) => CutsBetweenPairs(l, turn.passes(k), turn.preserve), 0, turn.maxPasses);
    } else {
      AstrayPasses(Begin(rows, turn), turn);
      AstrayFinish(Passes(Begin(rows, turn), StepOf(turn), 0, turn.maxPasses).0, turn);
    }
  }

  lemma AstrayPasses(l: Loop, turn: Turn)
    requires NeverCompacts(turn) && Astray(l)
    ensures Astray(Passes(l, StepOf(turn), 0, turn.maxPasses).0)
    ensures turn.maxPasses > 0 ==> Passes(l, StepOf(turn), 0, turn.maxPasses).0.sent != []
  {
    forall l, k: nat | k < turn.maxPasses
      ensures Astray(l) ==> Astray(StepOf(turn)(l, k).0)
      ensures StepOf(turn)(l, k).0.sent != []
    {
      PassLists(l, turn.passes(k), turn.isArc, turn.preserve);
      AllPairedNext(l.sent, l.lists.api);
    }
    PassesKeep(l, StepOf(turn), 0, turn.maxPasses, Astray);
    if turn.maxPasses > 0 { PassesSend(l, StepOf(turn), 0, turn.maxPasses); }
  }

  // ---------- Pairing: whole conversations ----------

  datatype Op = Said(note: Note) | Chat(turn: Turn)

  function AfterOp(rows: seq<Row>, op: Op): seq<Row>
  {
    match op
    case Said(note) => StoreNote(rows, note)
    case Chat(turn) => Invoke(rows, turn).rows
  }

  function SentBy(rows: seq<Row>, op: Op): seq<seq<ApiMessage>>
  {
    match op
    case Said(_) => []
    case Chat(turn) => Invoke(rows, turn).sent
  }

  /** Every list the invocations of a conversation send. */
  function Sent(rows: seq<Row>, ops: seq<Op>): seq<seq<ApiMessage>>
    decreases |ops|
  {
    if |ops| == 0 then [] else SentBy(rows, ops[0]) + Sent(AfterOp(rows, ops[0]), ops[1..])
  }

  function After(rows: seq<Row>, ops: seq<Op>): seq<Row>
    decreases |ops|
  {
    if |ops| == 0 then rows else After(AfterOp(rows, ops[0]), ops[1..])
  }

  /** In every invocation every call is answered and no compaction splits a pair. */
  predicate Undisturbed(rows: seq<Row>, ops: seq<Op>)
    decreases |ops|
  {
    |ops| > 0 ==>
      && (ops[0].Chat? ==> CallsAnswered(rows, ops[0].turn) && CutsClean(rows, ops[0].turn))
      && Undisturbed(AfterOp(rows, ops[0]), ops[1..])
  }

  lemma AllPairedAppend(a: seq<seq<ApiMessage>>, b: seq<seq<ApiMessage>>)
    ensures AllPaired(a + b) <==> AllPaired(a) && AllPaired(b)
  {
    assert forall k :: 0 <= k < |a| ==> (a + b)[k] == a[k];
    assert forall k :: 0 <= k < |b| ==> (a + b)[|a| + k] == b[k];
  }

  lemma OpCloses(rows: seq<Row>, op: Op)
    ensures Closed(AfterOp(rows, op)) <==> Closed(rows) && (op.Chat? ==> CallsAnswered(rows, op.turn))
  {
    match op
    case Said(note) => StringRow(rows, RoleOf(note), note.text, NoJson);
    case Chat(turn) => InvocationCloses(rows, turn);
  }

  /** A history that owes results never stops owing them. */
  lemma {:induction false} OwingStays(rows: seq<Row>, ops: seq<Op>)
    ensures Closed(After(rows, ops)) ==> Closed(rows)
    decreases |ops|
  {
    if |ops| > 0 {
      OpCloses(rows, ops[0]);
      OwingStays(AfterOp(rows, ops[0]), ops[1..]);
    }
  }

  lemma {:induction false} ConversationFrom(rows: seq<Row>, ops: seq<Op>)
    requires Closed(rows)
    ensures Undisturbed(rows, ops) <==> AllPaired(Sent(rows, ops)) && Closed(After(rows, ops))
    decreases |ops|
  {
    if |ops| > 0 {
      var rows' := AfterOp(rows, ops[0]);
      OpCloses(rows, ops[0]);
      OwingStays(rows', ops[1..]);
      AllPairedAppend(SentBy(rows, ops[0]), Sent(rows', ops[1..]));
      if ops[0].Chat? { InvocationPairs(rows, ops[0].turn); }
      if Closed(rows') { ConversationFrom(rows', ops[1..]); }
    }
  }

  lemma NothingOwedAtFirst()
    ensures Closed([])
  {}

  /**
    In every conversation, with strings of every kind stored at any point: each list sent answers
    each tool_use immediately, with results that lead the message and match in order, and nothing
    is owed at the end, if and only if no invocation left a call unanswered or cut a pair.
   */
  lemma EveryListSentIsPaired(rows: seq<Row>, ops: seq<Op>)
    requires rows == []
    ensures Undisturbed(rows, ops) <==> AllPaired(Sent(rows, ops)) && Closed(After(rows, ops))
  {
    NothingOwedAtFirst();
    ConversationFrom(rows, ops);
  }

  lemma {:induction false} SentAppend(rows: seq<Row>, ops: seq<Op>, op: Op)
    ensures Sent(rows, ops + [op]) == Sent(rows, ops) + SentBy(After(rows, ops), op)
    decreases |ops|
  {
    if |ops| == 0 {
      assert ([] + [op])[1..] == [];
      assert ops + [op] == [op];
    } else {
      assert (ops + [op])[1..] == ops[1..] + [op];
      SentAppend(AfterOp(rows, ops[0]), ops[1..], op);
      Assoc(SentBy(rows, ops[0]), Sent(AfterOp(rows, ops[0]), ops[1..]), SentBy(After(rows, ops), op));
    }
  }

  /** What the provider sees tells: one more plain turn, and the lists sent are all well paired exactly then. */
  lemma NextTurnShowsIt(rows: seq<Row>, ops: seq<Op>, turn: Turn)
    requires rows == [] && NeverCompacts(turn)
    ensures Undisturbed(rows, ops) <==> AllPaired(Sent(rows, ops + [Chat(turn)]))
  {
    EveryListSentIsPaired(rows, ops);
    SentAppend(rows, ops, Chat(turn));
    AllPairedAppend(Sent(rows, ops), SentBy(After(rows, ops), Chat(turn)));
    PlainInvocationPairs(After(rows, ops), turn);
  }

  // ---------- The program's loop ----------

  method ExecuteTools(content: seq<Block>, pass: Pass) returns (results: seq<Block>, replies: seq<string>)
    ensures results == Results(content, pass.outcome)
    ensures replies == FinalReplies(Uses(content), pass.outcome)
    ensures AnswersCalls(results, Uses(content), pass.outcome)
    ensures |replies| > 0 <==>
      exists i :: 0 <= i < |content| && content[i].ToolUse? && pass.outcome(content[i]).isFinalReply
  {
    ResultsAnswerCalls(content, pass.outcome);
    NoRepliesMeaning(content, pass.outcome);
    results, replies := [], [];
    for i := 0 to |content|
      invariant results == Results(content[..i], pass.outcome)
      invariant replies == FinalReplies(Uses(content[..i]), pass.outcome)
    {
      var block := content[i];
      assert content[..i + 1] == content[..i] + [block];
      UsesAppend(content[..i], [block]);
      if block.ToolUse? {
        var output := pass.outcome(block);
        if output.isFinalReply {
          replies := replies + [output.text];
        }
        results := results + [ToolResult(block.id, output.text)];
        assert Uses(content[..i + 1]) == Uses(content[..i]) + [block];
        assert Uses(content[..i + 1])[..|Uses(content[..i])|] == Uses(content[..i]);
      } else {
        assert Uses(content[..i + 1]) == Uses(content[..i]);
      }
    }
    assert content[..|content|] == content;
  }

  /** The chat history of one conversation and the invocation loop over it. */
  class Conversation {
    var rows: seq<Row>

    constructor ()
      ensures rows == [] && Closed(rows)
    {
      rows := [];
    }

    method AddMessage(role: string, content: string, json: Stored) returns (id: int)
      modifies this
      ensures rows == Store(old(rows), role, content, json) && id == NextId(old(rows))
      ensures rows == old(rows) + [Row(id, role, content, json)]
      ensures id == if |old(rows)| == 0 then 1 else old(rows)[|old(rows)| - 1].id + 1
    {
      id := if |rows| == 0 then 1 else rows[|rows| - 1].id + 1;
      rows := rows + [Row(id, role, content, json)];
    }

    method AddNotes(notes: seq<Note>)
      modifies this
      ensures rows == StoreNotes(old(rows), notes)
      ensures old(rows) <= rows && |rows| == |old(rows)| + |notes| && NotesFollow(rows, notes, |old(rows)|)
    {
      StoredNotes(rows, notes);
      for i := 0 to |notes|
        invariant StoreNotes(rows, notes[i..]) == StoreNotes(old(rows), notes)
      {
        assert notes[i..][1..] == notes[i + 1..];
        match notes[i]
        case UserNote(text) => var _ := AddMessage(USER, text, NoJson);
        case SystemNote(text) => var _ := AddMessage(SYSTEM, text, NoJson);
        case AssistantNote(text) => var _ := AddMessage(ASSISTANT, text, NoJson);
      }
    }

    method ToolTurn(l: Loop, content: seq<Block>, pass: Pass, isArc: bool) returns (l': Loop, verdict: Verdict)
      requires l.rows == rows
      modifies this
      ensures (l', verdict) == ToolStep(l, content, pass, isArc) && rows == l'.rows
      ensures verdict == if GoesOnAfter(content, pass.outcome, isArc) then Continue else Break
      ensures l'.lastStop == if verdict.Continue? then "tool_use" else "end_turn"
      ensures old(rows) <= rows && CallStored(rows, content, pass, |old(rows)|)
      ensures TurnFollows(l'.lists.api, l.lists.api, content, pass.outcome) && l'.sent == l.sent
    {
      ToolStepVerdict(l, content, pass, isArc);
      ToolStepStores(l, content, pass, isArc);
      ToolStepLists(l, content, pass, isArc);
      var replies;
      l', replies := StoreTurn(l, content, pass);
      if !isArc && |replies| > 0 {
        var _ := AddMessage(ASSISTANT, Join(replies, "\n\n"), NoJson);
        return l'.(rows := rows, collected := true, lastStop := END_TURN), Break;
      }
      if AllAsync(Uses(content)) && TextOf(content) != "" {
        return l'.(lastStop := END_TURN), Break;
      }
      return l', Continue;
    }

    /** Stores the call, runs its tools and stores their results. */
    method StoreTurn(l: Loop, content: seq<Block>, pass: Pass) returns (l': Loop, replies: seq<string>)
      requires l.rows == rows
      modifies this
      ensures rows == ToolRows(old(rows), content, pass) && replies == FinalReplies(Uses(content), pass.outcome)
      ensures var results := Results(content, pass.outcome);
        l' == Loop(rows, GrowLists(l.lists, content, results, NextId(old(rows))), l.sent,
                   l.collected || TextOf(content) != "", TOOL_USE)
    {
      var text := TextOf(content);
      var role := if text != "" then ASSISTANT else TOOL_CALL;
      var id := AddMessage(role, text, Parsed(List(content)));
      AddNotes(pass.during);
      var results;
      results, replies := ExecuteTools(content, pass);
      var _ := AddMessage(TOOL_RESULT, "", Parsed(List(results)));
      var api := l.lists.api + [ApiMessage(ASSISTANT, List(content))];
      api := api + [ApiMessage(USER, List(results))];
      var ids := l.lists.ids + [Some(id)];
      ids := ids + [None];
      assert Lists(api, ids) == GrowLists(l.lists, content, results, id);
      l' := Loop(rows, Lists(api, ids), l.sent, l.collected || text != "", TOOL_USE);
    }

    /** One pass: compact, call the model, and store what its response asks for. */
    method OnePass(l: Loop, pass: Pass, isArc: bool, preserve: int) returns (l': Loop, verdict: Verdict)
      requires l.rows == rows
      modifies this
      ensures (l', verdict) == PassStep(l, pass, isArc, preserve) && rows == l'.rows
      ensures verdict.Continue? <==> GoesOn(pass, isArc)
      ensures verdict.Return? <==> pass.response.None? && !l.collected
      ensures |l'.sent| == |l.sent| + 1 && l.sent <= l'.sent
      ensures !(pass.summary.Some? && |l.lists.api| > preserve) ==> l'.sent[|l.sent|] == l.lists.api
    {
      PassVerdict(l, pass, isArc, preserve);
      var lists := l.lists;
      if pass.summary.Some? && |lists.api| > preserve {
        var id := AddMessage(SYSTEM, "[Compacted context]\n" + pass.summary.value, NoJson);
        lists := Compact(lists, preserve, pass.summary, id);
      }
      var sent := l.sent + [lists.api];
      AddNotes(pass.before);
      l' := Loop(rows, lists, sent, l.collected, l.lastStop);
      if pass.response.None? {
        if l.collected {
          return l', Break;
        }
        var _ := AddMessage(SYSTEM, pass.errorText, ErrorJson(pass));
        return l'.(rows := rows), Return;
      }
      var content, stop := pass.response.value.content, pass.response.value.stopReason;
      if stop != TOOL_USE {
        var _ := AddMessage(ASSISTANT, TextOf(content), FinalJson(content));
        return l'.(rows := rows, collected := true, lastStop := stop), Break;
      }
      l', verdict := ToolTurn(l', content, pass, isArc);
    }

    method RunPasses(first: Loop, turn: Turn) returns (l: Loop, verdict: Verdict)
      requires first.rows == rows
      modifies this
      ensures (l, verdict) == Passes(first, StepOf(turn), 0, turn.maxPasses) && rows == l.rows
    {
      l := first;
      for k := 0 to turn.maxPasses
        invariant l.rows == rows
        invariant Passes(l, StepOf(turn), k, turn.maxPasses) == Passes(first, StepOf(turn), 0, turn.maxPasses)
      {
        l, verdict := OnePass(l, turn.passes(k), turn.isArc, turn.preserve);
        if !verdict.Continue? {
          return;
        }
      }
      verdict := Break;
    }

    method ForceFinalResponse(l: Loop, turn: Turn) returns (l': Loop)
      requires l.rows == rows
      modifies this
      ensures l' == Finish(l, turn) && rows == l'.rows
      ensures l.lastStop != "tool_use" && l.collected ==> l' == l
      ensures l.lastStop == "tool_use" || !l.collected ==>
        && |l'.sent| == |l.sent| + 1
        && l'.sent[|l.sent|] == l.lists.api
             + [ApiMessage("user", Str("Please summarize what you found and what should happen next."))]
        && |rows| == |old(rows)| + (if turn.finalText.Some? then 1 else 0)
        && (turn.finalText.Some? ==>
              rows[|old(rows)|].role == "assistant" && rows[|old(rows)|].content == turn.finalText.value)
    {
      if l.lastStop != TOOL_USE && l.collected {
        return l;
      }
      var asked := l.lists.api + [ApiMessage(USER, Str(SUMMARY_REQUEST))];
      if turn.finalText.Some? {
        var _ := AddMessage(ASSISTANT, turn.finalText.value, NoJson);
      }
      l' := l.(sent := l.sent + [asked], rows := rows);
    }

    /** The prompt an invocation starts from. */
    method Prepare(turn: Turn) returns (l: Loop)
      ensures l == Begin(rows, turn)
    {
      var api := FormatMessagesForApi(rows);
      var ids := BuildMessageIdMap(rows, api);
      assert ids == IdMap(rows, |api|);
      if !turn.isArc {
        api := AttachPerTurnContext(api, turn.context);
      }
      l := Loop(rows, Lists(api, ids), [], false, "");
    }

    method InvokeForChat(turn: Turn) returns (l: Loop)
      modifies this
      ensures l == Invoke(old(rows), turn) && rows == l.rows
      ensures Closed(rows) <==> old(Closed(rows)) && CallsAnswered(old(rows), turn)
      ensures old(Closed(rows)) ==> (AllPaired(l.sent) <==> CutsClean(old(rows), turn))
      ensures forall m: nat :: 0 < m < turn.maxPasses && GoesOnFor(turn, m) ==>
        m < |l.sent| && (turn.passes(m).summary.None? ==> EndsWithTurn(l.sent[m], turn.passes(m - 1)))
    {
      forall m: nat | 0 < m < turn.maxPasses && GoesOnFor(turn, m)
        ensures m < |Invoke(rows, turn).sent|
        ensures turn.passes(m).summary.None? ==> EndsWithTurn(Invoke(rows, turn).sent[m], turn.passes(m - 1))
      {
        NextPassSeesResults(rows, turn, m);
      }
      InvocationCloses(rows, turn);
      if Closed(rows) { InvocationPairs(rows, turn); }
      l := Prepare(turn);
      var verdict: Verdict;
      l, verdict := RunPasses(l, turn);
      if !verdict.Return? {
        l := ForceFinalResponse(l, turn);
      }
    }
  }
}
