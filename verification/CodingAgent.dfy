/** The loop of the built-in coding agent: its counters, its message list, and how a run may end. */
module CodingAgent {
  import opened Common
  import opened Messages
  import opened ApiStandard
  import opened Pairing

  const MAX_NUDGES: nat := 2
  const MAX_VERIFY_REJECTS: nat := 3
  const EXPLORATION_NUDGE_THRESHOLD: nat := 8
  const WRITE_TOOLS: set<string> := {"write_file", "edit_file", "delete_file"}
  const WRITE_NUDGE: string := "You have not written or edited any files yet."
  const EXPLORE_NUDGE: string := "You have spent many iterations reading files without making changes."
  const REJECTED: string := "Your finalization was REJECTED by the content verifier."

  /** What the environment does in one iteration; `response` is None when all retries failed. */
  datatype Turn = Turn(
    shutdown: bool,
    timedOut: bool,
    slot: bool,
    shutdownLate: bool,
    response: Option<Response>)

  datatype Outcome = Interrupted | TimedOut | NoSlot | NoResponse | EndedTurn | TextOnly | OutOfIterations

  datatype Report = Report(outcome: Outcome, agent: Agent, iterations: nat, calls: nat)

  /** An `end_turn` response carries no tool_use block. */
  predicate Honest(t: Turn)
  {
    t.response.Some? && t.response.value.stopReason == END_TURN ==> UseIds(t.response.value.content) == []
  }

  // ---------- What a message list says was written ----------

  predicate IsWrite(b: Block)
  {
    b.ToolUse? && b.name in WRITE_TOOLS
  }

  function PathOf(b: Block): set<string>
  {
    if IsWrite(b) && b.input.JObject? && "path" in b.input.fields && b.input.fields["path"].JString?
    then {b.input.fields["path"].s} else {}
  }

  function PathsIn(blocks: seq<Block>): set<string>
  {
    if |blocks| == 0 then {} else PathsIn(blocks[..|blocks| - 1]) + PathOf(blocks[|blocks| - 1])
  }

  predicate WritesIn(blocks: seq<Block>)
  {
    exists i :: 0 <= i < |blocks| && IsWrite(blocks[i])
  }

  function BlocksOf(m: ApiMessage): seq<Block>
  {
    if m.role == ASSISTANT && m.content.List? then m.content.blocks else []
  }

  /** The paths of every write call the model made. */
  function WrittenPaths(msgs: seq<ApiMessage>): set<string>
  {
    if |msgs| == 0 then {} else WrittenPaths(msgs[..|msgs| - 1]) + PathsIn(BlocksOf(msgs[|msgs| - 1]))
  }

  predicate WroteAnything(msgs: seq<ApiMessage>)
  {
    exists i :: 0 <= i < |msgs| && WritesIn(BlocksOf(msgs[i]))
  }

  /** The message list is well paired, and the flags record exactly the write calls in it. */
  predicate Faithful(msgs: seq<ApiMessage>, modified: bool, touched: set<string>)
  {
    && WellPaired(msgs)
    && (modified <==> WroteAnything(msgs))
    && touched == WrittenPaths(msgs)
  }

  /** A call of one of the three write tools, and the path it names. */
  predicate WritesTo(b: Block, path: string)
  {
    && b.ToolUse? && (b.name == "write_file" || b.name == "edit_file" || b.name == "delete_file")
    && b.input.JObject? && "path" in b.input.fields && b.input.fields["path"] == JString(path)
  }

  lemma PathMeaning(b: Block, path: string)
    ensures path in PathOf(b) <==> WritesTo(b, path)
  {}

  lemma {:induction false} PathsMeaning(blocks: seq<Block>, path: string)
    ensures path in PathsIn(blocks) <==> exists b :: b in blocks && WritesTo(b, path)
  {
    if |blocks| > 0 {
      var front, last := blocks[..|blocks| - 1], blocks[|blocks| - 1];
      PathsMeaning(front, path);
      PathMeaning(last, path);
      assert blocks == front + [last] && last in blocks;
    }
  }

  lemma WritesMeaning(blocks: seq<Block>)
    ensures WritesIn(blocks) <==>
      exists b :: b in blocks && b.ToolUse? && b.name in ["write_file", "edit_file", "delete_file"]
  {
    if WritesIn(blocks) {
      var i :| 0 <= i < |blocks| && IsWrite(blocks[i]);
      assert blocks[i] in blocks;
    }
  }

  lemma {:induction false} NoUsesNoWrites(blocks: seq<Block>)
    requires UseIds(blocks) == []
    ensures !WritesIn(blocks) && PathsIn(blocks) == {}
  {
    if |blocks| > 0 {
      var front, last := blocks[..|blocks| - 1], blocks[|blocks| - 1];
      assert blocks == front + [last];
      UseIdsAppend(front, [last]);
      assert UseIds([last]) == if last.ToolUse? then [last.id] else [] by { assert [last][1..] == []; }
      NoUsesNoWrites(front);
      forall i | 0 <= i < |blocks| ensures !IsWrite(blocks[i]) {
        if i < |front| { assert front[i] == blocks[i]; }
      }
    }
  }

  /** What one more message adds to the write record. */
  lemma RecordMessage(msgs: seq<ApiMessage>, m: ApiMessage)
    ensures WrittenPaths(msgs + [m]) == WrittenPaths(msgs) + PathsIn(BlocksOf(m))
    ensures WroteAnything(msgs + [m]) <==> WroteAnything(msgs) || WritesIn(BlocksOf(m))
  {
    var all := msgs + [m];
    assert all[..|all| - 1] == msgs && all[|msgs|] == m;
    if WroteAnything(msgs) {
      var i :| 0 <= i < |msgs| && WritesIn(BlocksOf(msgs[i]));
      assert all[i] == msgs[i];
    }
    if WroteAnything(all) {
      var i :| 0 <= i < |all| && WritesIn(BlocksOf(all[i]));
      if i < |msgs| { assert msgs[i] == all[i]; }
    }
  }

  lemma UserWritesNothing(m: ApiMessage)
    requires m.role == USER
    ensures PathsIn(BlocksOf(m)) == {} && !WritesIn(BlocksOf(m)) && Opens(m) == []
  {
    assert USER[0] != ASSISTANT[0];
  }

  lemma AssistantAnswersNothing(m: ApiMessage)
    requires m.role == ASSISTANT
    ensures m.role != USER && Answers(m) == []
  {
    assert USER[0] != ASSISTANT[0];
  }

  lemma PairAppended(msgs: seq<ApiMessage>, said: ApiMessage, reply: ApiMessage)
    requires WellPaired(msgs) && said.role == ASSISTANT && Settles(Opens(said), reply) && reply.role == USER
    ensures WellPaired(msgs + [said, reply])
  {
    AssistantAnswersNothing(said);
    UserWritesNothing(reply);
    assert [said, reply][1..] == [reply] && [reply][1..] == [];
    assert Chain(Opens(said), [reply]);
    ChainAppend([], msgs, [said, reply]);
  }

  /** What a response and the user message after it add to the write record. */
  lemma RecordTurn(msgs: seq<ApiMessage>, said: ApiMessage, reply: ApiMessage)
    requires reply.role == USER
    ensures WrittenPaths(msgs + [said, reply]) == WrittenPaths(msgs) + PathsIn(BlocksOf(said))
    ensures WroteAnything(msgs + [said, reply]) <==> WroteAnything(msgs) || WritesIn(BlocksOf(said))
  {
    var once := msgs + [said];
    assert once + [reply] == msgs + [said, reply];
    RecordMessage(msgs, said);
    RecordMessage(once, reply);
    UserWritesNothing(reply);
  }

  lemma AppendFaithful(msgs: seq<ApiMessage>, modified: bool, touched: set<string>, content: seq<Block>,
                       reply: ApiMessage)
    requires Faithful(msgs, modified, touched) && reply.role == USER
    requires if UseIds(content) == [] then Answers(reply) == [] else LeadsWith(reply, UseIds(content))
    ensures Faithful(msgs + [ApiMessage(ASSISTANT, List(content)), reply],
                     modified || WritesIn(content), touched + PathsIn(content))
  {
    var said := ApiMessage(ASSISTANT, List(content));
    assert BlocksOf(said) == content;
    AssistantAnswersNothing(said);
    PairAppended(msgs, said, reply);
    RecordTurn(msgs, said, reply);
  }

  lemma AppendNudge(msgs: seq<ApiMessage>, modified: bool, touched: set<string>, text: string)
    requires Faithful(msgs, modified, touched)
    ensures Faithful(msgs + [ApiMessage(USER, Str(text))], modified, touched)
  {
    var nudge := ApiMessage(USER, Str(text));
    assert [nudge][1..] == [];
    ChainAppend([], msgs, [nudge]);
    RecordMessage(msgs, nudge);
    UserWritesNothing(nudge);
  }

  // ---------- The tool calls of one response ----------

  lemma CalledMeaning(content: seq<Block>)
    ensures UseIds(content) != [] <==> exists b :: b in content && b.ToolUse?
  {
    CallsPresent(content);
    if exists i :: 0 <= i < |content| && content[i].ToolUse? {
      var i :| 0 <= i < |content| && content[i].ToolUse?;
      assert content[i] in content;
    }
  }

  lemma NextBlock(content: seq<Block>, k: nat)
    requires k < |content|
    ensures Uses(content[..k + 1]) == Uses(content[..k]) + (if content[k].ToolUse? then [content[k]] else [])
    ensures PathsIn(content[..k + 1]) == PathsIn(content[..k]) + PathOf(content[k])
    ensures WritesIn(content[..k + 1]) <==> WritesIn(content[..k]) || IsWrite(content[k])
  {
    var front, now := content[..k], content[..k + 1];
    assert now == front + [content[k]] && now[..k] == front;
    UsesAppend(front, [content[k]]);
    assert [content[k]][1..] == [];
    if WritesIn(front) {
      var i :| 0 <= i < |front| && IsWrite(front[i]);
      assert now[i] == front[i];
    }
    if IsWrite(content[k]) { assert IsWrite(now[k]); }
    if WritesIn(now) {
      var i :| 0 <= i < |now| && IsWrite(now[i]);
      if i < k { assert front[i] == now[i]; }
    }
  }

  method ExecuteTools(content: seq<Block>, tools: Block -> string)
    returns (results: seq<Block>, wrote: bool, paths: set<string>)
    ensures results == ResultsFor(content, tools)
    ensures (wrote <==> WritesIn(content)) && paths == PathsIn(content)
    ensures |results| == |Uses(content)|
    ensures forall k :: 0 <= k < |results| ==>
      Uses(content)[k].ToolUse? && results[k] == ToolResult(Uses(content)[k].id, tools(Uses(content)[k]))
    ensures wrote <==> exists b :: b in content && b.ToolUse? && b.name in ["write_file", "edit_file", "delete_file"]
    ensures forall p :: p in paths <==> exists b :: b in content && WritesTo(b, p)
  {
    ResultsAnswer(content, tools);
    forall p ensures p in PathsIn(content) <==> exists b :: b in content && WritesTo(b, p) {
      PathsMeaning(content, p);
    }
    WritesMeaning(content);
    results, wrote, paths := [], false, {};
    for k := 0 to |content|
      invariant results == ResultsFor(content[..k], tools)
      invariant (wrote <==> WritesIn(content[..k])) && paths == PathsIn(content[..k])
    {
      var block := content[k];
      NextBlock(content, k);
      if block.ToolUse? {
        if block.name in WRITE_TOOLS {
          wrote := true;
          paths := paths + PathOf(block);
        }
        results := results + [ToolResult(block.id, tools(block))];
      }
    }
    assert content[..|content|] == content;
  }

  // ---------- The loop ----------

  datatype Agent = Agent(
    messages: seq<ApiMessage>,
    nudges: nat,
    rejects: nat,
    modified: bool,
    touched: set<string>,
    textOnly: nat,
    readOnly: nat)

  predicate InLimits(a: Agent)
  {
    a.nudges <= 2 && a.rejects <= 3
  }

  predicate IsFaithful(a: Agent)
  {
    Faithful(a.messages, a.modified, a.touched)
  }

  function Feedback(findings: seq<string>): string
  {
    REJECTED + "\n" + Join(findings, "\n")
  }

  /** The response and a user text are appended; nothing else changes. */
  function Replied(a: Agent, content: seq<Block>, text: string): Agent
  {
    a.(messages := a.messages + [ApiMessage(ASSISTANT, List(content)), ApiMessage(USER, Str(text))])
  }

  /** The eighth round in which nothing has been written yet, with a nudge left. */
  predicate NudgesExplorer(a: Agent, content: seq<Block>)
  {
    !a.modified && !WritesIn(content) && a.readOnly + 1 == 8 && a.nudges < 2
  }

  /** What an `end_turn` response leads to: a nudge, a rejection, or the end of the run. */
  predicate TurnEnds(a: Agent, content: seq<Block>, verify: set<string> -> seq<string>, a': Agent, done: bool)
  {
    && (done <==> if a.modified then verify(a.touched) == [] || a.rejects == 3 else a.nudges == 2)
    && (done ==> a' == a)
    && (!done && !a.modified ==> a' == Replied(a, content, WRITE_NUDGE).(nudges := a.nudges + 1))
    && (!done && a.modified ==>
          var text := REJECTED + "\n" + Join(verify(a.touched), "\n");
          a' == Replied(a, content, text).(rejects := a.rejects + 1))
  }

  method EndTurn(a: Agent, content: seq<Block>, verify: set<string> -> seq<string>) returns (a': Agent, done: bool)
    requires InLimits(a)
    ensures InLimits(a')
    ensures IsFaithful(a) && UseIds(content) == [] ==> IsFaithful(a')
    ensures TurnEnds(a, content, verify, a', done)
  {
    if !a.modified && a.nudges < MAX_NUDGES {
      a' := Reply(a.(nudges := a.nudges + 1), content, WRITE_NUDGE);
      return a', false;
    }
    if a.modified && a.rejects < MAX_VERIFY_REJECTS {
      var findings := verify(a.touched);
      if |findings| > 0 {
        a' := Reply(a.(rejects := a.rejects + 1), content, Feedback(findings));
        return a', false;
      }
    }
    return a, true;
  }

  /** Appends the response and a user text. */
  method Reply(a: Agent, content: seq<Block>, text: string) returns (a': Agent)
    ensures a' == Replied(a, content, text)
    ensures IsFaithful(a) && UseIds(content) == [] ==> IsFaithful(a')
  {
    if UseIds(content) == [] {
      NoUsesNoWrites(content);
      if IsFaithful(a) {
        AppendFaithful(a.messages, a.modified, a.touched, content, ApiMessage(USER, Str(text)));
      }
    }
    a' := a.(messages := a.messages + [ApiMessage(ASSISTANT, List(content)), ApiMessage(USER, Str(text))]);
  }

  /** What any other response leads to; `done` after two in a row without a tool call. */
  predicate ToolsUsed(a: Agent, content: seq<Block>, tools: Block -> string, a': Agent, done: bool)
  {
    if !(exists b :: b in content && b.ToolUse?)
    then a' == a.(textOnly := a.textOnly + 1) && (done <==> a.textOnly >= 1)
    else
      && !done && a'.textOnly == 0 && a'.rejects == a.rejects
      && (a'.modified <==> a.modified || WritesIn(content)) && a'.touched == a.touched + PathsIn(content)
      && a'.readOnly == a.readOnly + (if a.modified || WritesIn(content) then 0 else 1)
      && a'.nudges == a.nudges + (if NudgesExplorer(a, content) then 1 else 0)
      && a'.messages == a.messages
                      + [ApiMessage(ASSISTANT, List(content)), ApiMessage(USER, List(ResultsFor(content, tools)))]
                      + (if NudgesExplorer(a, content) then [ApiMessage(USER, Str(EXPLORE_NUDGE))] else [])
  }

  method UseTools(a: Agent, content: seq<Block>, tools: Block -> string) returns (a': Agent, done: bool)
    requires InLimits(a)
    ensures InLimits(a')
    ensures IsFaithful(a) ==> IsFaithful(a')
    ensures ToolsUsed(a, content, tools, a', done)
  {
    var results, wrote, paths := ExecuteTools(content, tools);
    ResultsAnswer(content, tools);
    CalledMeaning(content);
    if |results| == 0 {
      return a.(textOnly := a.textOnly + 1), a.textOnly + 1 >= 2;
    }
    var reply := ApiMessage(USER, List(results));
    if IsFaithful(a) { AppendFaithful(a.messages, a.modified, a.touched, content, reply); }
    a' := a.(messages := a.messages + [ApiMessage(ASSISTANT, List(content)), reply],
             modified := a.modified || wrote, touched := a.touched + paths, textOnly := 0);
    done := false;
    if !a'.modified {
      a' := a'.(readOnly := a'.readOnly + 1);
      if a'.readOnly == EXPLORATION_NUDGE_THRESHOLD && a'.nudges < MAX_NUDGES {
        if IsFaithful(a) { AppendNudge(a'.messages, a'.modified, a'.touched, EXPLORE_NUDGE); }
        a' := a'.(nudges := a'.nudges + 1, messages := a'.messages + [ApiMessage(USER, Str(EXPLORE_NUDGE))]);
      }
    }
  }

  /** How a response is handled, and whether the run ends with it. */
  method Respond(a: Agent, response: Response, tools: Block -> string, verify: set<string> -> seq<string>)
    returns (a': Agent, ended: Option<Outcome>)
    requires InLimits(a)
    ensures InLimits(a') && a.messages <= a'.messages
    ensures IsFaithful(a) && (response.stopReason == "end_turn" ==> UseIds(response.content) == []) ==> IsFaithful(a')
    ensures response.stopReason == "end_turn" ==>
      && (ended == None || ended == Some(EndedTurn))
      && TurnEnds(a, response.content, verify, a', ended.Some?)
    ensures response.stopReason != "end_turn" ==>
      && (ended == None || ended == Some(TextOnly))
      && ToolsUsed(a, response.content, tools, a', ended.Some?)
  {
    var done;
    if response.stopReason == END_TURN {
      a', done := EndTurn(a, response.content, verify);
      ended := if done then Some(EndedTurn) else None;
    } else {
      a', done := UseTools(a, response.content, tools);
      ended := if done then Some(TextOnly) else None;
    }
  }

  /** The iteration gets as far as a call of the model. */
  predicate CallsModel(t: Turn)
  {
    !t.shutdown && !t.timedOut && t.slot && !t.shutdownLate
  }

  /** Why an iteration ends the run without a response; None when there is one to handle. */
  function Failure(t: Turn): Option<Outcome>
  {
    if t.shutdown then Some(Interrupted)
    else if t.timedOut then Some(TimedOut)
    else if !t.slot then Some(NoSlot)
    else if t.shutdownLate then Some(Interrupted)
    else if t.response.None? then Some(NoResponse)
    else None
  }

  /** One iteration: it counts unless the run is stopped before it, and a call counts when it is made. */
  method Iterate(a: Agent, turn: Turn, tools: Block -> string, verify: set<string> -> seq<string>)
    returns (a': Agent, ended: Option<Outcome>, counted: bool, called: bool)
    requires InLimits(a)
    ensures InLimits(a') && a.messages <= a'.messages
    ensures IsFaithful(a) && Honest(turn) ==> IsFaithful(a')
    ensures (counted <==> !turn.shutdown && !turn.timedOut) && (called <==> CallsModel(turn))
    ensures Failure(turn).Some? ==> ended == Failure(turn) && a' == a
    ensures Failure(turn).None? ==>
      var response := turn.response.value;
      if response.stopReason == "end_turn"
      then (ended == None || ended == Some(EndedTurn)) && TurnEnds(a, response.content, verify, a', ended.Some?)
      else (ended == None || ended == Some(TextOnly)) && ToolsUsed(a, response.content, tools, a', ended.Some?)
  {
    if turn.shutdown {
      return a, Some(Interrupted), false, false;
    }
    if turn.timedOut {
      return a, Some(TimedOut), false, false;
    }
    if !turn.slot {
      return a, Some(NoSlot), true, false;
    }
    if turn.shutdownLate {
      return a, Some(Interrupted), true, false;
    }
    if turn.response.None? {
      return a, Some(NoResponse), true, true;
    }
    a', ended := Respond(a, turn.response.value, tools, verify);
    counted, called := true, true;
  }

  /**
    `verify` gives the findings on the touched paths when the agent ends a turn.  Every run stays
    within its limits; a run that ended its turn after writing files had no findings on any
    touched path, or had been rejected the full number of times.
   */
  method Run(prompt: string, maxIterations: int, env: nat -> Turn, tools: (nat, Block) -> string,
             verify: (nat, set<string>) -> seq<string>) returns (r: Report)
    ensures r.iterations <= Max(0, maxIterations) && r.calls <= r.iterations <= r.calls + 1
    ensures InLimits(r.agent)
    ensures (forall i: nat :: Honest(env(i))) ==> IsFaithful(r.agent)
    ensures forall i: nat :: i + 1 < r.iterations ==> Failure(env(i)) == None
    ensures r.outcome.EndedTurn? ==>
      && 0 < r.iterations && Failure(env(r.iterations - 1)) == None
      && env(r.iterations - 1).response.value.stopReason == "end_turn"
      && if r.agent.modified then verify(r.iterations - 1, r.agent.touched) == [] || r.agent.rejects == 3
         else r.agent.nudges == 2
    ensures r.outcome.TextOnly? ==>
      && 0 < r.iterations && Failure(env(r.iterations - 1)) == None && r.agent.textOnly >= 2
      && env(r.iterations - 1).response.value.stopReason != "end_turn"
    ensures r.outcome.OutOfIterations? ==> r.iterations == Max(0, maxIterations)
    ensures !r.outcome.EndedTurn? && !r.outcome.TextOnly? && !r.outcome.OutOfIterations? ==>
      || Failure(env(r.iterations)) == Some(r.outcome)
      || (0 < r.iterations && Failure(env(r.iterations - 1)) == Some(r.outcome))
    ensures [ApiMessage(USER, Str(prompt))] <= r.agent.messages
  {
    var a := Agent([ApiMessage(USER, Str(prompt))], 0, 0, false, {}, 0, 0);
    var iterations: nat, calls: nat := 0, 0;
    PromptFaithful(prompt);
    while iterations < maxIterations
      invariant iterations <= Max(0, maxIterations) && calls == iterations
      invariant InLimits(a) && [ApiMessage(USER, Str(prompt))] <= a.messages
      invariant (forall i: nat :: Honest(env(i))) ==> IsFaithful(a)
      invariant forall i: nat :: i < iterations ==> Failure(env(i)) == None
    {
      var now := iterations;
      var ended: Option<Outcome>, counted: bool, called: bool;
      a, ended, counted, called := Iterate(a, env(now), (b: Block) => tools(now, b),
                                           (paths: set<string>) => verify(now, paths));
      iterations := if counted then iterations + 1 else iterations;
      calls := if called then calls + 1 else calls;
      if ended.Some? {
        return Report(ended.value, a, iterations, calls);
      }
    }
    r := Report(OutOfIterations, a, iterations, calls);
  }

  lemma PromptFaithful(prompt: string)
    ensures Faithful([ApiMessage(USER, Str(prompt))], false, {})
  {
    assert [] + [ApiMessage(USER, Str(prompt))] == [ApiMessage(USER, Str(prompt))];
    AppendNudge([], false, {}, prompt);
  }
}
