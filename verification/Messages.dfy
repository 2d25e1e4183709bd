/**
  Chat messages: the rows stored for a conversation, the messages sent to a provider,
  and the formatting step that turns the first into the second.
 */
module Messages {
  import opened Common

  datatype Json =
    | JNull
    | JBool(b: bool)
    | JNumber(n: int)
    | JString(s: string)
    | JArray(items: seq<Json>)
    | JObject(fields: map<string, Json>)

  /** A content block; `Other` is any kind the program copies without looking at it. */
  datatype Block =
    | Text(text: string)
    | ToolUse(id: string, name: string, input: Json)
    | ToolResult(toolUseId: string, output: string)
    | Other(kind: string)

  /** Message content; `Shape` is parsed JSON that is neither a string nor a list. */
  datatype Content = Str(s: string) | List(blocks: seq<Block>) | Shape(json: Json)

  datatype ApiMessage = ApiMessage(role: string, content: Content)

  /** The `content_json` column: absent, empty or JSON null; not JSON; or a JSON value. */
  datatype Stored = NoJson | BadJson | Parsed(content: Content)

  datatype Row = Row(id: int, role: string, content: string, contentJson: Stored)

  const USER: string := "user"
  const ASSISTANT: string := "assistant"
  const SYSTEM: string := "system"
  const TOOL_CALL: string := "tool_call"
  const TOOL_RESULT: string := "tool_result"

  // ---------- Formatting ----------

  function ApiRole(role: string): string
  {
    if role == TOOL_RESULT then USER else if role == TOOL_CALL then ASSISTANT else role
  }

  /** The message a stored row contributes, if any. */
  function FormatRow(row: Row): seq<ApiMessage>
  {
    if row.role == SYSTEM then [ApiMessage(USER, Str("[System notification: " + row.content + "]"))]
    else if row.contentJson.Parsed? then [ApiMessage(ApiRole(row.role), row.contentJson.content)]
    else if row.role == USER || row.role == ASSISTANT then [ApiMessage(row.role, Str(row.content))]
    else []
  }

  function FormatRows(rows: seq<Row>): seq<ApiMessage>
  {
    if |rows| == 0 then [] else FormatRow(rows[0]) + FormatRows(rows[1..])
  }

  lemma {:induction false} FormatRowsAppend(a: seq<Row>, b: seq<Row>)
    ensures FormatRows(a + b) == FormatRows(a) + FormatRows(b)
  {
    if |a| == 0 {
      assert a + b == b;
    } else {
      assert (a + b)[1..] == a[1..] + b;
      FormatRowsAppend(a[1..], b);
      Assoc(FormatRow(a[0]), FormatRows(a[1..]), FormatRows(b));
    }
  }

  // ---------- Merging, as the program does it ----------

  predicate Mergeable(prev: ApiMessage, msg: ApiMessage)
  {
    prev.role == msg.role && ((!prev.content.Shape? && msg.content.Str?) || (prev.content.Str? && msg.content.List?))
  }

  /** The message that replaces the last merged one. */
  function Absorb(prev: ApiMessage, msg: ApiMessage): ApiMessage
    requires Mergeable(prev, msg)
  {
    match prev.content
    case Str(s) => if msg.content.Str? then prev.(content := Str(s + "\n" + msg.content.s)) else msg
    case List(blocks) => prev.(content := List(blocks + [Text(msg.content.s)]))
  }

  /** The fold over the messages after `prev`, with `prev` the last merged message. */
  function Fold(prev: ApiMessage, rest: seq<ApiMessage>): seq<ApiMessage>
    decreases |rest|
  {
    if |rest| == 0 then [prev]
    else if Mergeable(prev, rest[0]) then Fold(Absorb(prev, rest[0]), rest[1..])
    else [prev] + Fold(rest[0], rest[1..])
  }

  function Merge(msgs: seq<ApiMessage>): seq<ApiMessage>
  {
    if |msgs| == 0 then [] else Fold(msgs[0], msgs[1..])
  }

  /** One pass of the loop over the messages: the last merged message is rewritten, or `msg` appended. */
  method MergeNext(merged: seq<ApiMessage>, msg: ApiMessage) returns (r: seq<ApiMessage>)
    requires |merged| > 0
    ensures var front, prev := merged[..|merged| - 1], merged[|merged| - 1];
      r == front + (if Mergeable(prev, msg) then [Absorb(prev, msg)] else [prev, msg])
  {
    var last := |merged| - 1;
    var prev := merged[last];
    assert merged + [msg] == merged[..last] + [prev, msg];
    if msg.role != prev.role {
      return merged + [msg];
    }
    match (prev.content, msg.content)
    case (Str(s), Str(t)) => r := merged[last := prev.(content := Str(s + "\n" + t))];
    case (List(blocks), Str(t)) => r := merged[last := prev.(content := List(blocks + [Text(t)]))];
    case (Str(_), List(blocks)) => r := merged[last := ApiMessage(msg.role, List(blocks))];
    case (_, _) => r := merged + [msg];
  }

  lemma FoldNext(front: seq<ApiMessage>, prev: ApiMessage, msg: ApiMessage, rest: seq<ApiMessage>)
    ensures Mergeable(prev, msg) ==> front + Fold(prev, [msg] + rest) == front + Fold(Absorb(prev, msg), rest)
    ensures !Mergeable(prev, msg) ==> front + Fold(prev, [msg] + rest) == (front + [prev]) + Fold(msg, rest)
  {
    assert ([msg] + rest)[1..] == rest;
    Assoc(front, [prev], Fold(msg, rest));
  }

  method MergeConsecutiveRoles(msgs: seq<ApiMessage>) returns (merged: seq<ApiMessage>)
    ensures merged == MergeByRuns(msgs)
  {
    FoldIsRunByRun(msgs);
    if |msgs| == 0 {
      return [];
    }
    merged := [msgs[0]];
    for i := 1 to |msgs|
      invariant |merged| > 0
      invariant merged[..|merged| - 1] + Fold(merged[|merged| - 1], msgs[i..]) == Merge(msgs)
    {
      ghost var front, prev := merged[..|merged| - 1], merged[|merged| - 1];
      FoldNext(front, prev, msgs[i], msgs[i + 1..]);
      assert msgs[i..] == [msgs[i]] + msgs[i + 1..];
      merged := MergeNext(merged, msgs[i]);
      assert merged[..|merged| - 1] == if Mergeable(prev, msgs[i]) then front else front + [prev];
    }
    assert merged == merged[..|merged| - 1] + [merged[|merged| - 1]];
  }

  method FormatAll(rows: seq<Row>) returns (formatted: seq<ApiMessage>)
    ensures formatted == FormatRows(rows)
  {
    formatted := [];
    for i := 0 to |rows|
      invariant formatted == FormatRows(rows[..i])
    {
      var row := rows[i];
      assert rows[..i + 1] == rows[..i] + [row];
      FormatRowsAppend(rows[..i], [row]);
      if row.role == SYSTEM {
        formatted := formatted + [ApiMessage(USER, Str("[System notification: " + row.content + "]"))];
      } else if row.contentJson.Parsed? {
        formatted := formatted + [ApiMessage(ApiRole(row.role), row.contentJson.content)];
      } else if row.role == USER || row.role == ASSISTANT {
        formatted := formatted + [ApiMessage(row.role, Str(row.content))];
      }
    }
    assert rows[..|rows|] == rows;
  }

  method FormatMessagesForApi(rows: seq<Row>) returns (msgs: seq<ApiMessage>)
    ensures msgs == Merge(FormatRows(rows))
    ensures SendsRows(msgs, rows)
  {
    var formatted := FormatAll(rows);
    msgs := MergeConsecutiveRoles(formatted);
    FoldIsRunByRun(formatted);
    FormattingSendsRows(rows);
  }

  // ---------- Merging, run by run ----------

  /** How many leading messages of a run hold a string. */
  function LeadingStrings(run: seq<ApiMessage>): (n: nat)
    ensures n <= |run|
    ensures forall i :: 0 <= i < n ==> run[i].content.Str?
    ensures n < |run| ==> !run[n].content.Str?
  {
    if |run| > 0 && run[0].content.Str? then 1 + LeadingStrings(run[1..]) else 0
  }

  function Strings(run: seq<ApiMessage>): seq<string>
    requires forall i :: 0 <= i < |run| ==> run[i].content.Str?
  {
    seq(|run|, i requires 0 <= i < |run| => run[i].content.s)
  }

  function TextBlocks(strings: seq<string>): seq<Block>
  {
    seq(|strings|, i requires 0 <= i < |strings| => Text(strings[i]))
  }

  /** How many leading messages share the first message's role. */
  function RunLength(msgs: seq<ApiMessage>): (n: nat)
    ensures n <= |msgs| && (|msgs| > 0 ==> n > 0)
    ensures forall i :: 0 <= i < n ==> msgs[i].role == msgs[0].role
    ensures 0 < n < |msgs| ==> msgs[n].role != msgs[0].role
  {
    if |msgs| == 0 then 0
    else if |msgs| == 1 || msgs[1].role != msgs[0].role then 1
    else 1 + RunLength(msgs[1..])
  }

  /**
    One same-role run: strings before a list are dropped, other leading strings are joined,
    and a list takes up the strings that follow it until the next list.
   */
  function MergeRun(run: seq<ApiMessage>): seq<ApiMessage>
    decreases |run|
  {
    if |run| == 0 then []
    else
      var k := LeadingStrings(run);
      if k > 0 then
        if k < |run| && run[k].content.List? then MergeRun(run[k..])
        else [ApiMessage(run[0].role, Str(Join(Strings(run[..k]), "\n")))] + MergeRun(run[k..])
      else if run[0].content.List? then
        var j := 1 + LeadingStrings(run[1..]);
        [ApiMessage(run[0].role, List(run[0].content.blocks + TextBlocks(Strings(run[1..j]))))] + MergeRun(run[j..])
      else [run[0]] + MergeRun(run[1..])
  }

  function MergeByRuns(msgs: seq<ApiMessage>): seq<ApiMessage>
    decreases |msgs|
  {
    if |msgs| == 0 then []
    else MergeRun(msgs[..RunLength(msgs)]) + MergeByRuns(msgs[RunLength(msgs)..])
  }

  lemma {:induction false} JoinPrefix(first: string, more: seq<string>)
    requires |more| > 0
    ensures Join([first + "\n" + more[0]] + more[1..], "\n") == Join([first] + more, "\n")
  {
    var glued := [first + "\n" + more[0]] + more[1..];
    assert ([first] + more)[1..] == more && glued[1..] == more[1..];
    if |more| > 1 {
      assert Join(glued, "\n") == (first + "\n" + more[0]) + "\n" + Join(more[1..], "\n");
      assert Join(more, "\n") == more[0] + "\n" + Join(more[1..], "\n");
      assert Join(glued, "\n") == first + "\n" + Join(more, "\n");
    }
  }

  lemma {:induction false} FoldSplitsRuns(prev: ApiMessage, same: seq<ApiMessage>, rest: seq<ApiMessage>)
    requires forall i :: 0 <= i < |same| ==> same[i].role == prev.role
    requires |rest| > 0 ==> rest[0].role != prev.role
    ensures Fold(prev, same + rest) == Fold(prev, same) + Merge(rest)
    decreases |same|
  {
    if |same| == 0 {
      assert same + rest == rest;
      if |rest| == 0 { assert Fold(prev, rest) == [prev]; }
    } else {
      assert (same + rest)[1..] == same[1..] + rest;
      if Mergeable(prev, same[0]) {
        FoldSplitsRuns(Absorb(prev, same[0]), same[1..], rest);
      } else {
        FoldSplitsRuns(same[0], same[1..], rest);
      }
    }
  }

  lemma {:induction false} FoldStrings(prev: ApiMessage, run: seq<ApiMessage>, k: nat)
    requires prev.content.Str? && k <= |run|
    requires forall i :: 0 <= i < |run| ==> run[i].role == prev.role
    requires forall i :: 0 <= i < k ==> run[i].content.Str?
    ensures Fold(prev, run)
         == Fold(ApiMessage(prev.role, Str(Join([prev.content.s] + Strings(run[..k]), "\n"))), run[k..])
    decreases k
  {
    if k == 0 {
      assert [prev.content.s] + Strings(run[..0]) == [prev.content.s];
      assert run[0..] == run;
    } else {
      var next := Absorb(prev, run[0]);
      FoldStrings(next, run[1..], k - 1);
      JoinPrefix(prev.content.s, Strings(run[..k]));
      assert Strings(run[..k])[1..] == Strings(run[1..][..k - 1]);
      assert run[1..][k - 1..] == run[k..];
    }
  }

  lemma {:induction false} FoldListTakesStrings(prev: ApiMessage, run: seq<ApiMessage>, k: nat)
    requires prev.content.List? && k <= |run|
    requires forall i :: 0 <= i < |run| ==> run[i].role == prev.role
    requires forall i :: 0 <= i < k ==> run[i].content.Str?
    ensures Fold(prev, run)
         == Fold(ApiMessage(prev.role, List(prev.content.blocks + TextBlocks(Strings(run[..k])))), run[k..])
    decreases k
  {
    if k == 0 {
      assert prev.content.blocks + TextBlocks(Strings(run[..0])) == prev.content.blocks;
      assert run[0..] == run;
    } else {
      var next := Absorb(prev, run[0]);
      FoldListTakesStrings(next, run[1..], k - 1);
      assert next.content.blocks + TextBlocks(Strings(run[1..][..k - 1]))
          == prev.content.blocks + TextBlocks(Strings(run[..k]));
      assert run[1..][k - 1..] == run[k..];
    }
  }

  predicate OneRole(run: seq<ApiMessage>)
  {
    forall i :: 0 <= i < |run| ==> run[i].role == run[0].role
  }

  /** A run that starts with strings folds like the run that starts with their join. */
  lemma FoldStringHead(run: seq<ApiMessage>)
    requires OneRole(run) && LeadingStrings(run) > 0
    ensures var k := LeadingStrings(run);
      Fold(run[0], run[1..]) == Fold(ApiMessage(run[0].role, Str(Join(Strings(run[..k]), "\n"))), run[k..])
  {
    var k := LeadingStrings(run);
    FoldStrings(run[0], run[1..], k - 1);
    assert [run[0].content.s] + Strings(run[1..][..k - 1]) == Strings(run[..k]);
    assert run[1..][k - 1..] == run[k..];
  }

  lemma FoldListHead(run: seq<ApiMessage>)
    requires OneRole(run) && |run| > 0 && run[0].content.List?
    ensures var j := 1 + LeadingStrings(run[1..]);
      Fold(run[0], run[1..])
        == Fold(ApiMessage(run[0].role, List(run[0].content.blocks + TextBlocks(Strings(run[1..j])))), run[j..])
  {
    var j := 1 + LeadingStrings(run[1..]);
    FoldListTakesStrings(run[0], run[1..], j - 1);
    assert run[1..][..j - 1] == run[1..j] && run[1..][j - 1..] == run[j..];
  }

  lemma FoldOnto(prev: ApiMessage, rest: seq<ApiMessage>)
    ensures |rest| == 0 ==> Fold(prev, rest) == [prev]
    ensures |rest| > 0 && !Mergeable(prev, rest[0]) ==> Fold(prev, rest) == [prev] + Fold(rest[0], rest[1..])
    ensures |rest| > 0 && Mergeable(prev, rest[0]) && rest[0].content.List? && prev.content.Str? ==>
      Fold(prev, rest) == Fold(rest[0], rest[1..])
  {}

  lemma {:induction false} FoldIsMergeRun(run: seq<ApiMessage>)
    requires |run| > 0 && OneRole(run)
    ensures Fold(run[0], run[1..]) == MergeRun(run)
    decreases |run|
  {
    var k := LeadingStrings(run);
    if k > 0 {
      FoldStringHead(run);
      FoldOnto(ApiMessage(run[0].role, Str(Join(Strings(run[..k]), "\n"))), run[k..]);
      if k < |run| { FoldIsMergeRun(run[k..]); }
    } else if run[0].content.List? {
      var j := 1 + LeadingStrings(run[1..]);
      FoldListHead(run);
      FoldOnto(ApiMessage(run[0].role, List(run[0].content.blocks + TextBlocks(Strings(run[1..j])))), run[j..]);
      if j < |run| { FoldIsMergeRun(run[j..]); }
    } else if |run| > 1 {
      FoldIsMergeRun(run[1..]);
    }
  }

  /** The in-place fold computes exactly the run-by-run merge. */
  lemma {:induction false} FoldIsRunByRun(msgs: seq<ApiMessage>)
    ensures Merge(msgs) == MergeByRuns(msgs)
    decreases |msgs|
  {
    if |msgs| > 0 {
      var n := RunLength(msgs);
      FoldSplitsRuns(msgs[0], msgs[1..n], msgs[n..]);
      assert msgs[1..] == msgs[1..n] + msgs[n..];
      FoldIsMergeRun(msgs[..n]);
      assert msgs[..n][1..] == msgs[1..n];
      FoldIsRunByRun(msgs[n..]);
    }
  }

  // ---------- What merging guarantees ----------

  predicate Settled(msgs: seq<ApiMessage>)
  {
    forall i :: 0 <= i < |msgs| - 1 ==> !Mergeable(msgs[i], msgs[i + 1])
  }

  lemma {:induction false} FoldHead(prev: ApiMessage, rest: seq<ApiMessage>)
    ensures |Fold(prev, rest)| > 0 && Fold(prev, rest)[0].role == prev.role
    ensures prev.content.Shape? ==> Fold(prev, rest)[0].content.Shape?
    ensures prev.content.List? ==> Fold(prev, rest)[0].content.List?
    ensures prev.content.Str? ==> !Fold(prev, rest)[0].content.Shape?
    decreases |rest|
  {
    if |rest| > 0 && Mergeable(prev, rest[0]) {
      FoldHead(Absorb(prev, rest[0]), rest[1..]);
    }
  }

  lemma {:induction false} FoldSettled(prev: ApiMessage, rest: seq<ApiMessage>)
    ensures Settled(Fold(prev, rest))
    decreases |rest|
  {
    if |rest| > 0 {
      if Mergeable(prev, rest[0]) {
        FoldSettled(Absorb(prev, rest[0]), rest[1..]);
      } else {
        FoldSettled(rest[0], rest[1..]);
        FoldHead(rest[0], rest[1..]);
        var tail := Fold(rest[0], rest[1..]);
        forall i | 0 <= i < |tail| ensures ([prev] + tail)[i + 1] == tail[i] {}
      }
    }
  }

  lemma {:induction false} SettledIsFixed(prev: ApiMessage, rest: seq<ApiMessage>)
    requires Settled([prev] + rest)
    ensures Fold(prev, rest) == [prev] + rest
    decreases |rest|
  {
    if |rest| > 0 {
      assert !Mergeable(([prev] + rest)[0], ([prev] + rest)[1]);
      assert [rest[0]] + rest[1..] == rest;
      forall i | 0 <= i < |rest| - 1 ensures !Mergeable(rest[i], rest[i + 1]) {
        assert !Mergeable(([prev] + rest)[i + 1], ([prev] + rest)[i + 2]);
      }
      SettledIsFixed(rest[0], rest[1..]);
    }
  }

  predicate OnlyStringsAndLists(msgs: seq<ApiMessage>)
  {
    forall i :: 0 <= i < |msgs| ==> !msgs[i].content.Shape?
  }

  lemma {:induction false} FoldKeepsShapes(prev: ApiMessage, rest: seq<ApiMessage>)
    requires !prev.content.Shape? && OnlyStringsAndLists(rest)
    ensures OnlyStringsAndLists(Fold(prev, rest))
    decreases |rest|
  {
    if |rest| > 0 {
      FoldKeepsShapes(if Mergeable(prev, rest[0]) then Absorb(prev, rest[0]) else rest[0], rest[1..]);
    }
  }

  /** After merging, adjacent messages share a role only when both hold lists; merging again changes nothing. */
  lemma MergeSettles(msgs: seq<ApiMessage>)
    ensures Settled(Merge(msgs)) && Merge(Merge(msgs)) == Merge(msgs)
    ensures OnlyStringsAndLists(msgs) ==>
      forall i :: 0 <= i < |Merge(msgs)| - 1 && Merge(msgs)[i].role == Merge(msgs)[i + 1].role ==>
        Merge(msgs)[i].content.List? && Merge(msgs)[i + 1].content.List?
  {
    if |msgs| > 0 {
      FoldSettled(msgs[0], msgs[1..]);
      var out := Merge(msgs);
      FoldHead(msgs[0], msgs[1..]);
      assert out == [out[0]] + out[1..];
      SettledIsFixed(out[0], out[1..]);
      if OnlyStringsAndLists(msgs) {
        FoldKeepsShapes(msgs[0], msgs[1..]);
        forall i | 0 <= i < |out| - 1 && out[i].role == out[i + 1].role
          ensures out[i].content.List? && out[i + 1].content.List?
        {
          assert !Mergeable(out[i], out[i + 1]);
        }
      }
    }
  }

  predicate IsTool(b: Block) { b.ToolUse? || b.ToolResult? }

  /** The tool blocks of a block list, in order. */
  function ToolsOf(blocks: seq<Block>): seq<Block>
  {
    if |blocks| == 0 then []
    else (if IsTool(blocks[0]) then [blocks[0]] else []) + ToolsOf(blocks[1..])
  }

  function ContentTools(content: Content): seq<Block>
  {
    if content.List? then ToolsOf(content.blocks) else []
  }

  function AllTools(msgs: seq<ApiMessage>): seq<Block>
  {
    if |msgs| == 0 then [] else ContentTools(msgs[0].content) + AllTools(msgs[1..])
  }

  lemma {:induction false} ToolsOfAppend(a: seq<Block>, b: seq<Block>)
    ensures ToolsOf(a + b) == ToolsOf(a) + ToolsOf(b)
  {
    if |a| == 0 {
      assert a + b == b;
    } else {
      assert (a + b)[1..] == a[1..] + b;
      ToolsOfAppend(a[1..], b);
      Assoc(if IsTool(a[0]) then [a[0]] else [], ToolsOf(a[1..]), ToolsOf(b));
    }
  }

  lemma AbsorbKeepsTools(prev: ApiMessage, msg: ApiMessage)
    requires Mergeable(prev, msg)
    ensures ContentTools(Absorb(prev, msg).content) == ContentTools(prev.content) + ContentTools(msg.content)
  {
    if prev.content.List? {
      ToolsOfAppend(prev.content.blocks, [Text(msg.content.s)]);
      assert ToolsOf([Text(msg.content.s)]) == [];
    }
  }

  lemma {:induction false} FoldKeepsTools(prev: ApiMessage, rest: seq<ApiMessage>)
    ensures AllTools(Fold(prev, rest)) == ContentTools(prev.content) + AllTools(rest)
    decreases |rest|
  {
    if |rest| == 0 {
      assert [prev][1..] == [];
    } else if Mergeable(prev, rest[0]) {
      FoldKeepsTools(Absorb(prev, rest[0]), rest[1..]);
      AbsorbKeepsTools(prev, rest[0]);
      Assoc(ContentTools(prev.content), ContentTools(rest[0].content), AllTools(rest[1..]));
    } else {
      FoldKeepsTools(rest[0], rest[1..]);
      assert ([prev] + Fold(rest[0], rest[1..]))[1..] == Fold(rest[0], rest[1..]);
    }
  }

  /** Merging loses, adds and reorders no tool_use or tool_result block. */
  lemma MergeKeepsTools(msgs: seq<ApiMessage>)
    ensures AllTools(Merge(msgs)) == AllTools(msgs)
  {
    if |msgs| > 0 { FoldKeepsTools(msgs[0], msgs[1..]); }
  }

  // ---------- What becomes of the stored rows ----------

  /** The role a row is sent under. */
  function SentRole(row: Row): string
  {
    if row.role == "system" || row.role == "tool_result" then "user"
    else if row.role == "tool_call" then "assistant"
    else row.role
  }

  /** A row that is sent as its own text. */
  predicate IsPlain(row: Row)
  {
    row.role == "system" || (!row.contentJson.Parsed? && (row.role == "user" || row.role == "assistant"))
  }

  function SentText(row: Row): string
  {
    if row.role == "system" then "[System notification: " + row.content + "]" else row.content
  }

  /** A row that is not sent at all. */
  predicate IsIgnored(row: Row)
  {
    !IsPlain(row) && !row.contentJson.Parsed?
  }

  lemma FormatOneRow(row: Row)
    ensures FormatRows([row]) == FormatRow(row)
    ensures FormatRow(row) ==
      if IsIgnored(row) then []
      else if IsPlain(row) then [ApiMessage(SentRole(row), Str(SentText(row)))]
      else [ApiMessage(SentRole(row), row.contentJson.content)]
  {
    assert [row][1..] == [];
    assert |SYSTEM| != |USER| && |SYSTEM| != |ASSISTANT| && |SYSTEM| != |TOOL_CALL| && |SYSTEM| != |TOOL_RESULT|;
    assert |USER| != |ASSISTANT| && |USER| != |TOOL_CALL| && |USER| != |TOOL_RESULT|;
    assert ASSISTANT[0] != TOOL_CALL[0] && |TOOL_CALL| != |TOOL_RESULT|;
  }

  predicate AllPlain(rows: seq<Row>)
  {
    forall i :: 0 <= i < |rows| ==> IsPlain(rows[i])
  }

  function SentTexts(rows: seq<Row>): seq<string>
  {
    seq(|rows|, i requires 0 <= i < |rows| => SentText(rows[i]))
  }

  /** Plain rows are sent one by one before they are merged. */
  lemma {:induction false} FormatPlain(rows: seq<Row>)
    requires AllPlain(rows)
    ensures SentAsTexts(FormatRows(rows), rows)
  {
    if |rows| > 0 {
      FormatPlain(rows[1..]);
      FormatOneRow(rows[0]);
    }
  }

  predicate SentAsTexts(msgs: seq<ApiMessage>, rows: seq<Row>)
  {
    && |msgs| == |rows|
    && forall i :: 0 <= i < |rows| ==>
         msgs[i].role == SentRole(rows[i]) && msgs[i].content == Str(SentText(rows[i]))
  }

  lemma FormatPlainTail(rows: seq<Row>, n: nat)
    requires AllPlain(rows) && n <= |rows|
    ensures |FormatRows(rows)| == |rows| && FormatRows(rows)[n..] == FormatRows(rows[n..])
  {
    assert rows == rows[..n] + rows[n..];
    FormatRowsAppend(rows[..n], rows[n..]);
    FormatPlain(rows[..n]);
    FormatPlain(rows);
  }

  lemma StringsMergeToOne(run: seq<ApiMessage>)
    requires 0 < |run| && OneRole(run) && forall i :: 0 <= i < |run| ==> run[i].content.Str?
    ensures MergeRun(run) == [ApiMessage(run[0].role, Str(Join(Strings(run), "\n")))]
  {
    assert LeadingStrings(run) == |run|;
    assert run[..|run|] == run && run[|run|..] == [];
  }

  /** `n` is the length of the first run of rows sent under one role. */
  predicate FirstRun(rows: seq<Row>, n: nat)
  {
    && 0 < n <= |rows|
    && (forall i :: 0 <= i < n ==> SentRole(rows[i]) == SentRole(rows[0]))
    && (n < |rows| ==> SentRole(rows[n]) != SentRole(rows[0]))
  }

  /** A history of plain rows: one message for each run, with the texts of its rows on lines of their own. */
  lemma PlainRowsMerge(rows: seq<Row>, n: nat)
    requires AllPlain(rows) && FirstRun(rows, n)
    ensures var sent := Merge(FormatRows(rows));
      && 0 < |sent| && sent[1..] == Merge(FormatRows(rows[n..]))
      && sent[0].role == SentRole(rows[0])
      && sent[0].content == Str(Join(SentTexts(rows[..n]), "\n"))
  {
    var msgs := FormatRows(rows);
    FormatPlain(rows);
    FormatPlainTail(rows, n);
    TextRunMerges(msgs, rows, n);
  }

  lemma TextRunMerges(msgs: seq<ApiMessage>, rows: seq<Row>, n: nat)
    requires SentAsTexts(msgs, rows) && FirstRun(rows, n)
    ensures var sent := Merge(msgs);
      && 0 < |sent| && sent[1..] == Merge(msgs[n..])
      && sent[0].role == SentRole(rows[0])
      && sent[0].content == Str(Join(SentTexts(rows[..n]), "\n"))
  {
    assert forall i :: 0 <= i < |msgs| ==> msgs[i].content.Str?;
    FirstRunMerges(msgs, n);
    assert Strings(msgs[..n]) == SentTexts(rows[..n]);
  }

  lemma FirstRunMerges(msgs: seq<ApiMessage>, n: nat)
    requires 0 < n <= |msgs| && forall i :: 0 <= i < |msgs| ==> msgs[i].content.Str?
    requires forall i :: 0 <= i < n ==> msgs[i].role == msgs[0].role
    requires n < |msgs| ==> msgs[n].role != msgs[0].role
    ensures Merge(msgs) == [ApiMessage(msgs[0].role, Str(Join(Strings(msgs[..n]), "\n")))] + Merge(msgs[n..])
  {
    FoldIsRunByRun(msgs);
    FoldIsRunByRun(msgs[n..]);
    assert RunLength(msgs) == n;
    StringsMergeToOne(msgs[..n]);
  }

  // ---------- Nothing sent is lost ----------

  /** The text is still in the message: inside its string, or as a block of its own. */
  predicate Shows(m: ApiMessage, text: string)
  {
    match m.content
    case Str(s) => exists i, j :: 0 <= i <= j <= |s| && s[i..j] == text
    case List(blocks) => Text(text) in blocks
    case Shape(_) => false
  }

  predicate SomeShows(msgs: seq<ApiMessage>, role: string, text: string)
  {
    exists k :: 0 <= k < |msgs| && msgs[k].role == role && Shows(msgs[k], text)
  }

  lemma SomeShowsLater(m: ApiMessage, msgs: seq<ApiMessage>, role: string, text: string)
    requires SomeShows(msgs, role, text)
    ensures SomeShows([m] + msgs, role, text)
  {
    var k :| 0 <= k < |msgs| && msgs[k].role == role && Shows(msgs[k], text);
    assert ([m] + msgs)[k + 1] == msgs[k];
  }

  /** No list comes among the first messages with this role. */
  predicate NoListAhead(role: string, msgs: seq<ApiMessage>)
  {
    |msgs| > 0 && msgs[0].role == role ==> !msgs[0].content.List? && NoListAhead(role, msgs[1..])
  }

  lemma ShowsAfterAbsorb(prev: ApiMessage, m: ApiMessage, text: string)
    requires Mergeable(prev, m)
    ensures Shows(prev, text) && !m.content.List? ==> Shows(Absorb(prev, m), text)
    ensures m.content.Str? ==> Shows(Absorb(prev, m), m.content.s)
  {
    if prev.content.Str? && m.content.Str? {
      var s, s' := prev.content.s, Absorb(prev, m).content.s;
      assert s' == s + "\n" + m.content.s;
      if Shows(prev, text) {
        var i, j :| 0 <= i <= j <= |s| && s[i..j] == text;
        assert s'[i..j] == text;
      }
      assert s'[|s| + 1..|s'|] == m.content.s;
    }
  }

  lemma {:induction false} FoldShows(prev: ApiMessage, rest: seq<ApiMessage>, text: string)
    requires Shows(prev, text) && (prev.content.List? || NoListAhead(prev.role, rest))
    ensures SomeShows(Fold(prev, rest), prev.role, text)
    decreases |rest|
  {
    if |rest| > 0 && Mergeable(prev, rest[0]) {
      ShowsAfterAbsorb(prev, rest[0], text);
      FoldShows(Absorb(prev, rest[0]), rest[1..], text);
    } else {
      assert Fold(prev, rest)[0] == prev;
    }
  }

  /** A string after which no list of its run comes is still there in a message of its role. */
  lemma {:induction false} FoldKeepsString(prev: ApiMessage, before: seq<ApiMessage>, m: ApiMessage,
                                           after: seq<ApiMessage>)
    requires m.content.Str? && NoListAhead(m.role, after)
    ensures SomeShows(Fold(prev, before + [m] + after), m.role, m.content.s)
    decreases |before|
  {
    var all := before + [m] + after;
    if |before| == 0 {
      assert all == [m] + after && all[1..] == after;
      if Mergeable(prev, m) {
        ShowsAfterAbsorb(prev, m, m.content.s);
        FoldShows(Absorb(prev, m), after, m.content.s);
      } else {
        assert m.content.s[0..|m.content.s|] == m.content.s;
        FoldShows(m, after, m.content.s);
        SomeShowsLater(prev, Fold(m, after), m.role, m.content.s);
      }
    } else {
      assert all[1..] == before[1..] + [m] + after && all[0] == before[0];
      if Mergeable(prev, before[0]) {
        FoldKeepsString(Absorb(prev, before[0]), before[1..], m, after);
      } else {
        FoldKeepsString(before[0], before[1..], m, after);
        SomeShowsLater(prev, Fold(before[0], all[1..]), m.role, m.content.s);
      }
    }
  }

  predicate StartsWithBlocks(m: ApiMessage, role: string, blocks: seq<Block>)
  {
    m.role == role && m.content.List? && blocks <= m.content.blocks
  }

  predicate SomeStarts(msgs: seq<ApiMessage>, role: string, blocks: seq<Block>)
  {
    exists k :: 0 <= k < |msgs| && StartsWithBlocks(msgs[k], role, blocks)
  }

  lemma SomeStartsLater(m: ApiMessage, msgs: seq<ApiMessage>, role: string, blocks: seq<Block>)
    requires SomeStarts(msgs, role, blocks)
    ensures SomeStarts([m] + msgs, role, blocks)
  {
    var k :| 0 <= k < |msgs| && StartsWithBlocks(msgs[k], role, blocks);
    assert ([m] + msgs)[k + 1] == msgs[k];
  }

  lemma {:induction false} FoldKeepsPrefix(prev: ApiMessage, rest: seq<ApiMessage>, blocks: seq<Block>)
    requires StartsWithBlocks(prev, prev.role, blocks)
    ensures SomeStarts(Fold(prev, rest), prev.role, blocks)
    decreases |rest|
  {
    if |rest| > 0 && Mergeable(prev, rest[0]) {
      FoldKeepsPrefix(Absorb(prev, rest[0]), rest[1..], blocks);
    } else {
      assert Fold(prev, rest)[0] == prev;
    }
  }

  /** A list is the start of a message of its role. */
  lemma {:induction false} FoldKeepsList(prev: ApiMessage, before: seq<ApiMessage>, m: ApiMessage,
                                         after: seq<ApiMessage>)
    requires m.content.List?
    ensures SomeStarts(Fold(prev, before + [m] + after), m.role, m.content.blocks)
    decreases |before|
  {
    var all := before + [m] + after;
    if |before| == 0 {
      assert all == [m] + after && all[1..] == after;
      FoldKeepsPrefix(m, after, m.content.blocks);
      if Mergeable(prev, m) {
        assert Absorb(prev, m) == m;
      } else {
        SomeStartsLater(prev, Fold(m, after), m.role, m.content.blocks);
      }
    } else {
      assert all[1..] == before[1..] + [m] + after && all[0] == before[0];
      if Mergeable(prev, before[0]) {
        FoldKeepsList(Absorb(prev, before[0]), before[1..], m, after);
      } else {
        FoldKeepsList(before[0], before[1..], m, after);
        SomeStartsLater(prev, Fold(before[0], all[1..]), m.role, m.content.blocks);
      }
    }
  }

  /** No list is sent under `role` before a row sent under another role. */
  predicate NoListRowAhead(role: string, rows: seq<Row>)
  {
    |rows| > 0 && (IsIgnored(rows[0]) || SentRole(rows[0]) == role) ==>
      && (IsPlain(rows[0]) || IsIgnored(rows[0]) || !rows[0].contentJson.content.List?)
      && NoListRowAhead(role, rows[1..])
  }

  lemma FormatHead(rows: seq<Row>)
    requires |rows| > 0
    ensures IsIgnored(rows[0]) ==> FormatRows(rows) == FormatRows(rows[1..])
    ensures !IsIgnored(rows[0]) ==>
      var msgs := FormatRows(rows);
      && 0 < |msgs| && msgs[1..] == FormatRows(rows[1..]) && msgs[0].role == SentRole(rows[0])
      && msgs[0].content == if IsPlain(rows[0]) then Str(SentText(rows[0])) else rows[0].contentJson.content
  {
    FormatOneRow(rows[0]);
  }

  lemma {:induction false} NoListRowsFormat(role: string, rows: seq<Row>)
    requires NoListRowAhead(role, rows)
    ensures NoListAhead(role, FormatRows(rows))
  {
    if |rows| > 0 {
      FormatHead(rows);
      if IsIgnored(rows[0]) || SentRole(rows[0]) == role { NoListRowsFormat(role, rows[1..]); }
    }
  }

  lemma FormatAround(before: seq<Row>, row: Row, after: seq<Row>)
    requires !IsIgnored(row)
    ensures |FormatRow(row)| == 1
    ensures FormatRows(before + [row] + after) == FormatRows(before) + [FormatRow(row)[0]] + FormatRows(after)
  {
    FormatRowsAppend(before + [row], after);
    FormatRowsAppend(before, [row]);
    FormatOneRow(row);
  }

  /** A stored text that no list of its run follows reaches the provider in a message of its role. */
  lemma StoredTextIsSent(before: seq<Row>, row: Row, after: seq<Row>)
    requires IsPlain(row) && NoListRowAhead(SentRole(row), after)
    ensures SomeShows(Merge(FormatRows(before + [row] + after)), SentRole(row), SentText(row))
  {
    FormatAround(before, row, after);
    FormatOneRow(row);
    NoListRowsFormat(SentRole(row), after);
    MergeKeepsString(FormatRows(before), FormatRow(row)[0], FormatRows(after));
  }

  lemma MergeKeepsString(before: seq<ApiMessage>, m: ApiMessage, after: seq<ApiMessage>)
    requires m.content.Str? && NoListAhead(m.role, after)
    ensures SomeShows(Merge(before + [m] + after), m.role, m.content.s)
  {
    var all := before + [m] + after;
    if |before| == 0 {
      assert all[0] == m && all[1..] == after;
      assert m.content.s[0..|m.content.s|] == m.content.s;
      FoldShows(m, after, m.content.s);
    } else {
      assert all[0] == before[0] && all[1..] == before[1..] + [m] + after;
      FoldKeepsString(before[0], before[1..], m, after);
    }
  }

  /** A stored block list reaches the provider as the start of a message of its role. */
  lemma StoredListIsSent(before: seq<Row>, row: Row, after: seq<Row>)
    requires row.role != "system" && row.contentJson.Parsed? && row.contentJson.content.List?
    ensures SomeStarts(Merge(FormatRows(before + [row] + after)), SentRole(row), row.contentJson.content.blocks)
  {
    FormatAround(before, row, after);
    FormatOneRow(row);
    MergeKeepsList(FormatRows(before), FormatRow(row)[0], FormatRows(after));
  }

  lemma MergeKeepsList(before: seq<ApiMessage>, m: ApiMessage, after: seq<ApiMessage>)
    requires m.content.List?
    ensures SomeStarts(Merge(before + [m] + after), m.role, m.content.blocks)
  {
    var all := before + [m] + after;
    if |before| == 0 {
      assert all[0] == m && all[1..] == after;
      FoldKeepsPrefix(m, after, m.content.blocks);
    } else {
      assert all[0] == before[0] && all[1..] == before[1..] + [m] + after;
      FoldKeepsList(before[0], before[1..], m, after);
    }
  }

  /** Rows that are not sent make no difference. */
  lemma IgnoredRowsVanish(before: seq<Row>, row: Row, after: seq<Row>)
    requires IsIgnored(row)
    ensures Merge(FormatRows(before + [row] + after)) == Merge(FormatRows(before + after))
  {
    FormatRowsAppend(before + [row], after);
    FormatRowsAppend(before, [row]);
    FormatRowsAppend(before, after);
    FormatOneRow(row);
    assert FormatRows(before) + [] == FormatRows(before);
  }

  /**
    What formatting promises of the rows themselves.  Of plain rows the first message is the first
    run's texts on lines of their own; in any history a text that no list of its run follows is in
    a message of its role, and a block list is the start of one.
   */
  ghost predicate SendsRows(msgs: seq<ApiMessage>, rows: seq<Row>)
  {
    && (forall n: nat :: AllPlain(rows) && FirstRun(rows, n) ==>
          && 0 < |msgs| && msgs[0].role == SentRole(rows[0])
          && msgs[0].content == Str(Join(SentTexts(rows[..n]), "\n")))
    && (forall i :: 0 <= i < |rows| && IsPlain(rows[i]) && NoListRowAhead(SentRole(rows[i]), rows[i + 1..]) ==>
          SomeShows(msgs, SentRole(rows[i]), SentText(rows[i])))
    && (forall i :: 0 <= i < |rows| && !IsPlain(rows[i]) && !IsIgnored(rows[i])
                    && rows[i].contentJson.content.List? ==>
          SomeStarts(msgs, SentRole(rows[i]), rows[i].contentJson.content.blocks))
  }

  lemma FormattingSendsRows(rows: seq<Row>)
    ensures SendsRows(Merge(FormatRows(rows)), rows)
  {
    forall n: nat | AllPlain(rows) && FirstRun(rows, n)
      ensures var msgs := Merge(FormatRows(rows));
        && 0 < |msgs| && msgs[0].role == SentRole(rows[0])
        && msgs[0].content == Str(Join(SentTexts(rows[..n]), "\n"))
    {
      PlainRowsMerge(rows, n);
    }
    forall i | 0 <= i < |rows| && IsPlain(rows[i]) && NoListRowAhead(SentRole(rows[i]), rows[i + 1..])
      ensures SomeShows(Merge(FormatRows(rows)), SentRole(rows[i]), SentText(rows[i]))
    {
      assert rows == rows[..i] + [rows[i]] + rows[i + 1..];
      StoredTextIsSent(rows[..i], rows[i], rows[i + 1..]);
    }
    forall i | 0 <= i < |rows| && !IsPlain(rows[i]) && !IsIgnored(rows[i]) && rows[i].contentJson.content.List?
      ensures SomeStarts(Merge(FormatRows(rows)), SentRole(rows[i]), rows[i].contentJson.content.blocks)
    {
      assert rows == rows[..i] + [rows[i]] + rows[i + 1..];
      StoredListIsSent(rows[..i], rows[i], rows[i + 1..]);
    }
  }
}
