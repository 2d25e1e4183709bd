/**
  The pairing contract of the messages API: every assistant message with tool_use
  blocks is immediately followed by a user message whose leading blocks are exactly
  its tool_results, in order, and tool_results appear nowhere else.
 */
module Pairing {
  import opened Common
  import opened Messages
  import opened ApiStandard

  function UseIds(blocks: seq<Block>): seq<string>
  {
    if |blocks| == 0 then [] else (if blocks[0].ToolUse? then [blocks[0].id] else []) + UseIds(blocks[1..])
  }

  function ResultIds(blocks: seq<Block>): seq<string>
  {
    if |blocks| == 0 then [] else (if blocks[0].ToolResult? then [blocks[0].toolUseId] else []) + ResultIds(blocks[1..])
  }

  /** The tool_use ids an assistant message opens. */
  function Opens(m: ApiMessage): seq<string>
  {
    if m.role == ASSISTANT && m.content.List? then UseIds(m.content.blocks) else []
  }

  /** The tool_use ids a user message answers. */
  function Answers(m: ApiMessage): seq<string>
  {
    if m.role == USER && m.content.List? then ResultIds(m.content.blocks) else []
  }

  /** A user message whose leading blocks are exactly the results for `ids`, in order. */
  predicate LeadsWith(m: ApiMessage, ids: seq<string>)
  {
    m.role == USER && m.content.List? && Leads(m.content.blocks, ids)
  }

  predicate Leads(blocks: seq<Block>, ids: seq<string>)
  {
    && |ids| <= |blocks|
    && (forall i :: 0 <= i < |ids| ==> blocks[i].ToolResult? && blocks[i].toolUseId == ids[i])
    && ResultIds(blocks[|ids|..]) == []
  }

  predicate Settles(pending: seq<string>, m: ApiMessage)
  {
    if pending == [] then Answers(m) == [] else LeadsWith(m, pending)
  }

  /** `msgs` continues a list whose last message opened `pending`. */
  predicate Chain(pending: seq<string>, msgs: seq<ApiMessage>)
    decreases |msgs|
  {
    if |msgs| == 0 then pending == []
    else
      && Settles(pending, msgs[0])
      && Chain(Opens(msgs[0]), msgs[1..])
  }

  predicate WellPaired(msgs: seq<ApiMessage>)
  {
    Chain([], msgs)
  }

  lemma {:induction false} ResultIdsAppend(a: seq<Block>, b: seq<Block>)
    ensures ResultIds(a + b) == ResultIds(a) + ResultIds(b)
  {
    if |a| == 0 {
      assert a + b == b;
    } else {
      assert (a + b)[1..] == a[1..] + b;
      ResultIdsAppend(a[1..], b);
      Assoc(if a[0].ToolResult? then [a[0].toolUseId] else [], ResultIds(a[1..]), ResultIds(b));
    }
  }

  lemma {:induction false} UseIdsAppend(a: seq<Block>, b: seq<Block>)
    ensures UseIds(a + b) == UseIds(a) + UseIds(b)
  {
    if |a| == 0 {
      assert a + b == b;
    } else {
      assert (a + b)[1..] == a[1..] + b;
      UseIdsAppend(a[1..], b);
      Assoc(if a[0].ToolUse? then [a[0].id] else [], UseIds(a[1..]), UseIds(b));
    }
  }

  lemma {:induction false} ResultsPresent(blocks: seq<Block>)
    ensures ResultIds(blocks) != [] <==> exists i :: 0 <= i < |blocks| && blocks[i].ToolResult?
  {
    if |blocks| > 0 {
      ResultsPresent(blocks[1..]);
      assert forall i :: 1 <= i < |blocks| ==> blocks[i] == blocks[1..][i - 1];
      if exists i :: 0 <= i < |blocks[1..]| && blocks[1..][i].ToolResult? {
        var i :| 0 <= i < |blocks[1..]| && blocks[1..][i].ToolResult?;
        assert blocks[i + 1].ToolResult?;
      }
    }
  }

  lemma {:induction false} CallsPresent(blocks: seq<Block>)
    ensures UseIds(blocks) != [] <==> exists i :: 0 <= i < |blocks| && blocks[i].ToolUse?
  {
    if |blocks| > 0 {
      CallsPresent(blocks[1..]);
      assert forall i :: 1 <= i < |blocks| ==> blocks[i] == blocks[1..][i - 1];
      if exists i :: 0 <= i < |blocks[1..]| && blocks[1..][i].ToolUse? {
        var i :| 0 <= i < |blocks[1..]| && blocks[1..][i].ToolUse?;
        assert blocks[i + 1].ToolUse?;
      }
    }
  }

  lemma {:induction false} LeadingIds(blocks: seq<Block>, ids: seq<string>)
    requires Leads(blocks, ids)
    ensures ResultIds(blocks) == ids
  {
    if |ids| > 0 {
      assert blocks[1..][|ids[1..]|..] == blocks[|ids|..];
      LeadingIds(blocks[1..], ids[1..]);
    } else {
      assert blocks[0..] == blocks;
    }
  }

  lemma LeadsAnswers(m: ApiMessage, ids: seq<string>)
    requires LeadsWith(m, ids)
    ensures Answers(m) == ids
  {
    LeadingIds(m.content.blocks, ids);
  }

  predicate AnsweredAt(msgs: seq<ApiMessage>, i: nat)
    requires i < |msgs|
  {
    Opens(msgs[i]) != [] ==> i + 1 < |msgs| && LeadsWith(msgs[i + 1], Opens(msgs[i]))
  }

  predicate OwedAt(msgs: seq<ApiMessage>, i: nat)
    requires i < |msgs|
  {
    Answers(msgs[i]) != [] ==> i > 0 && Opens(msgs[i - 1]) != []
  }

  lemma {:induction false} ChainPairs(pending: seq<string>, msgs: seq<ApiMessage>)
    requires Chain(pending, msgs)
    ensures forall i :: 0 <= i < |msgs| ==> AnsweredAt(msgs, i)
    ensures forall i :: 1 <= i < |msgs| ==> OwedAt(msgs, i)
    decreases |msgs|
  {
    if |msgs| > 0 {
      var tail := msgs[1..];
      ChainPairs(Opens(msgs[0]), tail);
      forall i | 0 <= i < |msgs| ensures AnsweredAt(msgs, i) && (i > 0 ==> OwedAt(msgs, i)) {
        if i > 0 { assert AnsweredAt(tail, i - 1) && (i > 1 ==> OwedAt(tail, i - 1)); }
      }
    }
  }

  lemma {:induction false} PairsChain(pending: seq<string>, msgs: seq<ApiMessage>)
    requires if |msgs| == 0 then pending == [] else Settles(pending, msgs[0])
    requires forall i :: 0 <= i < |msgs| ==> AnsweredAt(msgs, i)
    requires forall i :: 1 <= i < |msgs| ==> OwedAt(msgs, i)
    ensures Chain(pending, msgs)
    decreases |msgs|
  {
    if |msgs| > 0 {
      var tail := msgs[1..];
      assert AnsweredAt(msgs, 0);
      if |msgs| > 1 { assert OwedAt(msgs, 1); }
      forall i | 0 <= i < |tail| ensures AnsweredAt(tail, i) && (i > 0 ==> OwedAt(tail, i)) {
        assert AnsweredAt(msgs, i + 1) && OwedAt(msgs, i + 1);
      }
      PairsChain(Opens(msgs[0]), tail);
    }
  }

  /** What a well-paired list means, message by message. */
  lemma WellPairedMeaning(msgs: seq<ApiMessage>)
    ensures WellPaired(msgs) <==> forall i :: 0 <= i < |msgs| ==> AnsweredAt(msgs, i) && OwedAt(msgs, i)
  {
    if WellPaired(msgs) {
      ChainPairs([], msgs);
    }
    if forall i :: 0 <= i < |msgs| ==> AnsweredAt(msgs, i) && OwedAt(msgs, i) {
      if |msgs| > 0 { assert OwedAt(msgs, 0); }
      PairsChain([], msgs);
    }
  }

  // ---------- Answering a response ----------

  /** The tool_result blocks for the tool_use blocks of a response, in order. */
  function ResultsFor(content: seq<Block>, output: Block -> string): seq<Block>
  {
    var uses := Uses(content);
    seq(|uses|, i requires 0 <= i < |uses| => ResultFor(uses[i], output))
  }

  function ResultFor(use: Block, output: Block -> string): Block
  {
    ToolResult(if use.ToolUse? then use.id else "", output(use))
  }

  lemma {:induction false} UsesHaveIds(content: seq<Block>)
    ensures |Uses(content)| == |UseIds(content)|
    ensures forall i :: 0 <= i < |Uses(content)| ==>
      Uses(content)[i].ToolUse? && Uses(content)[i].id == UseIds(content)[i]
  {
    if |content| > 0 { UsesHaveIds(content[1..]); }
  }

  /** The results of a tool turn answer exactly the tool_use blocks of its response, in order. */
  lemma ResultsAnswer(content: seq<Block>, output: Block -> string)
    ensures LeadsWith(ApiMessage(USER, List(ResultsFor(content, output))), UseIds(content))
    ensures |ResultsFor(content, output)| == |UseIds(content)| == |Uses(content)|
    ensures forall k :: 0 <= k < |Uses(content)| ==>
      var use := Uses(content)[k];
      use.ToolUse? && ResultsFor(content, output)[k] == ToolResult(use.id, output(use))
  {
    UsesHaveIds(content);
    assert ResultsFor(content, output)[|UseIds(content)|..] == [];
  }

  // ---------- Lists before merging ----------

  /**
    Where a scan of unmerged messages stands. While results are awaited strings may arrive:
    an assistant string joins the call only as long as no user string has come after the call.
   */
  datatype Phase = Idle | Awaiting(ids: seq<string>, direct: bool) | Broken

  function PhaseAfter(uses: seq<string>): Phase
  {
    if uses == [] then Idle else Awaiting(uses, true)
  }

  function ScanOne(p: Phase, m: ApiMessage): Phase
  {
    match p
    case Broken => Broken
    case Idle => if Answers(m) != [] then Broken else PhaseAfter(Opens(m))
    case Awaiting(ids, direct) =>
      if direct && m.role == ASSISTANT && m.content.Str? then p
      else if m.role == USER && m.content.Str? then Awaiting(ids, false)
      else if LeadsWith(m, ids) then Idle
      else Broken
  }

  function Scan(p: Phase, msgs: seq<ApiMessage>): Phase
    decreases |msgs|
  {
    if |msgs| == 0 then p else Scan(ScanOne(p, msgs[0]), msgs[1..])
  }

  lemma {:induction false} ScanAppend(p: Phase, a: seq<ApiMessage>, b: seq<ApiMessage>)
    ensures Scan(p, a + b) == Scan(Scan(p, a), b)
    decreases |a|
  {
    if |a| == 0 {
      assert a + b == b;
    } else {
      assert (a + b)[1..] == a[1..] + b;
      ScanAppend(ScanOne(p, a[0]), a[1..], b);
    }
  }

  lemma {:induction false} BrokenStays(msgs: seq<ApiMessage>)
    ensures Scan(Broken, msgs) == Broken
  {
    if |msgs| > 0 { BrokenStays(msgs[1..]); }
  }

  lemma TextHasNoIds(blocks: seq<Block>, text: string)
    ensures UseIds(blocks + [Text(text)]) == UseIds(blocks) && ResultIds(blocks + [Text(text)]) == ResultIds(blocks)
  {
    assert [Text(text)][1..] == [];
    ResultIdsAppend(blocks, [Text(text)]);
    UseIdsAppend(blocks, [Text(text)]);
  }

  lemma TextLeadsAlike(blocks: seq<Block>, text: string, ids: seq<string>)
    ensures Leads(blocks + [Text(text)], ids) <==> Leads(blocks, ids)
  {
    var more := blocks + [Text(text)];
    assert more[|blocks|] == Text(text);
    if |ids| <= |blocks| {
      assert more[|ids|..] == blocks[|ids|..] + [Text(text)];
      TextHasNoIds(blocks[|ids|..], text);
      assert forall i :: 0 <= i < |ids| ==> more[i] == blocks[i];
    }
  }

  /** Appending text to a list changes neither what it opens nor what it leads with. */
  lemma TextIsNeutral(m: ApiMessage, text: string, ids: seq<string>)
    requires m.content.List?
    ensures var m' := m.(content := List(m.content.blocks + [Text(text)]));
      && Opens(m') == Opens(m) && Answers(m') == Answers(m)
      && (LeadsWith(m', ids) <==> LeadsWith(m, ids))
  {
    TextHasNoIds(m.content.blocks, text);
    TextLeadsAlike(m.content.blocks, text, ids);
  }

  /** The phase of a list whose last merged message is `prev`, following one that opened `pending`. */
  function StageOf(pending: seq<string>, prev: ApiMessage): Phase
  {
    if Settles(pending, prev) then PhaseAfter(Opens(prev))
    else if pending != [] && prev.role == USER && prev.content.Str? then Awaiting(pending, false)
    else Broken
  }

  lemma StageAbsorbs(pending: seq<string>, prev: ApiMessage, m: ApiMessage)
    requires Mergeable(prev, m)
    ensures StageOf(pending, Absorb(prev, m)) == ScanOne(StageOf(pending, prev), m)
  {
    assert USER[0] != ASSISTANT[0];
    if prev.content.List? { TextIsNeutral(prev, m.content.s, pending); }
  }

  lemma StageMovesOn(pending: seq<string>, prev: ApiMessage, m: ApiMessage)
    requires !Mergeable(prev, m)
    ensures ScanOne(StageOf(pending, prev), m)
         == if Settles(pending, prev) then StageOf(Opens(prev), m) else Broken
  {
    assert USER[0] != ASSISTANT[0];
  }

  /** The fold continues a chain exactly when the scan of what it has not merged yet ends idle. */
  lemma {:induction false} FoldPairs(pending: seq<string>, prev: ApiMessage, rest: seq<ApiMessage>)
    ensures Chain(pending, Fold(prev, rest)) <==> Scan(StageOf(pending, prev), rest) == Idle
    decreases |rest|
  {
    if |rest| == 0 {
      assert [prev][1..] == [];
    } else if Mergeable(prev, rest[0]) {
      StageAbsorbs(pending, prev, rest[0]);
      FoldPairs(pending, Absorb(prev, rest[0]), rest[1..]);
    } else {
      var tail := Fold(rest[0], rest[1..]);
      StageMovesOn(pending, prev, rest[0]);
      FoldPairs(Opens(prev), rest[0], rest[1..]);
      BrokenStays(rest[1..]);
      assert ([prev] + tail)[0] == prev && ([prev] + tail)[1..] == tail;
    }
  }

  /**
    Merging gives a well-paired list exactly when between a call and its results only strings
    come, first assistant strings and then user strings.
   */
  lemma MergePairs(msgs: seq<ApiMessage>)
    ensures WellPaired(Merge(msgs)) <==> Scan(Idle, msgs) == Idle
  {
    if |msgs| > 0 { FoldPairs([], msgs[0], msgs[1..]); }
  }

  // ---------- Extending, replacing and cutting well-paired lists ----------

  /** Appending a list that answers nothing at first continues a chain exactly when nothing was owed. */
  lemma {:induction false} ChainAppend(pending: seq<string>, a: seq<ApiMessage>, b: seq<ApiMessage>)
    requires Chain([], b)
    requires |b| > 0 ==> !(b[0].role == USER && b[0].content.List?)
    ensures Chain(pending, a + b) <==> Chain(pending, a)
    decreases |a|
  {
    if |a| == 0 {
      assert a + b == b;
    } else {
      assert (a + b)[0] == a[0] && (a + b)[1..] == a[1..] + b;
      ChainAppend(Opens(a[0]), a[1..], b);
    }
  }

  /** Replacing a message by one that opens and leads with the same ids changes nothing. */
  lemma {:induction false} ChainReplace(pending: seq<string>, msgs: seq<ApiMessage>, k: nat, m: ApiMessage)
    requires k < |msgs|
    requires Opens(m) == Opens(msgs[k]) && Answers(m) == Answers(msgs[k])
    requires forall ids :: ids != [] ==> (LeadsWith(m, ids) <==> LeadsWith(msgs[k], ids))
    ensures Chain(pending, msgs[k := m]) <==> Chain(pending, msgs)
    decreases |msgs|
  {
    if k == 0 {
      assert msgs[k := m][1..] == msgs[1..];
    } else {
      assert msgs[k := m][1..] == msgs[1..][k - 1 := m];
      ChainReplace(Opens(msgs[0]), msgs[1..], k - 1, m);
    }
  }

  lemma {:induction false} ChainSuffix(pending: seq<string>, msgs: seq<ApiMessage>, k: nat)
    requires Chain(pending, msgs) && 0 < k <= |msgs|
    ensures Chain(Opens(msgs[k - 1]), msgs[k..])
    decreases |msgs|
  {
    if k > 1 {
      assert msgs[1..][k - 1..] == msgs[k..];
      ChainSuffix(Opens(msgs[0]), msgs[1..], k - 1);
    }
  }

  // ---------- Unanswered tool_use blocks ----------

  predicate IsString(m: ApiMessage)
  {
    m.content.Str? && (m.role == USER || m.role == ASSISTANT)
  }

  /** Strings never settle what is owed and never make anything owed. */
  lemma {:induction false} StringsOweTheSame(p: Phase, strings: seq<ApiMessage>)
    requires forall i :: 0 <= i < |strings| ==> IsString(strings[i])
    ensures Scan(p, strings) == Idle <==> p == Idle
    decreases |strings|
  {
    if |strings| > 0 {
      assert IsString(strings[0]);
      StringsOweTheSame(ScanOne(p, strings[0]), strings[1..]);
    }
  }

  /**
    An assistant message stored outside a tool turn, whatever strings follow it, leaves the
    next list well paired exactly when it opens no tool_use.
   */
  lemma UnansweredUseBreaksPairing(msgs: seq<ApiMessage>, last: ApiMessage, strings: seq<ApiMessage>)
    requires Scan(Idle, msgs) == Idle && last.role == ASSISTANT
    requires forall i :: 0 <= i < |strings| ==> IsString(strings[i])
    ensures WellPaired(Merge(msgs + [last] + strings)) <==> Opens(last) == []
  {
    ScanAppend(Idle, msgs, [last]);
    ScanAppend(Idle, msgs + [last], strings);
    assert Scan(Idle, [last]) == ScanOne(Idle, last) by { assert [last][1..] == []; }
    StringsOweTheSame(ScanOne(Idle, last), strings);
    MergePairs(msgs + [last] + strings);
  }
}
