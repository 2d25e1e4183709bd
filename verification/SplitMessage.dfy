/** Splitting a message into chunks that fit a channel's length limit. */
module SplitMessage {
  import opened Common

  /** A place to split at: what stays with the chunk, and what is dropped after it. */
  datatype Mark = Mark(stays: string, drops: string)

  /** Paragraph before line, line before sentence, sentence before word. */
  const MARKS: seq<Mark> := [
    Mark("", "\n\n"), Mark("", "\n"), Mark(".", " "), Mark("!", " "), Mark("?", " "), Mark("", " ")]

  predicate OccursAt(text: string, sep: string, i: int)
  {
    0 <= i && i + |sep| <= |text| && text[i..i + |sep|] == sep
  }

  /** The greatest index up to `i` where `sep` occurs, or -1. */
  function LastUpTo(text: string, sep: string, i: int): (cut: int)
    ensures cut == -1 || (cut <= i && OccursAt(text, sep, cut))
    ensures forall k :: cut < k <= i ==> !OccursAt(text, sep, k)
    decreases i
  {
    if i < 0 then -1 else if OccursAt(text, sep, i) then i else LastUpTo(text, sep, i - 1)
  }

  /** Python's `text.rfind(sep, 0, end)`: the start of the last occurrence that ends by `end`, or -1. */
  function LastIn(text: string, sep: string, end: int): int
  {
    LastUpTo(text, sep, end - |sep|)
  }

  /** The occurrence may end exactly at `end`, and none that ends by then starts later. */
  lemma LastInMeaning(text: string, sep: string, end: int)
    ensures var cut := LastIn(text, sep, end);
      && (cut == -1 || (OccursAt(text, sep, cut) && cut + |sep| <= end))
      && forall k :: k > cut && k + |sep| <= end ==> !OccursAt(text, sep, k)
  {
    var cut := LastIn(text, sep, end);
    forall k | k > cut && k + |sep| <= end ensures !OccursAt(text, sep, k) {}
  }

  // ---------- Where one chunk ends ----------

  /** The length of the next chunk, and how many characters after it are skipped. */
  datatype Cut = Cut(take: nat, skip: nat)

  /** The cut at the first mark that occurs past the start, or a hard cut as the last resort. */
  function FirstCut(text: string, maxLength: nat, marks: seq<Mark>): Cut
  {
    if |marks| == 0 then Cut(maxLength, 0)
    else
      var cut := LastIn(text, marks[0].stays + marks[0].drops, Min(maxLength, |text|));
      if cut > 0 then Cut(cut + |marks[0].stays|, |marks[0].drops|) else FirstCut(text, maxLength, marks[1..])
  }

  function NextCut(text: string, maxLength: nat): Cut
  {
    FirstCut(text, maxLength, MARKS)
  }

  /** What a split may drop at `at`: a double newline, a newline, one space, or nothing. */
  predicate SeparatorAt(text: string, at: nat, skip: nat)
  {
    && at + skip <= |text|
    && (skip == 0
        || (skip == 1 && (text[at] == ' ' || text[at] == '\n'))
        || (skip == 2 && text[at] == '\n' && text[at + 1] == '\n'))
  }

  lemma LastInFacts(text: string, sep: string, end: nat)
    requires end <= |text| && LastIn(text, sep, end) > 0
    ensures var cut := LastIn(text, sep, end);
      cut + |sep| <= end && forall k :: 0 <= k < |sep| ==> text[cut + k] == sep[k]
  {
    var cut := LastIn(text, sep, end);
    assert OccursAt(text, sep, cut);
    forall k | 0 <= k < |sep| ensures text[cut + k] == sep[k] {
      assert text[cut..cut + |sep|][k] == text[cut + k];
    }
  }

  predicate CutOk(text: string, maxLength: nat, c: Cut)
  {
    0 < c.take <= maxLength && c.take + c.skip < |text| && SeparatorAt(text, c.take, c.skip)
  }

  /** A mark drops one or two newlines, or one space. */
  predicate MarkOk(m: Mark)
  {
    m.drops == "\n" || m.drops == "\n\n" || m.drops == " "
  }

  lemma MarkCutOk(text: string, maxLength: nat, m: Mark)
    requires maxLength < |text| && MarkOk(m) && LastIn(text, m.stays + m.drops, maxLength) > 0
    ensures CutOk(text, maxLength, Cut(LastIn(text, m.stays + m.drops, maxLength) + |m.stays|, |m.drops|))
  {
    var mark := m.stays + m.drops;
    var at := LastIn(text, mark, maxLength) + |m.stays|;
    LastInFacts(text, mark, maxLength);
    assert mark[|m.stays|] == m.drops[0] && mark[|mark| - 1] == m.drops[|m.drops| - 1];
    assert text[at] == m.drops[0] && text[at + (|m.drops| - 1)] == m.drops[|m.drops| - 1];
  }

  lemma {:induction false} FirstCutOk(text: string, maxLength: nat, marks: seq<Mark>)
    requires 0 < maxLength < |text| && forall i :: 0 <= i < |marks| ==> MarkOk(marks[i])
    ensures CutOk(text, maxLength, FirstCut(text, maxLength, marks))
  {
    if |marks| > 0 {
      if LastIn(text, marks[0].stays + marks[0].drops, maxLength) > 0 {
        MarkCutOk(text, maxLength, marks[0]);
      } else {
        FirstCutOk(text, maxLength, marks[1..]);
      }
    }
  }

  /** A cut makes a non-empty chunk within the limit, drops one separator, and leaves text behind. */
  lemma CutFacts(text: string, maxLength: nat)
    requires maxLength > 0 && |text| > maxLength
    ensures CutOk(text, maxLength, NextCut(text, maxLength))
  {
    FirstCutOk(text, maxLength, MARKS);
  }

  // ---------- Splitting ----------

  /** `text` starts with `chunk` and a separator of `skip` characters. */
  predicate StartsWith(text: string, chunk: string, skip: nat)
  {
    chunk <= text && SeparatorAt(text, |chunk|, skip)
  }

  /** `chunks` with a separator between each two neighbours, and none at either end, is `text`. */
  ghost predicate Rejoins(text: string, chunks: seq<string>)
    decreases |chunks|
  {
    if |chunks| == 0 then false
    else if |chunks| == 1 then text == chunks[0]
    else exists skip: nat :: StartsWith(text, chunks[0], skip) && Rejoins(text[|chunks[0]| + skip..], chunks[1..])
  }

  predicate Fits(chunks: seq<string>, maxLength: nat)
  {
    forall i :: 0 <= i < |chunks| ==> 0 < |chunks[i]| <= maxLength
  }

  /** A rule for cutting texts that are too long. */
  type Rule = string -> Cut

  ghost predicate Works(rule: Rule, maxLength: nat)
  {
    forall t: string :: |t| > maxLength ==> CutOk(t, maxLength, rule(t))
  }

  ghost function SplitBy(text: string, maxLength: nat, rule: Rule): seq<string>
    requires Works(rule, maxLength)
    decreases |text|
  {
    if |text| <= maxLength then [text]
    else
      var c := rule(text);
      [text[..c.take]] + SplitBy(text[c.take + c.skip..], maxLength, rule)
  }

  function BestCut(maxLength: nat): Rule
  {
    (t: string) => NextCut(t, maxLength)
  }

  lemma BestCutWorks(maxLength: nat)
    requires maxLength > 0
    ensures Works(BestCut(maxLength), maxLength)
  {
    forall t: string | |t| > maxLength ensures CutOk(t, maxLength, BestCut(maxLength)(t)) {
      CutFacts(t, maxLength);
    }
  }

  ghost function Split(text: string, maxLength: nat): seq<string>
    requires maxLength > 0
  {
    BestCutWorks(maxLength);
    SplitBy(text, maxLength, BestCut(maxLength))
  }

  lemma RejoinsCons(text: string, c: Cut, chunks: seq<string>)
    requires c.take + c.skip <= |text| && SeparatorAt(text, c.take, c.skip)
    requires |chunks| > 0 && Rejoins(text[c.take + c.skip..], chunks)
    ensures Rejoins(text, [text[..c.take]] + chunks)
  {
    var all := [text[..c.take]] + chunks;
    assert all[1..] == chunks;
    assert StartsWith(text, all[0], c.skip);
  }

  lemma FitsCons(chunk: string, chunks: seq<string>, maxLength: nat)
    requires 0 < |chunk| <= maxLength && Fits(chunks, maxLength)
    ensures Fits([chunk] + chunks, maxLength)
  {}

  lemma {:induction false} SplitByIsFaithful(text: string, maxLength: nat, rule: Rule)
    requires Works(rule, maxLength) && |text| > 0
    ensures Rejoins(text, SplitBy(text, maxLength, rule)) && Fits(SplitBy(text, maxLength, rule), maxLength)
    decreases |text|
  {
    if |text| > maxLength {
      var c := rule(text);
      var rest := text[c.take + c.skip..];
      SplitByIsFaithful(rest, maxLength, rule);
      RejoinsCons(text, c, SplitBy(rest, maxLength, rule));
      FitsCons(text[..c.take], SplitBy(rest, maxLength, rule), maxLength);
    }
  }

  /**
    Every chunk of a non-empty text is non-empty and within the limit, and the chunks and the
    dropped separators make up the text.
   */
  lemma SplitIsFaithful(text: string, maxLength: nat)
    requires maxLength > 0 && |text| > 0
    ensures Rejoins(text, Split(text, maxLength)) && Fits(Split(text, maxLength), maxLength)
  {
    BestCutWorks(maxLength);
    SplitByIsFaithful(text, maxLength, BestCut(maxLength));
  }

  function Squeeze(text: string): string
  {
    if |text| == 0 then ""
    else (if text[0] == ' ' || text[0] == '\n' then "" else [text[0]]) + Squeeze(text[1..])
  }

  function Flatten(chunks: seq<string>): string
  {
    if |chunks| == 0 then "" else chunks[0] + Flatten(chunks[1..])
  }

  lemma {:induction false} SqueezeAppend(a: string, b: string)
    ensures Squeeze(a + b) == Squeeze(a) + Squeeze(b)
  {
    if |a| == 0 {
      assert a + b == b;
    } else {
      assert (a + b)[1..] == a[1..] + b;
      SqueezeAppend(a[1..], b);
      Assoc(if a[0] == ' ' || a[0] == '\n' then "" else [a[0]], Squeeze(a[1..]), Squeeze(b));
    }
  }

  /** Splitting loses nothing but spaces and newlines. */
  lemma {:induction false} RejoinsKeepsInk(text: string, chunks: seq<string>)
    requires Rejoins(text, chunks)
    ensures Squeeze(Flatten(chunks)) == Squeeze(text)
    decreases |chunks|
  {
    if |chunks| == 1 {
      assert Flatten(chunks) == text;
    } else {
      var skip: nat :| StartsWith(text, chunks[0], skip) && Rejoins(text[|chunks[0]| + skip..], chunks[1..]);
      RejoinsKeepsInk(text[|chunks[0]| + skip..], chunks[1..]);
      PieceKeepsInk(text, chunks[0], skip, Flatten(chunks[1..]));
    }
  }

  lemma PieceKeepsInk(text: string, chunk: string, skip: nat, tail: string)
    requires StartsWith(text, chunk, skip) && Squeeze(tail) == Squeeze(text[|chunk| + skip..])
    ensures Squeeze(chunk + tail) == Squeeze(text)
  {
    SeparatorHasNoInk(text, |chunk|, skip);
    Pieces(text, chunk, skip);
    InkOfJoin(chunk, text[|chunk|..|chunk| + skip], text[|chunk| + skip..], tail);
  }

  lemma Pieces(text: string, chunk: string, skip: nat)
    requires StartsWith(text, chunk, skip)
    ensures text == chunk + (text[|chunk|..|chunk| + skip] + text[|chunk| + skip..])
  {}

  lemma InkOfJoin(chunk: string, sep: string, rest: string, tail: string)
    requires Squeeze(sep) == "" && Squeeze(tail) == Squeeze(rest)
    ensures Squeeze(chunk + tail) == Squeeze(chunk + (sep + rest))
  {
    SqueezeAppend(chunk, sep + rest);
    SqueezeAppend(sep, rest);
    SqueezeAppend(chunk, tail);
    assert "" + Squeeze(rest) == Squeeze(rest);
  }

  lemma SeparatorHasNoInk(text: string, at: nat, skip: nat)
    requires SeparatorAt(text, at, skip)
    ensures Squeeze(text[at..at + skip]) == ""
  {
    var sep := text[at..at + skip];
    if skip == 2 { assert Squeeze(sep[1..]) == ""; }
  }

  lemma FirstCutStep(text: string, maxLength: nat, m: Mark, marks: seq<Mark>)
    ensures var cut := LastIn(text, m.stays + m.drops, Min(maxLength, |text|));
      FirstCut(text, maxLength, [m] + marks)
        == if cut > 0 then Cut(cut + |m.stays|, |m.drops|) else FirstCut(text, maxLength, marks)
  {
    assert ([m] + marks)[1..] == marks;
  }

  lemma SentencePriority(text: string, maxLength: nat)
    ensures var end := Min(maxLength, |text|);
      var stop, bang, query := LastIn(text, ". ", end), LastIn(text, "! ", end), LastIn(text, "? ", end);
      FirstCut(text, maxLength, MARKS[2..]) ==
        if stop > 0 then Cut(stop + 1, 1)
        else if bang > 0 then Cut(bang + 1, 1)
        else if query > 0 then Cut(query + 1, 1)
        else FirstCut(text, maxLength, MARKS[5..])
  {
    assert MARKS[2..] == [MARKS[2]] + MARKS[3..] && MARKS[3..] == [MARKS[3]] + MARKS[4..];
    assert MARKS[4..] == [MARKS[4]] + MARKS[5..];
    assert "." + " " == ". " && "!" + " " == "! " && "?" + " " == "? ";
    FirstCutStep(text, maxLength, MARKS[2], MARKS[3..]);
    FirstCutStep(text, maxLength, MARKS[3], MARKS[4..]);
    FirstCutStep(text, maxLength, MARKS[4], MARKS[5..]);
  }

  lemma PlainStep(text: string, maxLength: nat, drops: string, marks: seq<Mark>)
    ensures var cut := LastIn(text, drops, Min(maxLength, |text|));
      FirstCut(text, maxLength, [Mark("", drops)] + marks)
        == if cut > 0 then Cut(cut, |drops|) else FirstCut(text, maxLength, marks)
  {
    assert "" + drops == drops;
    FirstCutStep(text, maxLength, Mark("", drops), marks);
  }

  /** The order of preference: each mark only when none before it occurs past the start. */
  lemma CutPriority(text: string, maxLength: nat)
    ensures var end := Min(maxLength, |text|);
      var paragraph, line := LastIn(text, "\n\n", end), LastIn(text, "\n", end);
      var stop, bang, query := LastIn(text, ". ", end), LastIn(text, "! ", end), LastIn(text, "? ", end);
      var word := LastIn(text, " ", end);
      NextCut(text, maxLength) ==
        if paragraph > 0 then Cut(paragraph, 2)
        else if line > 0 then Cut(line, 1)
        else if stop > 0 then Cut(stop + 1, 1)
        else if bang > 0 then Cut(bang + 1, 1)
        else if query > 0 then Cut(query + 1, 1)
        else if word > 0 then Cut(word, 1)
        else Cut(maxLength, 0)
  {
    assert MARKS == [Mark("", "\n\n")] + MARKS[1..] && MARKS[1..] == [Mark("", "\n")] + MARKS[2..];
    assert MARKS[5..] == [Mark("", " ")] + [];
    PlainStep(text, maxLength, "\n\n", MARKS[1..]);
    PlainStep(text, maxLength, "\n", MARKS[2..]);
    SentencePriority(text, maxLength);
    PlainStep(text, maxLength, " ", []);
  }

  lemma {:induction false} ZeroLimitFindsNothing(text: string, marks: seq<Mark>)
    requires forall i :: 0 <= i < |marks| ==> 0 < |marks[i].drops|
    ensures FirstCut(text, 0, marks) == Cut(0, 0)
  {
    if |marks| > 0 { ZeroLimitFindsNothing(text, marks[1..]); }
  }

  /** With a limit of zero the cut makes no progress, so the program's loop would never end. */
  lemma ZeroLimitMakesNoProgress(text: string)
    ensures NextCut(text, 0) == Cut(0, 0)
  {
    ZeroLimitFindsNothing(text, MARKS);
  }

  // ---------- The program's loop ----------

  /** Each chunk is what the cut takes, and the split goes on behind what it skips. */
  lemma SplitUnfolds(done: seq<string>, text: string, maxLength: nat, rule: Rule)
    requires Works(rule, maxLength) && |text| > maxLength
    ensures var c := rule(text);
      done + SplitBy(text, maxLength, rule)
        == (done + [text[..c.take]]) + SplitBy(text[c.take + c.skip..], maxLength, rule)
  {
    var c := rule(text);
    Assoc(done, [text[..c.take]], SplitBy(text[c.take + c.skip..], maxLength, rule));
  }

  method SplitText(text: string, maxLength: nat) returns (chunks: seq<string>)
    requires maxLength > 0 || text == ""
    ensures |text| <= maxLength ==> chunks == [text]
    ensures maxLength > 0 ==> chunks == Split(text, maxLength)
    ensures |text| > 0 ==> Rejoins(text, chunks) && Fits(chunks, maxLength)
  {
    if |text| > 0 { SplitIsFaithful(text, maxLength); }
    if |text| <= maxLength {
      return [text];
    }
    BestCutWorks(maxLength);
    chunks := SplitLoop(text, maxLength, BestCut(maxLength));
    chunks := DropEmpty(chunks);
  }

  method SplitLoop(text: string, maxLength: nat, rule: Rule) returns (chunks: seq<string>)
    requires |text| > maxLength && Works(rule, maxLength)
    ensures chunks == SplitBy(text, maxLength, rule)
  {
    chunks := [];
    var remaining := text;
    while |remaining| > 0
      invariant |remaining| > 0 && chunks + SplitBy(remaining, maxLength, rule) == SplitBy(text, maxLength, rule)
      decreases |remaining|
    {
      if |remaining| <= maxLength {
        chunks := chunks + [remaining];
        return;
      }
      SplitUnfolds(chunks, remaining, maxLength, rule);
      var c := rule(remaining);
      chunks := chunks + [remaining[..c.take]];
      remaining := remaining[c.take + c.skip..];
    }
  }

  /** The final filter; it finds nothing to remove. */
  method DropEmpty(chunks: seq<string>) returns (kept: seq<string>)
    ensures (forall i :: 0 <= i < |chunks| ==> chunks[i] != "") ==> kept == chunks
    ensures forall i :: 0 <= i < |kept| ==> kept[i] != ""
  {
    kept := [];
    for i := 0 to |chunks|
      invariant (forall k :: 0 <= k < i ==> chunks[k] != "") ==> kept == chunks[..i]
      invariant forall k :: 0 <= k < |kept| ==> kept[k] != ""
    {
      if chunks[i] != "" {
        kept := kept + [chunks[i]];
      }
    }
  }
}
