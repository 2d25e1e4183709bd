/** Escaping a message for Telegram MarkdownV2, with code fences and inline code left alone. */
module TelegramEscape {

  const SPECIAL: set<char> := {'_', '[', ']', '(', ')', '~', '`', '>', '#', '+', '=', '|', '{', '}', '.', '!', '-'}
  const FENCE: string := "```"

  /** Where in the text a position is: `block` inside a code fence, `inline` inside inline code. */
  datatype Mode = Mode(block: bool, inline: bool)
  {
    predicate InCode() { block || inline }
  }

  predicate StartsFence(text: string)
  {
    |text| >= 3 && text[0] == '`' && text[1] == '`' && text[2] == '`'
  }

  /** A backtick that opens or closes inline code. */
  predicate StartsInline(text: string, m: Mode)
  {
    !StartsFence(text) && |text| > 0 && text[0] == '`' && !m.block
  }

  function Escape(text: string, m: Mode): string
  {
    if |text| == 0 then ""
    else if StartsFence(text) then FENCE + Escape(text[3..], m.(block := !m.block))
    else if StartsInline(text, m) then "`" + Escape(text[1..], m.(inline := !m.inline))
    else if !m.InCode() && text[0] in SPECIAL then ['\\', text[0]] + Escape(text[1..], m)
    else [text[0]] + Escape(text[1..], m)
  }

  /** The characters MarkdownV2 asks to escape. */
  predicate MustEscape(c: char)
  {
    c in "_[]()~`>#+-=|{}.!"
  }

  lemma SpecialsMustEscape(c: char)
    ensures c in SPECIAL <==> MustEscape(c)
  {}

  /** An escape sequence, outside code. */
  predicate StartsEscape(text: string, m: Mode)
  {
    !m.InCode() && |text| >= 2 && text[0] == '\\' && MustEscape(text[1]) && text[1] != '`'
  }

  /** The decoder: the same toggles, and a backslash before a special character dropped outside code. */
  function Unescape(text: string, m: Mode): string
  {
    if |text| == 0 then ""
    else if StartsFence(text) then FENCE + Unescape(text[3..], m.(block := !m.block))
    else if StartsInline(text, m) then "`" + Unescape(text[1..], m.(inline := !m.inline))
    else if StartsEscape(text, m) then [text[1]] + Unescape(text[2..], m)
    else [text[0]] + Unescape(text[1..], m)
  }

  /** The number of backticks a text starts with. */
  function Ticks(text: string): nat
  {
    if |text| > 0 && text[0] == '`' then 1 + Ticks(text[1..]) else 0
  }

  lemma TicksFence(text: string)
    ensures StartsFence(text) <==> Ticks(text) >= 3
    ensures StartsFence(text) ==> Ticks(text) == 3 + Ticks(text[3..])
  {
    if |text| > 0 && text[0] == '`' {
      var second := text[1..];
      if |second| > 0 && second[0] == '`' {
        var third := second[1..];
        assert third == text[2..] && Ticks(second) == 1 + Ticks(third);
        if |third| > 0 && third[0] == '`' { assert third[1..] == text[3..]; }
      }
    }
  }

  lemma TicksPrefix(rest: string)
    ensures Ticks(FENCE + rest) == 3 + Ticks(rest)
    ensures Ticks("`" + rest) == 1 + Ticks(rest)
  {
    assert ("`" + rest)[1..] == rest;
    var text := FENCE + rest;
    assert text[3..] == rest;
    TicksFence(text);
  }

  /** Escaping keeps the backticks a text starts with, whatever mode they are read in. */
  lemma {:induction false} EscapeKeepsTicks(text: string, m: Mode)
    ensures Ticks(Escape(text, m)) == Ticks(text)
    decreases |text|
  {
    TicksFence(text);
    if StartsFence(text) {
      EscapeKeepsTicks(text[3..], m.(block := !m.block));
      TicksPrefix(Escape(text[3..], m.(block := !m.block)));
    } else if StartsInline(text, m) {
      EscapeKeepsTicks(text[1..], m.(inline := !m.inline));
      TicksPrefix(Escape(text[1..], m.(inline := !m.inline)));
    } else if |text| > 0 && m.InCode() && text[0] == '`' {
      EscapeKeepsTicks(text[1..], m);
      TicksPrefix(Escape(text[1..], m));
    }
  }

  /** Outside code the escaped text never starts with a bare special character. */
  lemma EscapeHead(text: string, m: Mode)
    requires !m.InCode() && |text| > 0
    ensures |Escape(text, m)| > 0 && (Escape(text, m)[0] in SPECIAL ==> Escape(text, m)[0] == '`')
  {}

  /** The first step of escaping: what it emits, what is left, and the mode after it. */
  lemma EscapeAligned(text: string, m: Mode)
    requires |text| > 0
    ensures StartsFence(Escape(text, m)) == StartsFence(text)
    ensures StartsInline(Escape(text, m), m) == StartsInline(text, m)
  {
    EscapeKeepsTicks(text, m);
    TicksFence(text);
    TicksFence(Escape(text, m));
  }

  /** Decoding undoes escaping, on every text. */
  lemma {:induction false} RoundTrip(text: string, m: Mode)
    ensures Unescape(Escape(text, m), m) == text
    decreases |text|
  {
    if |text| > 0 {
      EscapeAligned(text, m);
      var out := Escape(text, m);
      if StartsFence(text) {
        RoundTrip(text[3..], m.(block := !m.block));
        assert out[3..] == Escape(text[3..], m.(block := !m.block));
        assert text == FENCE + text[3..];
      } else if StartsInline(text, m) {
        RoundTrip(text[1..], m.(inline := !m.inline));
        assert out[1..] == Escape(text[1..], m.(inline := !m.inline));
      } else if !m.InCode() && text[0] in SPECIAL {
        RoundTrip(text[1..], m);
        assert out[2..] == Escape(text[1..], m);
      } else {
        RoundTrip(text[1..], m);
        assert out[1..] == Escape(text[1..], m);
        if !m.InCode() && |text| > 1 { EscapeHead(text[1..], m); }
      }
    }
  }

  /** No two messages are formatted alike. */
  lemma EscapeIsInjective(a: string, b: string, m: Mode)
    requires Escape(a, m) == Escape(b, m)
    ensures a == b
  {
    RoundTrip(a, m);
    RoundTrip(b, m);
  }

  /** Outside code, every special character other than a toggle stands behind its own backslash. */
  predicate FullyEscaped(text: string, m: Mode)
  {
    if |text| == 0 then true
    else if StartsFence(text) then FullyEscaped(text[3..], m.(block := !m.block))
    else if StartsInline(text, m) then FullyEscaped(text[1..], m.(inline := !m.inline))
    else if StartsEscape(text, m) then FullyEscaped(text[2..], m)
    else (m.InCode() || !MustEscape(text[0])) && FullyEscaped(text[1..], m)
  }

  /** The characters a text holds inside code fences and inline code, toggles excluded. */
  function Code(text: string, m: Mode): string
  {
    if |text| == 0 then ""
    else if StartsFence(text) then Code(text[3..], m.(block := !m.block))
    else if StartsInline(text, m) then Code(text[1..], m.(inline := !m.inline))
    else (if m.InCode() then [text[0]] else "") + Code(text[1..], m)
  }

  /** Every special character outside code is escaped, and code content is copied unchanged. */
  lemma {:induction false} EscapeIsComplete(text: string, m: Mode)
    ensures FullyEscaped(Escape(text, m), m)
    ensures Code(Escape(text, m), m) == Code(text, m)
    decreases |text|
  {
    if |text| > 0 {
      EscapeAligned(text, m);
      var out := Escape(text, m);
      if StartsFence(text) {
        EscapeIsComplete(text[3..], m.(block := !m.block));
        assert out[3..] == Escape(text[3..], m.(block := !m.block));
      } else if StartsInline(text, m) {
        EscapeIsComplete(text[1..], m.(inline := !m.inline));
        assert out[1..] == Escape(text[1..], m.(inline := !m.inline));
      } else if !m.InCode() && text[0] in SPECIAL {
        EscapeIsComplete(text[1..], m);
        assert out[2..] == Escape(text[1..], m);
        assert out[1..] == [text[0]] + Escape(text[1..], m) && out[1..][1..] == out[2..];
        assert text[0] != '`';
      } else {
        EscapeIsComplete(text[1..], m);
        assert out[1..] == Escape(text[1..], m);
        if !m.InCode() && |text| > 1 { EscapeHead(text[1..], m); }
      }
    }
  }

  // ---------- Escaping, piece by piece ----------

  const PLAIN := Mode(false, false)

  /** Outside code a character other than a backtick is written as it is, behind a backslash if it must be. */
  lemma PlainCharacter(c: char, rest: string)
    requires c != '`'
    ensures Escape([c] + rest, PLAIN) == (if MustEscape(c) then ['\\', c] else [c]) + Escape(rest, PLAIN)
  {
    SpecialsMustEscape(c);
    assert ([c] + rest)[1..] == rest;
  }

  lemma {:induction false} CodeIsCopied(body: string, rest: string, m: Mode)
    requires m.InCode() && forall i :: 0 <= i < |body| ==> body[i] != '`'
    ensures Escape(body + rest, m) == body + Escape(rest, m)
  {
    if |body| == 0 {
      assert body + rest == rest;
    } else {
      CodeIsCopied(body[1..], rest, m);
      assert (body + rest)[1..] == body[1..] + rest;
      assert body == [body[0]] + body[1..];
    }
  }

  lemma TickToggles(rest: string, m: Mode)
    requires !m.block && !StartsFence("`" + rest)
    ensures Escape("`" + rest, m) == "`" + Escape(rest, m.(inline := !m.inline))
  {
    assert ("`" + rest)[1..] == rest;
  }

  /** Inline code between two backticks is copied, and escaping goes on behind it. */
  lemma InlineIsCopied(body: string, rest: string)
    requires |body| > 0 && forall i :: 0 <= i < |body| ==> body[i] != '`'
    requires !StartsFence("`" + rest)
    ensures Escape("`" + (body + ("`" + rest)), PLAIN) == "`" + (body + ("`" + Escape(rest, PLAIN)))
  {
    var tail := body + ("`" + rest);
    assert ("`" + tail)[1] == tail[0] == body[0];
    TickToggles(tail, PLAIN);
    CodeIsCopied(body, "`" + rest, Mode(false, true));
    TickToggles(rest, Mode(false, true));
  }

  lemma {:induction false} FenceIsCopied(body: string, rest: string)
    requires forall i :: 0 <= i < |body| ==> !StartsFence((body + FENCE)[i..])
    ensures Escape(body + (FENCE + rest), Mode(true, false)) == body + (FENCE + Escape(rest, PLAIN))
  {
    if |body| == 0 {
      assert body + (FENCE + rest) == FENCE + rest && (FENCE + rest)[3..] == rest;
      assert body + (FENCE + Escape(rest, PLAIN)) == FENCE + Escape(rest, PLAIN);
    } else {
      var text, closed := body + (FENCE + rest), body + FENCE;
      assert closed[0..] == closed;
      assert text[0] == closed[0] && text[1] == closed[1] && text[2] == closed[2];
      forall i | 0 <= i < |body[1..]| ensures !StartsFence((body[1..] + FENCE)[i..]) {
        assert (body[1..] + FENCE)[i..] == closed[i + 1..];
      }
      FenceIsCopied(body[1..], rest);
      assert text[1..] == body[1..] + (FENCE + rest);
      assert body == [body[0]] + body[1..];
    }
  }

  /** A code block between two fences is copied, single backticks included, and escaping goes on behind it. */
  lemma BlockIsCopied(body: string, rest: string)
    requires forall i :: 0 <= i < |body| ==> !StartsFence((body + "```")[i..])
    ensures Escape("```" + (body + ("```" + rest)), PLAIN) == "```" + (body + ("```" + Escape(rest, PLAIN)))
  {
    FenceIsCopied(body, rest);
    assert ("```" + (body + ("```" + rest)))[3..] == body + ("```" + rest);
  }

  /** One pass of the loop at position `i`: what it emits, and the position and the flags after it. */
  method NextPiece(text: string, i: nat, inBlock: bool, inInline: bool)
    returns (piece: string, next: nat, block: bool, inline: bool)
    requires i < |text|
    ensures i < next <= |text|
    ensures Escape(text[i..], Mode(inBlock, inInline)) == piece + Escape(text[next..], Mode(block, inline))
  {
    block, inline := inBlock, inInline;
    ghost var rest := text[i..];
    if i + 3 <= |text| && text[i..i + 3] == FENCE {
      assert text[i..i + 3][0] == rest[0] && text[i..i + 3][1] == rest[1] && text[i..i + 3][2] == rest[2];
      assert text[i + 3..] == rest[3..];
      return FENCE, i + 3, !inBlock, inInline;
    }
    assert !StartsFence(rest);
    next := i + 1;
    assert text[next..] == rest[1..];
    if text[i] == '`' && !inBlock {
      return "`", next, inBlock, !inInline;
    }
    if !inBlock && !inInline && text[i] in SPECIAL {
      piece := ['\\', text[i]];
    } else {
      piece := [text[i]];
    }
  }

  method FormatTelegram(text: string) returns (result: string)
    ensures result == Escape(text, Mode(false, false))
    ensures Unescape(result, Mode(false, false)) == text && FullyEscaped(result, Mode(false, false))
  {
    RoundTrip(text, Mode(false, false));
    EscapeIsComplete(text, Mode(false, false));
    result := "";
    var i := 0;
    var inBlock, inInline := false, false;
    while i < |text|
      invariant i <= |text|
      invariant result + Escape(text[i..], Mode(inBlock, inInline)) == Escape(text, Mode(false, false))
    {
      var piece, next, block, inline := NextPiece(text, i, inBlock, inInline);
      assert result + (piece + Escape(text[next..], Mode(block, inline)))
          == (result + piece) + Escape(text[next..], Mode(block, inline));
      result := result + piece;
      i, inBlock, inInline := next, block, inline;
    }
  }
}
