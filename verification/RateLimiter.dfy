/**
  The per-model sliding-window rate limiter.

  `ModelBucket` is the mutable bucket.  Every locked section of the program is one
  method call that takes a clock reading; `World` is the value the methods act on,
  paired with a ledger that nothing in the program reads.
 */
module RateLimiter {
  import opened Common

  const WINDOW: real := 60.0
  const SLACK: real := 0.1
  const MIN_WAIT: real := 1.0
  const FILL_SPACING: real := 0.01

  /** The configuration keys a locked section reads. */
  datatype Config = Config(headroom: real, rpm: int, itpm: int, fillFraction: real)

  datatype TokenEntry = TokenEntry(time: real, tokens: nat)

  datatype Bucket = Bucket(
    requestTimes: seq<real>,
    tokenEntries: seq<TokenEntry>,
    nextEstimate: int,
    apiRpmLimit: Option<int>,
    apiItpmLimit: Option<int>)

  /** An admission and the effective RPM limit it was admitted under. */
  datatype Admission = Admission(time: real, limit: int)

  /** What happened so far; a full history that no operation ever shortens. */
  datatype Ledger = Ledger(
    admitted: seq<Admission>,
    synthetic: seq<real>,
    trimmed: seq<real>,
    tokenLog: seq<TokenEntry>,
    cleanedTo: real,
    clock: real)

  datatype World = World(b: Bucket, l: Ledger)

  datatype Step =
    | Attempt(cfg: Config, now: real)
    | Record(tokens: nat, estimate: nat, now: real)
    | Record429(cfg: Config, now: real)
    | Headers(rpm: Option<int>, itpm: Option<int>, priority: Option<int>, remaining: Option<int>)

  datatype Decision = Admitted | Wait(seconds: real)

  /** One pass of the retry loop: the shutdown flag and the clock reading it starts with. */
  datatype Wake = Wake(shutdown: bool, now: real) {
    /** The pass goes on to an attempt. */
    predicate Proceeds(deadline: real)
    {
      !shutdown && now < deadline
    }
  }

  // ---------- Limits and windows ----------

  function EffectiveLimit(api: Option<int>, headroom: real, fallback: int): int
  {
    match api
    case Some(limit) => Scale(limit, headroom)
    case None => fallback
  }

  /** `m` is the limit in force: the reported one with headroom, truncated, or else the configured one. */
  predicate InForce(api: Option<int>, headroom: real, configured: int, m: int)
  {
    match api
    case Some(n) => IsShare(n, headroom, m)
    case None => m == configured
  }

  function RpmLimit(b: Bucket, cfg: Config): int
  {
    EffectiveLimit(b.apiRpmLimit, cfg.headroom, cfg.rpm)
  }

  function ItpmLimit(b: Bucket, cfg: Config): int
  {
    EffectiveLimit(b.apiItpmLimit, cfg.headroom, cfg.itpm)
  }

  function DropExpired(times: seq<real>, windowStart: real): seq<real>
  {
    if |times| > 0 && times[0] < windowStart then DropExpired(times[1..], windowStart) else times
  }

  function DropExpiredTokens(entries: seq<TokenEntry>, windowStart: real): seq<TokenEntry>
  {
    if |entries| > 0 && entries[0].time < windowStart then DropExpiredTokens(entries[1..], windowStart) else entries
  }

  function Cleaned(b: Bucket, now: real): Bucket
  {
    b.(requestTimes := DropExpired(b.requestTimes, now - WINDOW),
       tokenEntries := DropExpiredTokens(b.tokenEntries, now - WINDOW))
  }

  function SumTokens(entries: seq<TokenEntry>): nat
  {
    if |entries| == 0 then 0 else SumTokens(entries[..|entries| - 1]) + entries[|entries| - 1].tokens
  }

  // ---------- The admission test and the wait ----------

  predicate RpmOk(b: Bucket, cfg: Config)
  {
    RpmLimit(b, cfg) <= 0 || |b.requestTimes| < RpmLimit(b, cfg)
  }

  predicate ItpmOk(b: Bucket, cfg: Config)
  {
    ItpmLimit(b, cfg) <= 0 || SumTokens(b.tokenEntries) + b.nextEstimate <= ItpmLimit(b, cfg)
  }

  lemma InForceIsEffective(api: Option<int>, headroom: real, configured: int, m: int)
    ensures InForce(api, headroom, configured, m) <==> m == EffectiveLimit(api, headroom, configured)
  {
    if api.Some? { ShareIsScale(api.value, headroom, m); }
  }

  /** The answer that the limits `rpm` and `itpm` give on the windows of the last 60 seconds. */
  predicate Admits(b: Bucket, now: real, rpm: int, itpm: int)
  {
    && (rpm <= 0 || |DropExpired(b.requestTimes, now - 60.0)| < rpm)
    && (itpm <= 0 || SumTokens(DropExpiredTokens(b.tokenEntries, now - 60.0)) + b.nextEstimate <= itpm)
  }

  /** The time of the first entry at which the running token sum, started at `seen`, reaches `needed`. */
  function ReachTime(entries: seq<TokenEntry>, seen: int, needed: int): Option<real>
  {
    if |entries| == 0 then None
    else if seen + entries[0].tokens >= needed then Some(entries[0].time)
    else ReachTime(entries[1..], seen + entries[0].tokens, needed)
  }

  function TokensNeeded(b: Bucket, cfg: Config): int
  {
    SumTokens(b.tokenEntries) + b.nextEstimate - ItpmLimit(b, cfg)
  }

  function RpmWait(b: Bucket, cfg: Config, now: real): real
  {
    if !RpmOk(b, cfg) && |b.requestTimes| > 0 then b.requestTimes[0] + WINDOW - now + SLACK else 0.0
  }

  function ItpmWait(b: Bucket, cfg: Config, now: real): real
  {
    if ItpmOk(b, cfg) then 0.0
    else match ReachTime(b.tokenEntries, 0, TokensNeeded(b, cfg))
         case Some(ts) => ts + WINDOW - now + SLACK
         case None => 0.0
  }

  /** The larger of the two expiry waits, before the one-second floor. */
  function ExpiryWait(b: Bucket, cfg: Config, now: real): real
  {
    MaxReal(MaxReal(0.0, RpmWait(b, cfg, now)), ItpmWait(b, cfg, now))
  }

  function Decide(b: Bucket, cfg: Config, now: real): Decision
  {
    var c := Cleaned(b, now);
    if RpmOk(c, cfg) && ItpmOk(c, cfg) then Admitted else Wait(MaxReal(ExpiryWait(c, cfg, now), MIN_WAIT))
  }

  // ---------- The steps ----------

  function FillTimes(now: real, n: nat): seq<real>
  {
    seq(n, i => now + i as real * FILL_SPACING)
  }

  function FillCount(b: Bucket, cfg: Config): nat
  {
    if RpmLimit(b, cfg) > 0
    then Max(0, Scale(RpmLimit(b, cfg), cfg.fillFraction) - |b.requestTimes|) else 0
  }

  function FillTokens(b: Bucket, cfg: Config): nat
  {
    if ItpmLimit(b, cfg) > 0
    then Max(0, Scale(ItpmLimit(b, cfg), cfg.fillFraction) - SumTokens(b.tokenEntries)) else 0
  }

  function FillEntry(b: Bucket, cfg: Config, now: real): seq<TokenEntry>
  {
    if FillTokens(b, cfg) > 0 then [TokenEntry(now, FillTokens(b, cfg))] else []
  }

  /** How many of the oldest stored requests a header update removes. */
  function TrimCount(stored: nat, apiRpm: Option<int>, remaining: Option<int>): (n: nat)
    ensures n <= stored
  {
    if apiRpm.None? || remaining.None? then 0
    else
      var used := apiRpm.value - remaining.value;
      if stored > used + 2 then Min(stored - used, stored) else 0
  }

  function LowerOf(a: Option<int>, b: Option<int>): Option<int>
  {
    if a.None? then b else if b.None? then a else Some(Min(a.value, b.value))
  }

  function Updated(api: Option<int>, reported: Option<int>): Option<int>
  {
    if reported.None? then api else reported
  }

  function WithHeaders(b: Bucket, rpm: Option<int>, itpm: Option<int>, priority: Option<int>,
                       remaining: Option<int>): Bucket
  {
    var apiRpm := Updated(b.apiRpmLimit, rpm);
    b.(apiRpmLimit := apiRpm, apiItpmLimit := Updated(b.apiItpmLimit, LowerOf(itpm, priority)),
       requestTimes := b.requestTimes[TrimCount(|b.requestTimes|, apiRpm, remaining)..])
  }

  function Next(w: World, step: Step): World
  {
    var b, l := w.b, w.l;
    match step
    case Attempt(cfg, now) =>
      var c := Cleaned(b, now);
      var l' := l.(cleanedTo := now - WINDOW, clock := now);
      if Decide(b, cfg, now).Admitted?
      then World(c.(requestTimes := c.requestTimes + [now]),
                 l'.(admitted := l.admitted + [Admission(now, RpmLimit(b, cfg))]))
      else World(c, l')
    case Record(tokens, estimate, now) =>
      var entry := TokenEntry(now, tokens);
      World(Cleaned(b.(tokenEntries := b.tokenEntries + [entry], nextEstimate := estimate), now),
            l.(tokenLog := l.tokenLog + [entry], cleanedTo := now - WINDOW, clock := now))
    case Record429(cfg, now) =>
      var fill := FillTimes(now, FillCount(b, cfg));
      World(b.(requestTimes := b.requestTimes + fill, tokenEntries := b.tokenEntries + FillEntry(b, cfg, now)),
            l.(synthetic := l.synthetic + fill, tokenLog := l.tokenLog + FillEntry(b, cfg, now), clock := now))
    case Headers(rpm, itpm, priority, remaining) =>
      var n := TrimCount(|b.requestTimes|, Updated(b.apiRpmLimit, rpm), remaining);
      World(WithHeaders(b, rpm, itpm, priority, remaining), l.(trimmed := l.trimmed + b.requestTimes[..n]))
  }

  /** Clock readings do not decrease in lock order. */
  predicate Enabled(w: World, step: Step)
  {
    step.Headers? || step.now >= w.l.clock
  }

  function Init(start: real, estimate: nat): World
  {
    World(Bucket([], [], estimate, None, None), Ledger([], [], [], [], start - WINDOW, start))
  }

  function Exec(w: World, steps: seq<Step>): World
    decreases |steps|
  {
    if |steps| == 0 then w else Exec(Next(w, steps[0]), steps[1..])
  }

  predicate ValidRun(w: World, steps: seq<Step>)
    decreases |steps|
  {
    |steps| == 0 || (Enabled(w, steps[0]) && ValidRun(Next(w, steps[0]), steps[1..]))
  }

  // ---------- Counting and filtering a history ----------

  /** How many readings fall in the closed interval [lo, hi]. */
  function CountIn(s: seq<real>, lo: real, hi: real): nat
  {
    if |s| == 0 then 0
    else CountIn(s[..|s| - 1], lo, hi) + (if lo <= s[|s| - 1] <= hi then 1 else 0)
  }

  lemma {:induction false} CountInAppend(a: seq<real>, b: seq<real>, lo: real, hi: real)
    ensures CountIn(a + b, lo, hi) == CountIn(a, lo, hi) + CountIn(b, lo, hi)
  {
    if |b| == 0 {
      assert a + b == a;
    } else {
      assert (a + b)[..|a + b| - 1] == a + b[..|b| - 1];
      CountInAppend(a, b[..|b| - 1], lo, hi);
    }
  }

  lemma CountInAtMostLength(s: seq<real>, lo: real, hi: real)
    ensures CountIn(s, lo, hi) <= |s|
  {}

  /** Cleaning a window drops a prefix of expired readings and stops at the first live one. */
  lemma {:induction false} DropExpiredIsPrefix(times: seq<real>, windowStart: real) returns (k: nat)
    ensures k <= |times| && DropExpired(times, windowStart) == times[k..]
    ensures forall i :: 0 <= i < k ==> times[i] < windowStart
    ensures k < |times| ==> times[k] >= windowStart
  {
    if |times| > 0 && times[0] < windowStart {
      var k' := DropExpiredIsPrefix(times[1..], windowStart);
      k := k' + 1;
      assert times[1..][k'..] == times[k..];
      forall i | 0 <= i < k ensures times[i] < windowStart {
        if i > 0 { assert times[i] == times[1..][i - 1]; }
      }
    } else {
      k := 0;
    }
  }

  lemma {:induction false} CountInNone(s: seq<real>, lo: real, hi: real)
    requires forall i :: 0 <= i < |s| ==> s[i] < lo
    ensures CountIn(s, lo, hi) == 0
  {
    if |s| > 0 { CountInNone(s[..|s| - 1], lo, hi); }
  }

  /** Cleaning never removes a reading that still lies in the window, sorted or not. */
  lemma CleaningKeepsWindow(times: seq<real>, windowStart: real, lo: real, hi: real)
    requires lo >= windowStart
    ensures CountIn(DropExpired(times, windowStart), lo, hi) == CountIn(times, lo, hi)
  {
    var k := DropExpiredIsPrefix(times, windowStart);
    CountInNone(times[..k], lo, hi);
    CountInAppend(times[..k], times[k..], lo, hi);
    assert times == times[..k] + times[k..];
  }

  predicate TokensSorted(s: seq<TokenEntry>)
  {
    forall i, j :: 0 <= i <= j < |s| ==> s[i].time <= s[j].time
  }

  /** The records of a token history no older than `from`, in order. */
  function Since(s: seq<TokenEntry>, from: real): seq<TokenEntry>
  {
    if |s| == 0 then []
    else Since(s[..|s| - 1], from) + (if s[|s| - 1].time >= from then [s[|s| - 1]] else [])
  }

  lemma {:induction false} SinceAppend(a: seq<TokenEntry>, b: seq<TokenEntry>, from: real)
    ensures Since(a + b, from) == Since(a, from) + Since(b, from)
  {
    if |b| == 0 {
      assert a + b == a;
    } else {
      assert (a + b)[..|a + b| - 1] == a + b[..|b| - 1];
      SinceAppend(a, b[..|b| - 1], from);
      var last := b[|b| - 1];
      Assoc(Since(a, from), Since(b[..|b| - 1], from), if last.time >= from then [last] else []);
    }
  }

  lemma {:induction false} SinceAll(s: seq<TokenEntry>, from: real)
    requires forall i :: 0 <= i < |s| ==> s[i].time >= from
    ensures Since(s, from) == s
  {
    if |s| > 0 {
      var front, last := s[..|s| - 1], s[|s| - 1];
      SinceAll(front, from);
      assert Since(s, from) == front + [last] == s;
    }
  }

  lemma {:induction false} SinceNone(s: seq<TokenEntry>, from: real)
    requires forall i :: 0 <= i < |s| ==> s[i].time < from
    ensures Since(s, from) == []
  {
    if |s| > 0 { SinceNone(s[..|s| - 1], from); }
  }

  lemma {:induction false} SinceNarrows(s: seq<TokenEntry>, from: real, from': real)
    requires from <= from'
    ensures Since(Since(s, from), from') == Since(s, from')
  {
    if |s| > 0 {
      var last := s[|s| - 1];
      SinceNarrows(s[..|s| - 1], from, from');
      SinceAppend(Since(s[..|s| - 1], from), if last.time >= from then [last] else [], from');
      assert Since([last], from') == if last.time >= from' then [last] else [] by {
        assert [last][..0] == [];
      }
    }
  }

  lemma {:induction false} SinceSorted(s: seq<TokenEntry>, from: real)
    requires TokensSorted(s)
    ensures TokensSorted(Since(s, from))
    ensures forall i :: 0 <= i < |Since(s, from)| ==> from <= Since(s, from)[i].time && Since(s, from)[i] in s
  {
    if |s| > 0 { SinceSorted(s[..|s| - 1], from); }
  }

  lemma {:induction false} DropTokensIsPrefix(s: seq<TokenEntry>, windowStart: real) returns (k: nat)
    ensures k <= |s| && DropExpiredTokens(s, windowStart) == s[k..]
    ensures forall i :: 0 <= i < k ==> s[i].time < windowStart
    ensures k < |s| ==> s[k].time >= windowStart
  {
    if |s| > 0 && s[0].time < windowStart {
      var k' := DropTokensIsPrefix(s[1..], windowStart);
      k := k' + 1;
      assert s[1..][k'..] == s[k..];
      forall i | 0 <= i < k ensures s[i].time < windowStart {
        if i > 0 { assert s[i] == s[1..][i - 1]; }
      }
    } else {
      k := 0;
    }
  }

  /** A clean drops exactly the entries older than 60 seconds in front of the first live one. */
  lemma CleanedMeaning(b: Bucket, now: real) returns (n: nat, m: nat)
    ensures n <= |b.requestTimes| && Cleaned(b, now).requestTimes == b.requestTimes[n..]
    ensures forall i :: 0 <= i < n ==> b.requestTimes[i] < now - 60.0
    ensures n < |b.requestTimes| ==> b.requestTimes[n] >= now - 60.0
    ensures m <= |b.tokenEntries| && Cleaned(b, now).tokenEntries == b.tokenEntries[m..]
    ensures forall i :: 0 <= i < m ==> b.tokenEntries[i].time < now - 60.0
    ensures m < |b.tokenEntries| ==> b.tokenEntries[m].time >= now - 60.0
  {
    n := DropExpiredIsPrefix(b.requestTimes, now - WINDOW);
    m := DropTokensIsPrefix(b.tokenEntries, now - WINDOW);
  }

  /** On a sorted deque, dropping the expired prefix is the same as filtering. */
  lemma CleaningIsFiltering(s: seq<TokenEntry>, windowStart: real)
    requires TokensSorted(s)
    ensures DropExpiredTokens(s, windowStart) == Since(s, windowStart)
  {
    var k := DropTokensIsPrefix(s, windowStart);
    assert s == s[..k] + s[k..];
    SinceAppend(s[..k], s[k..], windowStart);
    SinceNone(s[..k], windowStart);
    SinceAll(s[k..], windowStart);
    assert [] + s[k..] == s[k..];
  }

  // ---------- The invariant of every run ----------

  function Times(admitted: seq<Admission>): seq<real>
  {
    seq(|admitted|, i requires 0 <= i < |admitted| => admitted[i].time)
  }

  /**
    Every reading stored in the live window is accounted for: it was admitted or synthetic, and
    is stored or was trimmed.
   */
  predicate Balanced(w: World, lo: real, hi: real)
  {
    CountIn(Times(w.l.admitted), lo, hi) + CountIn(w.l.synthetic, lo, hi)
      == CountIn(w.b.requestTimes, lo, hi) + CountIn(w.l.trimmed, lo, hi)
  }

  /** Admission `k` and those before it, counted from `lo`, fit the limit `k` was admitted under. */
  predicate Bounded(l: Ledger, k: nat, lo: real)
    requires k < |l.admitted|
  {
    CountIn(Times(l.admitted[..k + 1]), lo, l.admitted[k].time)
      <= l.admitted[k].limit + CountIn(l.trimmed, lo, l.admitted[k].time)
  }

  ghost predicate RequestsValid(w: World)
  {
    && (forall lo, hi :: lo >= w.l.clock - WINDOW ==> Balanced(w, lo, hi))
    && (forall k, lo :: 0 <= k < |w.l.admitted| && w.l.admitted[k].limit > 0 && lo >= w.l.admitted[k].time - WINDOW
          ==> Bounded(w.l, k, lo))
    && (forall i, j :: 0 <= i <= j < |w.l.admitted| ==> w.l.admitted[i].time <= w.l.admitted[j].time)
    && (forall i :: 0 <= i < |w.l.admitted| ==> w.l.admitted[i].time <= w.l.clock)
  }

  ghost predicate TokensValid(w: World)
  {
    && TokensSorted(w.l.tokenLog)
    && (forall i :: 0 <= i < |w.l.tokenLog| ==> w.l.tokenLog[i].time <= w.l.clock)
    && w.l.cleanedTo <= w.l.clock - WINDOW
    && w.b.tokenEntries == Since(w.l.tokenLog, w.l.cleanedTo)
  }

  ghost predicate Valid(w: World)
  {
    RequestsValid(w) && TokensValid(w)
  }

  lemma CleanTokensValid(w: World, now: real)
    requires TokensValid(w) && now >= w.l.clock
    ensures DropExpiredTokens(w.b.tokenEntries, now - WINDOW) == Since(w.l.tokenLog, now - WINDOW)
  {
    SinceSorted(w.l.tokenLog, w.l.cleanedTo);
    CleaningIsFiltering(w.b.tokenEntries, now - WINDOW);
    SinceNarrows(w.l.tokenLog, w.l.cleanedTo, now - WINDOW);
  }

  lemma SortedNext(s: seq<TokenEntry>, entry: TokenEntry)
    requires TokensSorted(s)
    requires forall i :: 0 <= i < |s| ==> s[i].time <= entry.time
    ensures TokensSorted(s + [entry])
  {}

  lemma AppendKeepsTokensValid(w: World, entry: TokenEntry)
    requires TokensValid(w) && entry.time >= w.l.clock
    ensures Since(w.l.tokenLog + [entry], w.l.cleanedTo) == w.b.tokenEntries + [entry]
    ensures TokensSorted(w.l.tokenLog + [entry])
  {
    SortedNext(w.l.tokenLog, entry);
    SinceAll([entry], w.l.cleanedTo);
    SinceAppend(w.l.tokenLog, [entry], w.l.cleanedTo);
  }

  lemma RecordKeepsTokens(w: World, tokens: nat, estimate: nat, now: real)
    requires TokensValid(w) && now >= w.l.clock
    ensures TokensValid(Next(w, Record(tokens, estimate, now)))
  {
    var entry := TokenEntry(now, tokens);
    AppendKeepsTokensValid(w, entry);
    var mid := World(w.b.(tokenEntries := w.b.tokenEntries + [entry]),
                     w.l.(tokenLog := w.l.tokenLog + [entry], clock := now));
    CleanTokensValid(mid, now);
  }

  lemma RejectionKeepsTokens(w: World, cfg: Config, now: real)
    requires TokensValid(w) && now >= w.l.clock
    ensures TokensValid(Next(w, Record429(cfg, now)))
  {
    if FillTokens(w.b, cfg) > 0 {
      AppendKeepsTokensValid(w, FillEntry(w.b, cfg, now)[0]);
    } else {
      assert w.l.tokenLog + [] == w.l.tokenLog && w.b.tokenEntries + [] == w.b.tokenEntries;
    }
  }

  lemma StepKeepsTokens(w: World, step: Step)
    requires TokensValid(w) && Enabled(w, step)
    ensures TokensValid(Next(w, step))
  {
    match step
    case Attempt(cfg, now) => CleanTokensValid(w, now);
    case Record(tokens, estimate, now) =>
      RecordKeepsTokens(w, tokens, estimate, now);
    case Record429(cfg, now) =>
      RejectionKeepsTokens(w, cfg, now);
    case Headers(_, _, _, _) =>
  }

  lemma TimesAppend(admitted: seq<Admission>, a: Admission)
    ensures Times(admitted + [a]) == Times(admitted) + [a.time]
  {}

  /** Trimming and later admissions leave every earlier bound in force. */
  lemma BoundedPersists(l: Ledger, l': Ledger, k: nat, lo: real)
    requires k < |l.admitted| && Bounded(l, k, lo)
    requires l.admitted <= l'.admitted && l.trimmed <= l'.trimmed
    ensures Bounded(l', k, lo)
  {
    assert l'.admitted[..k + 1] == l.admitted[..k + 1];
    var more := l'.trimmed[|l.trimmed|..];
    assert l'.trimmed == l.trimmed + more;
    CountInAppend(l.trimmed, more, lo, l.admitted[k].time);
  }

  lemma AttemptBalanced(w: World, cfg: Config, now: real, lo: real, hi: real)
    requires RequestsValid(w) && now >= w.l.clock && lo >= now - WINDOW
    ensures Balanced(Next(w, Attempt(cfg, now)), lo, hi)
    ensures Balanced(World(Cleaned(w.b, now), w.l), lo, hi)
  {
    assert Balanced(w, lo, hi);
    CleaningKeepsWindow(w.b.requestTimes, now - WINDOW, lo, hi);
    var c := Cleaned(w.b, now);
    CountInAppend(c.requestTimes, [now], lo, hi);
    CountInAppend(Times(w.l.admitted), [now], lo, hi);
    TimesAppend(w.l.admitted, Admission(now, RpmLimit(w.b, cfg)));
  }

  /** The limit test bounds the whole window at the moment of admission. */
  lemma AttemptBounded(w: World, cfg: Config, now: real, lo: real)
    requires RequestsValid(w) && now >= w.l.clock && lo >= now - WINDOW
    requires Decide(w.b, cfg, now).Admitted? && RpmLimit(w.b, cfg) > 0
    ensures Bounded(Next(w, Attempt(cfg, now)).l, |w.l.admitted|, lo)
  {
    AttemptBalanced(w, cfg, now, lo, now);
    var l' := Next(w, Attempt(cfg, now)).l;
    assert l'.admitted[..|w.l.admitted| + 1] == l'.admitted;
    TimesAppend(w.l.admitted, Admission(now, RpmLimit(w.b, cfg)));
    CountInAppend(Times(w.l.admitted), [now], lo, now);
    CountInAtMostLength([now], lo, now);
    var c := Cleaned(w.b, now);
    CountInAtMostLength(c.requestTimes, lo, now);
    assert |c.requestTimes| < RpmLimit(w.b, cfg);
    assert CountIn(Times(w.l.admitted), lo, now) <= |c.requestTimes| + CountIn(w.l.trimmed, lo, now);
    assert l'.admitted[|w.l.admitted|] == Admission(now, RpmLimit(w.b, cfg));
  }

  lemma StepKeepsBalance(w: World, step: Step, lo: real, hi: real)
    requires RequestsValid(w) && Enabled(w, step) && lo >= Next(w, step).l.clock - WINDOW
    ensures Balanced(Next(w, step), lo, hi)
  {
    assert Balanced(w, lo, hi);
    match step
    case Attempt(cfg, now) => AttemptBalanced(w, cfg, now, lo, hi);
    case Record(_, _, now) => CleaningKeepsWindow(w.b.requestTimes, now - WINDOW, lo, hi);
    case Record429(cfg, now) =>
      var fill := FillTimes(now, FillCount(w.b, cfg));
      CountInAppend(w.b.requestTimes, fill, lo, hi);
      CountInAppend(w.l.synthetic, fill, lo, hi);
    case Headers(rpm, _, _, remaining) =>
      var times := w.b.requestTimes;
      var n := TrimCount(|times|, Updated(w.b.apiRpmLimit, rpm), remaining);
      assert times == times[..n] + times[n..];
      CountInAppend(times[..n], times[n..], lo, hi);
      CountInAppend(w.l.trimmed, times[..n], lo, hi);
  }

  lemma StepKeepsBounds(w: World, step: Step, k: nat, lo: real)
    requires RequestsValid(w) && Enabled(w, step)
    requires k < |Next(w, step).l.admitted| && Next(w, step).l.admitted[k].limit > 0
    requires lo >= Next(w, step).l.admitted[k].time - WINDOW
    ensures Bounded(Next(w, step).l, k, lo)
  {
    if k < |w.l.admitted| {
      assert Bounded(w.l, k, lo);
      BoundedPersists(w.l, Next(w, step).l, k, lo);
    } else {
      AttemptBounded(w, step.cfg, step.now, lo);
    }
  }

  lemma StepKeepsValid(w: World, step: Step)
    requires Valid(w) && Enabled(w, step)
    ensures Valid(Next(w, step))
  {
    StepKeepsTokens(w, step);
    var w' := Next(w, step);
    forall lo, hi | lo >= w'.l.clock - WINDOW ensures Balanced(w', lo, hi) {
      StepKeepsBalance(w, step, lo, hi);
    }
    forall k, lo | 0 <= k < |w'.l.admitted| && w'.l.admitted[k].limit > 0 && lo >= w'.l.admitted[k].time - WINDOW
      ensures Bounded(w'.l, k, lo)
    {
      StepKeepsBounds(w, step, k, lo);
    }
  }

  lemma {:induction false} RunKeepsValid(w: World, steps: seq<Step>)
    requires Valid(w) && ValidRun(w, steps)
    ensures Valid(Exec(w, steps))
    decreases |steps|
  {
    if |steps| > 0 {
      StepKeepsValid(w, steps[0]);
      RunKeepsValid(Next(w, steps[0]), steps[1..]);
    }
  }

  // ---------- Main results over whole runs ----------

  lemma {:induction false} CountInPrefix(s: seq<real>, n: nat, lo: real, hi: real, hi': real)
    requires n <= |s| && hi <= hi'
    requires forall i :: 0 <= i < n ==> s[i] <= hi
    requires forall i :: n <= i < |s| ==> s[i] > hi'
    ensures CountIn(s, lo, hi') == CountIn(s[..n], lo, hi)
  {
    if |s| > 0 {
      var s' := s[..|s| - 1];
      if n < |s| {
        assert s'[..n] == s[..n];
        CountInPrefix(s', n, lo, hi, hi');
      } else {
        assert s[..n] == s && s'[..n - 1] == s';
        CountInPrefix(s', n - 1, lo, hi, hi');
      }
    }
  }

  lemma {:induction false} CountInWiden(s: seq<real>, lo: real, hi: real, hi': real)
    requires hi <= hi'
    ensures CountIn(s, lo, hi) <= CountIn(s, lo, hi')
  {
    if |s| > 0 { CountInWiden(s[..|s| - 1], lo, hi, hi'); }
  }

  /**
    In any closed 60-second window of any run, the admissions number at most the limit
    the last of them was admitted under, plus the entries of the window a header trim removed.
   */
  lemma WindowSafety(start: real, estimate: nat, steps: seq<Step>, from: real, last: nat)
    requires ValidRun(Init(start, estimate), steps)
    requires var l := Exec(Init(start, estimate), steps).l;
      && last < |l.admitted|
      && from <= l.admitted[last].time <= from + 60.0
      && (forall i :: last < i < |l.admitted| ==> l.admitted[i].time > from + 60.0)
      && l.admitted[last].limit > 0
    ensures var l := Exec(Init(start, estimate), steps).l;
      CountIn(Times(l.admitted), from, from + 60.0)
        <= l.admitted[last].limit + CountIn(l.trimmed, from, from + 60.0)
  {
    RunKeepsValid(Init(start, estimate), steps);
    var l := Exec(Init(start, estimate), steps).l;
    var t := l.admitted[last].time;
    assert Bounded(l, last, from);
    assert Times(l.admitted)[..last + 1] == Times(l.admitted[..last + 1]);
    CountInPrefix(Times(l.admitted), last + 1, from, t, from + WINDOW);
    CountInWiden(l.trimmed, from, t, from + WINDOW);
  }

  /** In every reachable state the token sum an admission test reads is the sum over the filtered full history. */
  lemma TokenWindowIsFilteredHistory(start: real, estimate: nat, steps: seq<Step>, now: real)
    requires ValidRun(Init(start, estimate), steps)
    requires now >= Exec(Init(start, estimate), steps).l.clock
    ensures var w := Exec(Init(start, estimate), steps);
      && Cleaned(w.b, now).tokenEntries == Since(w.l.tokenLog, now - 60.0)
      && SumTokens(w.b.tokenEntries) == SumTokens(Since(w.l.tokenLog, w.l.cleanedTo))
  {
    RunKeepsValid(Init(start, estimate), steps);
    CleanTokensValid(Exec(Init(start, estimate), steps), now);
  }

  /**
    An attempt is admitted exactly when the live windows meet both limits in force, the tokens
    being counted on the full history, and it is logged under the request limit in force.
   */
  lemma AdmissionTest(start: real, estimate: nat, steps: seq<Step>, cfg: Config, now: real)
    requires ValidRun(Init(start, estimate), steps)
    requires now >= Exec(Init(start, estimate), steps).l.clock
    ensures var w := Exec(Init(start, estimate), steps);
      forall rpm, itpm ::
        InForce(w.b.apiRpmLimit, cfg.headroom, cfg.rpm, rpm)
        && InForce(w.b.apiItpmLimit, cfg.headroom, cfg.itpm, itpm) ==>
          Next(w, Attempt(cfg, now)).l.admitted == w.l.admitted +
            if && (rpm <= 0 || |DropExpired(w.b.requestTimes, now - 60.0)| < rpm)
               && (itpm <= 0 || SumTokens(Since(w.l.tokenLog, now - 60.0)) + w.b.nextEstimate <= itpm)
            then [Admission(now, rpm)] else []
  {
    TokenWindowIsFilteredHistory(start, estimate, steps, now);
    AttemptMeaning(Exec(Init(start, estimate), steps), cfg, now);
  }

  /** Whatever limits are in force, the answer is theirs, and an admission is logged under the request limit. */
  ghost predicate AnswersByLimits(b: Bucket, cfg: Config, now: real, d: Decision,
                                  log: seq<Admission>, log': seq<Admission>)
  {
    forall rpm, itpm ::
      InForce(b.apiRpmLimit, cfg.headroom, cfg.rpm, rpm) && InForce(b.apiItpmLimit, cfg.headroom, cfg.itpm, itpm) ==>
        && (d.Admitted? <==> Admits(b, now, rpm, itpm))
        && log' == if d.Admitted? then log + [Admission(now, rpm)] else log
  }

  lemma AttemptMeaning(w: World, cfg: Config, now: real)
    ensures AnswersByLimits(w.b, cfg, now, Decide(w.b, cfg, now), w.l.admitted,
                            Next(w, Attempt(cfg, now)).l.admitted)
  {
    var d, log' := Decide(w.b, cfg, now), Next(w, Attempt(cfg, now)).l.admitted;
    forall rpm, itpm | InForce(w.b.apiRpmLimit, cfg.headroom, cfg.rpm, rpm)
                       && InForce(w.b.apiItpmLimit, cfg.headroom, cfg.itpm, itpm)
      ensures d.Admitted? <==> Admits(w.b, now, rpm, itpm)
      ensures log' == if d.Admitted? then w.l.admitted + [Admission(now, rpm)] else w.l.admitted
    {
      InForceIsEffective(w.b.apiRpmLimit, cfg.headroom, cfg.rpm, rpm);
      InForceIsEffective(w.b.apiItpmLimit, cfg.headroom, cfg.itpm, itpm);
    }
  }

  /**
    Whatever limits are in force and whatever their truncated fractions are: the requests are filled
    up to the target with times a hundredth of a second apart, and one token entry makes up for what
    the sum lacks of its target.
   */
  ghost predicate FillsToTargets(b: Bucket, b': Bucket, cfg: Config, now: real)
  {
    && (forall rpm, target ::
          InForce(b.apiRpmLimit, cfg.headroom, cfg.rpm, rpm) && IsShare(rpm, cfg.fillFraction, target) ==>
            FilledRequests(b.requestTimes, b'.requestTimes, now, if rpm > 0 then target else 0))
    && (forall itpm, target ::
          InForce(b.apiItpmLimit, cfg.headroom, cfg.itpm, itpm) && IsShare(itpm, cfg.fillFraction, target) ==>
            var missing := if itpm > 0 then target - SumTokens(b.tokenEntries) else 0;
            b'.tokenEntries == b.tokenEntries + if missing > 0 then [TokenEntry(now, missing)] else [])
  }

  predicate FilledRequests(times: seq<real>, times': seq<real>, now: real, target: int)
  {
    && times <= times' && |times'| == Max(|times|, target)
    && forall i :: |times| <= i < |times'| ==> times'[i] == now + (i - |times|) as real * 0.01
  }

  lemma RejectionFills(w: World, cfg: Config, now: real)
    ensures FillsToTargets(w.b, Next(w, Record429(cfg, now)).b, cfg, now)
  {
    var b, b' := w.b, Next(w, Record429(cfg, now)).b;
    forall rpm, target |
      InForce(b.apiRpmLimit, cfg.headroom, cfg.rpm, rpm) && IsShare(rpm, cfg.fillFraction, target)
      ensures FilledRequests(b.requestTimes, b'.requestTimes, now, if rpm > 0 then target else 0)
    {
      InForceIsEffective(b.apiRpmLimit, cfg.headroom, cfg.rpm, rpm);
      ShareIsScale(rpm, cfg.fillFraction, target);
    }
    forall itpm, target |
      InForce(b.apiItpmLimit, cfg.headroom, cfg.itpm, itpm) && IsShare(itpm, cfg.fillFraction, target)
      ensures var missing := if itpm > 0 then target - SumTokens(b.tokenEntries) else 0;
        b'.tokenEntries == b.tokenEntries + if missing > 0 then [TokenEntry(now, missing)] else []
    {
      InForceIsEffective(b.apiItpmLimit, cfg.headroom, cfg.itpm, itpm);
      ShareIsScale(itpm, cfg.fillFraction, target);
    }
  }

  // ---------- The computed wait ----------

  lemma {:induction false} SumTokensAppend(a: seq<TokenEntry>, b: seq<TokenEntry>)
    ensures SumTokens(a + b) == SumTokens(a) + SumTokens(b)
    ensures |b| == 1 ==> SumTokens(b) == b[0].tokens
  {
    if |b| == 0 {
      assert a + b == a;
    } else {
      assert (a + b)[..|a + b| - 1] == a + b[..|b| - 1];
      SumTokensAppend(a, b[..|b| - 1]);
    }
  }

  /**
    The scan stops at the first entry whose prefix sum reaches the target, and fails exactly when
    the whole sum does not.
   */
  lemma {:induction false} ReachTimeMeaning(s: seq<TokenEntry>, seen: int, needed: int) returns (k: nat)
    requires seen < needed
    ensures k <= |s| && seen + SumTokens(s[..k]) < needed
    ensures k < |s| ==> ReachTime(s, seen, needed) == Some(s[k].time) && seen + SumTokens(s[..k + 1]) >= needed
    ensures k == |s| ==> ReachTime(s, seen, needed) == None
  {
    if |s| == 0 {
      k := 0;
    } else {
      assert SumTokens([s[0]]) == s[0].tokens by { assert [s[0]][..0] == []; }
      if seen + s[0].tokens >= needed {
        k := 0;
        assert s[..1] == [s[0]];
      } else {
        var k' := ReachTimeMeaning(s[1..], seen + s[0].tokens, needed);
        k := k' + 1;
        assert s[..k] == [s[0]] + s[1..][..k'];
        SumTokensAppend([s[0]], s[1..][..k']);
        if k < |s| {
          assert s[..k + 1] == [s[0]] + s[1..][..k' + 1];
          SumTokensAppend([s[0]], s[1..][..k' + 1]);
        }
      }
    }
  }

  lemma SumTokensSplit(s: seq<TokenEntry>, k: nat)
    requires k <= |s|
    ensures SumTokens(s) == SumTokens(s[..k]) + SumTokens(s[k..])
  {
    assert s == s[..k] + s[k..];
    SumTokensAppend(s[..k], s[k..]);
  }

  lemma SumTokensPrefixMonotone(s: seq<TokenEntry>, j: nat, k: nat)
    requires j <= k <= |s|
    ensures SumTokens(s[..j]) <= SumTokens(s[..k])
  {
    assert s[..k][..j] == s[..j];
    SumTokensSplit(s[..k], j);
  }

  /** After a rejected attempt, the token test passes at `later` exactly when the scanned entry has expired by then. */
  lemma ItpmRecheck(c: Bucket, cfg: Config, now: real, later: real)
    requires TokensSorted(c.tokenEntries) && !ItpmOk(c, cfg) && later >= now
    ensures later >= now + ItpmWait(c, cfg, now) && c.nextEstimate <= ItpmLimit(c, cfg)
      ==> ItpmOk(Cleaned(c, later), cfg)
    ensures later <= now + ItpmWait(c, cfg, now) - SLACK ==> !ItpmOk(Cleaned(c, later), cfg)
    ensures c.nextEstimate > ItpmLimit(c, cfg) ==> !ItpmOk(Cleaned(c, later), cfg)
  {
    var s, needed := c.tokenEntries, TokensNeeded(c, cfg);
    var k := ReachTimeMeaning(s, 0, needed);
    var dropped := DropTokensIsPrefix(s, later - WINDOW);
    SumTokensSplit(s, dropped);
    assert s[..|s|] == s;
    if later >= now + ItpmWait(c, cfg, now) && c.nextEstimate <= ItpmLimit(c, cfg) {
      assert k < |s|;
      assert s[k].time < later - WINDOW;
      assert dropped < |s| ==> s[k].time < s[dropped].time;
      SumTokensPrefixMonotone(s, k + 1, dropped);
    }
    if later <= now + ItpmWait(c, cfg, now) - SLACK {
      assert k < |s|;
      SumTokensPrefixMonotone(s, dropped, k);
    }
  }

  lemma RpmRecheck(c: Bucket, cfg: Config, now: real, later: real)
    requires !RpmOk(c, cfg) && later >= now
    ensures later >= now + RpmWait(c, cfg, now) && |c.requestTimes| <= RpmLimit(c, cfg)
      ==> RpmOk(Cleaned(c, later), cfg)
    ensures later <= now + RpmWait(c, cfg, now) - SLACK ==> !RpmOk(Cleaned(c, later), cfg)
  {
    var k := DropExpiredIsPrefix(c.requestTimes, later - WINDOW);
  }

  /** Cleaning again at a later time cannot turn a passing test into a failing one. */
  lemma TestsStayOk(c: Bucket, cfg: Config, later: real)
    ensures RpmOk(c, cfg) ==> RpmOk(Cleaned(c, later), cfg)
    ensures ItpmOk(c, cfg) ==> ItpmOk(Cleaned(c, later), cfg)
  {
    var k := DropExpiredIsPrefix(c.requestTimes, later - WINDOW);
    var j := DropTokensIsPrefix(c.tokenEntries, later - WINDOW);
    SumTokensSplit(c.tokenEntries, j);
  }

  lemma {:induction false} DropTwice(times: seq<real>, from: real, from': real)
    requires from <= from'
    ensures DropExpired(DropExpired(times, from), from') == DropExpired(times, from')
  {
    if |times| > 0 && times[0] < from { DropTwice(times[1..], from, from'); }
  }

  lemma {:induction false} DropTokensTwice(entries: seq<TokenEntry>, from: real, from': real)
    requires from <= from'
    ensures DropExpiredTokens(DropExpiredTokens(entries, from), from') == DropExpiredTokens(entries, from')
  {
    if |entries| > 0 && entries[0].time < from { DropTokensTwice(entries[1..], from, from'); }
  }

  /** A bucket that only cleaned its windows decides later as if it had not. */
  lemma CleaningTwice(b: Bucket, cfg: Config, now: real, later: real)
    requires now <= later
    ensures Cleaned(Cleaned(b, now), later) == Cleaned(b, later)
    ensures Decide(Cleaned(b, now), cfg, later) == Decide(b, cfg, later)
  {
    DropTwice(b.requestTimes, now - WINDOW, later - WINDOW);
    DropTokensTwice(b.tokenEntries, now - WINDOW, later - WINDOW);
  }

  /** The stored requests are within the limit. */
  predicate Fits(b: Bucket, cfg: Config)
  {
    RpmLimit(b, cfg) > 0 ==> |b.requestTimes| <= RpmLimit(b, cfg)
  }

  predicate EstimateFits(b: Bucket, cfg: Config)
  {
    ItpmLimit(b, cfg) <= 0 || b.nextEstimate <= ItpmLimit(b, cfg)
  }

  predicate Unlimited(b: Bucket, cfg: Config)
  {
    RpmLimit(b, cfg) <= 0 && ItpmLimit(b, cfg) <= 0
  }

  /** At `later` fewer requests than the limit allows are still stored. */
  predicate RoomAt(b: Bucket, cfg: Config, later: real)
  {
    RpmLimit(b, cfg) <= 0 || |DropExpired(b.requestTimes, later - WINDOW)| < RpmLimit(b, cfg)
  }

  /**
    With fixed limits and no interference, a re-check after the wait admits if and only if the
    estimate fits the token limit at all and by then few enough stored requests remain.
   */
  lemma WaitIsExact(b: Bucket, cfg: Config, now: real, later: real)
    requires TokensSorted(b.tokenEntries) && Decide(b, cfg, now).Wait?
    requires later >= now + Decide(b, cfg, now).seconds
    ensures Decide(Cleaned(b, now), cfg, later).Admitted? <==> EstimateFits(b, cfg) && RoomAt(b, cfg, later)
  {
    var c := Cleaned(b, now);
    var k := DropTokensIsPrefix(b.tokenEntries, now - WINDOW);
    CleaningTwice(b, cfg, now, later);
    TestsStayOk(c, cfg, later);
    if !ItpmOk(c, cfg) { ItpmRecheck(c, cfg, now, later); }
  }

  lemma FitLeavesRoom(b: Bucket, cfg: Config, now: real, later: real)
    requires Decide(b, cfg, now).Wait? && Fits(b, cfg)
    requires later >= now + Decide(b, cfg, now).seconds
    ensures RoomAt(b, cfg, later)
  {
    var c := Cleaned(b, now);
    var j := DropExpiredIsPrefix(b.requestTimes, now - WINDOW);
    CleaningTwice(b, cfg, now, later);
    TestsStayOk(c, cfg, later);
    if !RpmOk(c, cfg) { RpmRecheck(c, cfg, now, later); }
  }

  /**
    With the stored requests within the limit, one re-check after the wait admits if and only if
    the estimate fits the token limit.
   */
  lemma WaitSuffices(b: Bucket, cfg: Config, now: real, later: real)
    requires TokensSorted(b.tokenEntries) && Decide(b, cfg, now).Wait?
    requires Fits(b, cfg)
    requires later >= now + Decide(b, cfg, now).seconds
    ensures Decide(Cleaned(b, now), cfg, later).Admitted? <==> EstimateFits(b, cfg)
  {
    WaitIsExact(b, cfg, now, later);
    FitLeavesRoom(b, cfg, now, later);
  }

  /** The passes that ended in a wait, each with the wait the bucket computes at that time. */
  predicate Waited(b: Bucket, cfg: Config, deadline: real, wakes: seq<Wake>, waits: seq<real>)
  {
    && |waits| <= |wakes|
    && forall i :: 0 <= i < |waits| ==> wakes[i].Proceeds(deadline) && Decide(b, cfg, wakes[i].now) == Wait(waits[i])
  }

  /** The next pass starts no earlier than the wait of pass `i` asked for. */
  predicate SleptThrough(wakes: seq<Wake>, waits: seq<real>, i: int)
  {
    0 <= i < |waits| && i + 1 < |wakes| && wakes[i + 1].now >= wakes[i].now + waits[i]
  }

  /** When everything fits, a wait that was slept through is the last one. */
  lemma OneWaitIsEnough(b: Bucket, cfg: Config, deadline: real, wakes: seq<Wake>, waits: seq<real>)
    requires TokensSorted(b.tokenEntries) && Waited(b, cfg, deadline, wakes, waits)
    ensures Fits(b, cfg) && EstimateFits(b, cfg) ==> forall i :: SleptThrough(wakes, waits, i) ==> |waits| == i + 1
  {
    forall i | SleptThrough(wakes, waits, i) && Fits(b, cfg) && EstimateFits(b, cfg) ensures |waits| == i + 1 {
      var now, later := wakes[i].now, wakes[i + 1].now;
      WaitSuffices(b, cfg, now, later);
      CleaningTwice(b, cfg, now, later);
    }
  }

  /** Three calls are admitted, and then a header lowers the limit to one and reports no remainder. */
  function LoweredRun(cfg: Config): seq<Step>
  {
    [Attempt(cfg, 0.0), Attempt(cfg, 50.0), Attempt(cfg, 51.0), Headers(Some(1), None, None, None)]
  }

  lemma LoweredRunReaches(start: World, cfg: Config)
    requires start == Init(0.0, 0) && cfg == Config(1.0, 3, 0, 0.0)
    ensures ValidRun(start, LoweredRun(cfg))
    ensures Exec(start, LoweredRun(cfg)).b == Bucket([0.0, 50.0, 51.0], [], 0, Some(1), None)
  {
    var w1 := Next(start, Attempt(cfg, 0.0));
    assert w1.b == Bucket([0.0], [], 0, None, None);
    var w2 := Next(w1, Attempt(cfg, 50.0));
    assert w2.b == Bucket([0.0, 50.0], [], 0, None, None);
    var w3 := Next(w2, Attempt(cfg, 51.0));
    assert w3.b == Bucket([0.0, 50.0, 51.0], [], 0, None, None);
    var steps := LoweredRun(cfg);
    assert steps[1..][1..] == steps[2..] && steps[2..][1..] == steps[3..] && steps[3..][1..] == [];
    assert Exec(w3, steps[3..]) == Next(w3, steps[3]);
    assert Exec(w2, steps[2..]) == Exec(w3, steps[3..]);
    assert Exec(w1, steps[1..]) == Exec(w2, steps[2..]);
    assert ValidRun(w3, steps[3..]);
    assert ValidRun(w2, steps[2..]);
    assert ValidRun(w1, steps[1..]);
  }

  /** More requests are then stored than the limit allows, and a wait computed at that point is not enough. */
  lemma LoweredLimitWaitsAgain(start: World, cfg: Config)
    requires start == Init(0.0, 0) && cfg == Config(1.0, 3, 0, 0.0)
    ensures var b := Exec(start, LoweredRun(cfg)).b;
      && ValidRun(start, LoweredRun(cfg)) && !Fits(b, cfg)
      && Decide(b, cfg, 55.0) == Wait(5.1)
      && Decide(Cleaned(b, 55.0), cfg, 60.1).Wait?
  {
    LoweredRunReaches(start, cfg);
    var b := Bucket([0.0, 50.0, 51.0], [], 0, Some(1), None);
    assert RpmLimit(b, cfg) == 1 && ItpmLimit(b, cfg) == 0;
    assert Cleaned(b, 55.0) == b;
    assert Decide(b, cfg, 55.0) == Wait(5.1);
    assert b.requestTimes[1..] == [50.0, 51.0];
    assert DropExpired(b.requestTimes, 60.1 - WINDOW) == [50.0, 51.0];
    WaitIsExact(b, cfg, 55.0, 60.1);
  }

  /** The wait is tight: no re-check up to the slack before the larger expiry wait can be admitted. */
  lemma WaitIsTight(b: Bucket, cfg: Config, now: real, later: real)
    requires TokensSorted(b.tokenEntries) && Decide(b, cfg, now).Wait?
    requires now <= later <= now + ExpiryWait(Cleaned(b, now), cfg, now) - SLACK
    ensures Decide(Cleaned(b, now), cfg, later).Wait?
  {
    var c := Cleaned(b, now);
    var k := DropTokensIsPrefix(b.tokenEntries, now - WINDOW);
    if !RpmOk(c, cfg) { RpmRecheck(c, cfg, now, later); }
    if !ItpmOk(c, cfg) { ItpmRecheck(c, cfg, now, later); }
  }

  /** The wait is at least a second, and a longer one is tight to a tenth of a second. */
  lemma WaitIsNoLonger(b: Bucket, cfg: Config, now: real, later: real)
    requires TokensSorted(b.tokenEntries) && Decide(b, cfg, now).Wait?
    ensures Decide(b, cfg, now).seconds >= 1.0
    ensures Decide(b, cfg, now).seconds > 1.0 && now <= later <= now + Decide(b, cfg, now).seconds - 0.1 ==>
      Decide(Cleaned(b, now), cfg, later).Wait?
  {
    if Decide(b, cfg, now).seconds > 1.0 && now <= later <= now + Decide(b, cfg, now).seconds - 0.1 {
      WaitIsTight(b, cfg, now, later);
    }
  }

  /** Under one fixed limit, attempts, token records and trims keep the stored requests within it. */
  lemma StoredWithinLimit(w: World, step: Step, cfg: Config)
    requires RpmLimit(w.b, cfg) > 0 && |w.b.requestTimes| <= RpmLimit(w.b, cfg)
    requires step.Attempt? ==> step.cfg == cfg
    requires !step.Record429?
    ensures |Next(w, step).b.requestTimes| <= RpmLimit(w.b, cfg)
  {
    if !step.Headers? {
      var k := DropExpiredIsPrefix(w.b.requestTimes, step.now - WINDOW);
    }
  }

  /** A 429 fill keeps the stored requests within the limit exactly when the fill target is within it. */
  lemma FillWithinLimit(w: World, cfg: Config, now: real)
    requires RpmLimit(w.b, cfg) > 0 && |w.b.requestTimes| <= RpmLimit(w.b, cfg)
    ensures |Next(w, Record429(cfg, now)).b.requestTimes| <= RpmLimit(w.b, cfg)
      <==> Scale(RpmLimit(w.b, cfg), cfg.fillFraction) <= RpmLimit(w.b, cfg)
  {
    assert |Next(w, Record429(cfg, now)).b.requestTimes| == |w.b.requestTimes| + FillCount(w.b, cfg);
  }

  /** A fill fraction in the documented range 0.0 to 1.0 meets the condition above. */
  lemma FillFractionInRange(limit: int, fraction: real)
    requires limit > 0 && 0.0 <= fraction <= 1.0
    ensures 0 <= Scale(limit, fraction) <= limit
  {
    var whole := limit as real;
    assert whole * fraction >= 0.0 && whole * (1.0 - fraction) >= 0.0;
    assert whole * (1.0 - fraction) == whole - whole * fraction;
  }

  /** What a step must do for the stored requests to stay within the limit. */
  predicate KeepsFit(b: Bucket, step: Step, cfg: Config)
  {
    match step
    case Attempt(c, _) => c == cfg
    case Record(_, _, _) => true
    case Record429(c, _) =>
      c == cfg && (RpmLimit(b, cfg) > 0 ==> Scale(RpmLimit(b, cfg), cfg.fillFraction) <= RpmLimit(b, cfg))
    case Headers(rpm, _, _, remaining) =>
      var api := Updated(b.apiRpmLimit, rpm);
      var limit := EffectiveLimit(api, cfg.headroom, cfg.rpm);
      limit > 0 ==> |b.requestTimes| - TrimCount(|b.requestTimes|, api, remaining) <= limit
  }

  /** Under one configuration the condition is exact for every step. */
  lemma StepFits(w: World, step: Step, cfg: Config)
    requires Fits(w.b, cfg)
    requires step.Attempt? || step.Record429? ==> step.cfg == cfg
    ensures Fits(Next(w, step).b, cfg) <==> KeepsFit(w.b, step, cfg)
  {
    if RpmLimit(w.b, cfg) > 0 {
      if step.Record429? {
        FillWithinLimit(w, cfg, step.now);
      } else {
        StoredWithinLimit(w, step, cfg);
      }
    }
  }

  predicate KeepsFits(w: World, steps: seq<Step>, cfg: Config)
    decreases |steps|
  {
    |steps| == 0 || (KeepsFit(w.b, steps[0], cfg) && KeepsFits(Next(w, steps[0]), steps[1..], cfg))
  }

  lemma {:induction false} RunFits(w: World, steps: seq<Step>, cfg: Config)
    requires Fits(w.b, cfg) && KeepsFits(w, steps, cfg)
    ensures Fits(Exec(w, steps).b, cfg)
    decreases |steps|
  {
    if |steps| > 0 {
      StepFits(w, steps[0], cfg);
      RunFits(Next(w, steps[0]), steps[1..], cfg);
    }
  }

  /** A header that reports a limit no lower than before, or none, meets the condition. */
  lemma UnloweredLimitKeepsFit(b: Bucket, step: Step, cfg: Config)
    requires Fits(b, cfg) && step.Headers?
    requires EffectiveLimit(Updated(b.apiRpmLimit, step.rpm), cfg.headroom, cfg.rpm) >= RpmLimit(b, cfg) > 0
    ensures KeepsFit(b, step, cfg)
  {}

  /**
    In every run from any valid state, whatever limits headers report and whatever lies between:
    a re-check after a computed wait admits exactly when the estimate fits the token limit and few
    enough stored requests remain by then, and no re-check before the expiry does.  The second
    condition always holds if the run kept the stored requests within the limits in force.
   */
  lemma WaitIsExactInRuns(w: World, steps: seq<Step>, cfg: Config, now: real, later: real)
    requires Valid(w) && ValidRun(w, steps)
    requires Decide(Exec(w, steps).b, cfg, now).Wait? && later >= now
    ensures var b := Exec(w, steps).b;
      later >= now + Decide(b, cfg, now).seconds ==>
        (Decide(Cleaned(b, now), cfg, later).Admitted? <==> EstimateFits(b, cfg) && RoomAt(b, cfg, later))
    ensures var wait := Decide(Exec(w, steps).b, cfg, now).seconds;
      wait >= 1.0
      && (wait > 1.0 && later <= now + wait - 0.1 ==> Decide(Cleaned(Exec(w, steps).b, now), cfg, later).Wait?)
    ensures var b := Exec(w, steps).b;
      Fits(w.b, cfg) && KeepsFits(w, steps, cfg) && later >= now + Decide(b, cfg, now).seconds ==>
        RoomAt(b, cfg, later)
  {
    RunKeepsValid(w, steps);
    var w' := Exec(w, steps);
    SinceSorted(w'.l.tokenLog, w'.l.cleanedTo);
    if later >= now + Decide(w'.b, cfg, now).seconds {
      WaitIsExact(w'.b, cfg, now, later);
      if Fits(w.b, cfg) && KeepsFits(w, steps, cfg) {
        RunFits(w, steps, cfg);
        FitLeavesRoom(w'.b, cfg, now, later);
      }
    }
    WaitIsNoLonger(w'.b, cfg, now, later);
  }

  // ---------- What headers change ----------

  /** A reported limit replaces the stored one; of two token limits the stored one is neither's excess. */
  predicate TakesLimits(b: Bucket, b': Bucket, rpm: Option<int>, itpm: Option<int>, priority: Option<int>)
  {
    && b'.apiRpmLimit == (if rpm.Some? then rpm else b.apiRpmLimit)
    && (itpm.None? && priority.None? ==> b'.apiItpmLimit == b.apiItpmLimit)
    && (itpm.Some? || priority.Some? ==>
          && b'.apiItpmLimit.Some? && (b'.apiItpmLimit == itpm || b'.apiItpmLimit == priority)
          && (itpm.Some? ==> b'.apiItpmLimit.value <= itpm.value)
          && (priority.Some? ==> b'.apiItpmLimit.value <= priority.value))
  }

  /** With more than two requests too many, exactly the newest limit-minus-remaining ones are left. */
  predicate TrimsRequests(times: seq<real>, times': seq<real>, limit: Option<int>, remaining: Option<int>)
  {
    var n := |times|;
    if limit.Some? && remaining.Some? && n > limit.value - remaining.value + 2
    then times' == times[n - (if limit.value > remaining.value then limit.value - remaining.value else 0)..]
    else times' == times
  }

  // ---------- The bucket ----------

  class ModelBucket {
    var requestTimes: seq<real>
    var tokenEntries: seq<TokenEntry>
    var nextEstimate: int
    var apiRpmLimit: Option<int>
    var apiItpmLimit: Option<int>
    ghost var ledger: Ledger

    function Snapshot(): Bucket
      reads this
    {
      Bucket(requestTimes, tokenEntries, nextEstimate, apiRpmLimit, apiItpmLimit)
    }

    ghost function State(): World
      reads this
    {
      World(Snapshot(), ledger)
    }

    constructor (start: real)
      ensures State() == Init(start, 1000) && Valid(State())
      ensures requestTimes == [] && tokenEntries == [] && nextEstimate == 1000
      ensures apiRpmLimit == None && apiItpmLimit == None
    {
      requestTimes, tokenEntries, nextEstimate := [], [], 1000;
      apiRpmLimit, apiItpmLimit := None, None;
      ledger := Init(start, 1000).l;
    }

    method CleanWindows(now: real)
      modifies this`requestTimes, this`tokenEntries
      ensures Snapshot() == Cleaned(old(Snapshot()), now)
    {
      var windowStart := now - WINDOW;
      while |requestTimes| > 0 && requestTimes[0] < windowStart
        invariant DropExpired(requestTimes, windowStart) == DropExpired(old(requestTimes), windowStart)
        invariant tokenEntries == old(tokenEntries)
        decreases |requestTimes|
      {
        requestTimes := requestTimes[1..];
      }
      while |tokenEntries| > 0 && tokenEntries[0].time < windowStart
        invariant requestTimes == DropExpired(old(requestTimes), windowStart)
        invariant DropExpiredTokens(tokenEntries, windowStart) == DropExpiredTokens(old(tokenEntries), windowStart)
        decreases |tokenEntries|
      {
        tokenEntries := tokenEntries[1..];
      }
    }

    method CurrentItpm() returns (total: nat)
      ensures total == SumTokens(tokenEntries)
    {
      total := 0;
      for i := 0 to |tokenEntries|
        invariant total == SumTokens(tokenEntries[..i])
      {
        assert tokenEntries[..i + 1][..i] == tokenEntries[..i];
        total := total + tokenEntries[i].tokens;
      }
      assert tokenEntries[..|tokenEntries|] == tokenEntries;
    }

    /** The loop over the token entries that finds when enough tokens will have expired. */
    method ScanTokens(needed: int) returns (reached: Option<real>)
      ensures reached == ReachTime(tokenEntries, 0, needed)
    {
      var accumulated := 0;
      for i := 0 to |tokenEntries|
        invariant ReachTime(tokenEntries[i..], accumulated, needed) == ReachTime(tokenEntries, 0, needed)
      {
        assert tokenEntries[i..][1..] == tokenEntries[i + 1..];
        accumulated := accumulated + tokenEntries[i].tokens;
        if accumulated >= needed {
          return Some(tokenEntries[i].time);
        }
      }
      return None;
    }

    /** The locked section of one pass of `acquire`. */
    method AttemptAcquire(cfg: Config, now: real) returns (d: Decision)
      requires Valid(State()) && now >= ledger.clock
      modifies this
      ensures d == Decide(old(Snapshot()), cfg, now)
      ensures State() == Next(old(State()), Attempt(cfg, now)) && Valid(State())
      ensures AnswersByLimits(old(Snapshot()), cfg, now, d, old(ledger.admitted), ledger.admitted)
      ensures d.Wait? ==> d.seconds >= 1.0
    {
      StepKeepsValid(State(), Attempt(cfg, now));
      AttemptMeaning(State(), cfg, now);
      ghost var after := Next(State(), Attempt(cfg, now));
      var rpm := EffectiveLimit(apiRpmLimit, cfg.headroom, cfg.rpm);
      var itpm := EffectiveLimit(apiItpmLimit, cfg.headroom, cfg.itpm);
      CleanWindows(now);
      ledger := after.l;
      var current := CurrentItpm();
      var rpmOk := rpm <= 0 || |requestTimes| < rpm;
      var itpmOk := itpm <= 0 || current + nextEstimate <= itpm;
      if rpmOk && itpmOk {
        requestTimes := requestTimes + [now];
        return Admitted;
      }
      var wait := 0.0;
      if !rpmOk && |requestTimes| > 0 {
        wait := MaxReal(wait, requestTimes[0] + WINDOW - now + SLACK);
      }
      if !itpmOk && |tokenEntries| > 0 {
        var reached := ScanTokens(current + nextEstimate - itpm);
        if reached.Some? {
          wait := MaxReal(wait, reached.value + WINDOW - now + SLACK);
        }
      }
      return Wait(MaxReal(wait, MIN_WAIT));
    }

    /**
      The retry loop, without interference from other callers, and the waits it computes.  None
      means that the given passes ended while the caller was still waiting.
     */
    method Acquire(cfg: Config, deadline: real, wakes: seq<Wake>) returns (r: Option<bool>, waits: seq<real>)
      requires Valid(State())
      requires forall i :: 0 <= i < |wakes| ==> wakes[i].now >= ledger.clock
      requires forall i, j :: 0 <= i <= j < |wakes| ==> wakes[i].now <= wakes[j].now
      modifies this
      ensures Valid(State())
      ensures old(Unlimited(Snapshot(), cfg)) ==> r == Some(true) && State() == old(State()) && waits == []
      ensures old(!Unlimited(Snapshot(), cfg)) ==>
        && Waited(old(Snapshot()), cfg, deadline, wakes, waits)
        && (r == None <==> |waits| == |wakes|)
        && (r == Some(false) ==> !wakes[|waits|].Proceeds(deadline) && ledger.admitted == old(ledger.admitted))
        && (r == Some(true) ==>
              var now := wakes[|waits|].now;
              && wakes[|waits|].Proceeds(deadline) && Decide(old(Snapshot()), cfg, now).Admitted?
              && ledger.admitted == old(ledger.admitted) + [Admission(now, old(RpmLimit(Snapshot(), cfg)))])
        && (r == None ==> ledger.admitted == old(ledger.admitted))
      ensures old(!Unlimited(Snapshot(), cfg) && Fits(Snapshot(), cfg) && EstimateFits(Snapshot(), cfg)) ==>
        forall i :: SleptThrough(wakes, waits, i) ==> |waits| == i + 1
    {
      waits := [];
      var rpm := EffectiveLimit(apiRpmLimit, cfg.headroom, cfg.rpm);
      var itpm := EffectiveLimit(apiItpmLimit, cfg.headroom, cfg.itpm);
      if rpm <= 0 && itpm <= 0 {
        return Some(true), [];
      }
      ghost var before := Snapshot();
      SinceSorted(ledger.tokenLog, ledger.cleanedTo);
      for i := 0 to |wakes|
        invariant Valid(State()) && ledger.admitted == old(ledger.admitted)
        invariant forall k :: i <= k < |wakes| ==> wakes[k].now >= ledger.clock
        invariant |waits| == i && Snapshot() == if i == 0 then before else Cleaned(before, wakes[i - 1].now)
        invariant Waited(before, cfg, deadline, wakes, waits)
      {
        OneWaitIsEnough(before, cfg, deadline, wakes, waits);
        if wakes[i].shutdown || wakes[i].now >= deadline {
          return Some(false), waits;
        }
        if i > 0 { CleaningTwice(before, cfg, wakes[i - 1].now, wakes[i].now); }
        var d := AttemptAcquire(cfg, wakes[i].now);
        if d.Admitted? {
          return Some(true), waits;
        }
        waits := waits + [d.seconds];
      }
      OneWaitIsEnough(before, cfg, deadline, wakes, waits);
      return None, waits;
    }

    /** `estimate` stands for the rounded moving average the program computes. */
    method RecordTokens(tokens: nat, estimate: nat, now: real)
      requires Valid(State()) && now >= ledger.clock
      modifies this
      ensures State() == Next(old(State()), Record(tokens, estimate, now)) && Valid(State())
      ensures ledger.tokenLog == old(ledger.tokenLog) + [TokenEntry(now, tokens)] && nextEstimate == estimate
      ensures ledger.cleanedTo == now - 60.0
    {
      StepKeepsValid(State(), Record(tokens, estimate, now));
      ledger := Next(State(), Record(tokens, estimate, now)).l;
      tokenEntries := tokenEntries + [TokenEntry(now, tokens)];
      nextEstimate := estimate;
      CleanWindows(now);
    }

    method FillRequests(fill: nat, now: real)
      modifies this`requestTimes
      ensures requestTimes == old(requestTimes) + FillTimes(now, fill)
    {
      for i := 0 to fill
        invariant requestTimes == old(requestTimes) + FillTimes(now, i)
      {
        requestTimes := requestTimes + [now + i as real * FILL_SPACING];
      }
    }

    method RecordRejection(cfg: Config, now: real)
      requires Valid(State()) && now >= ledger.clock
      modifies this
      ensures State() == Next(old(State()), Record429(cfg, now)) && Valid(State())
    {
      StepKeepsValid(State(), Record429(cfg, now));
      ledger := Next(State(), Record429(cfg, now)).l;
      var rpm := EffectiveLimit(apiRpmLimit, cfg.headroom, cfg.rpm);
      if rpm > 0 {
        FillRequests(Max(0, Scale(rpm, cfg.fillFraction) - |requestTimes|), now);
      }
      var itpm := EffectiveLimit(apiItpmLimit, cfg.headroom, cfg.itpm);
      if itpm > 0 {
        var current := CurrentItpm();
        var synthetic := Max(0, Scale(itpm, cfg.fillFraction) - current);
        if synthetic > 0 {
          tokenEntries := tokenEntries + [TokenEntry(now, synthetic)];
        }
      }
      assert tokenEntries == old(tokenEntries) + FillEntry(old(Snapshot()), cfg, now);
      assert requestTimes == old(requestTimes) + FillTimes(now, FillCount(old(Snapshot()), cfg));
    }

    /** Header values are None when the header is absent or not an integer. */
    method UpdateFromHeaders(rpm: Option<int>, itpm: Option<int>, priority: Option<int>, remaining: Option<int>)
      requires Valid(State())
      modifies this
      ensures State() == Next(old(State()), Headers(rpm, itpm, priority, remaining)) && Valid(State())
      ensures TakesLimits(old(Snapshot()), Snapshot(), rpm, itpm, priority)
      ensures TrimsRequests(old(requestTimes), requestTimes, apiRpmLimit, remaining)
      ensures tokenEntries == old(tokenEntries) && nextEstimate == old(nextEstimate)
    {
      StepKeepsValid(State(), Headers(rpm, itpm, priority, remaining));
      ghost var after := Next(State(), Headers(rpm, itpm, priority, remaining));
      ApplyHeaders(rpm, itpm, priority, remaining);
      ledger := after.l;
      assert State() == after;
    }

    method ApplyHeaders(rpm: Option<int>, itpm: Option<int>, priority: Option<int>, remaining: Option<int>)
      modifies this`apiRpmLimit, this`apiItpmLimit, this`requestTimes
      ensures Snapshot() == WithHeaders(old(Snapshot()), rpm, itpm, priority, remaining)
      ensures TakesLimits(old(Snapshot()), Snapshot(), rpm, itpm, priority)
      ensures TrimsRequests(old(requestTimes), requestTimes, apiRpmLimit, remaining)
    {
      if rpm.Some? {
        apiRpmLimit := rpm;
      }
      if itpm.Some? && priority.Some? {
        apiItpmLimit := Some(Min(itpm.value, priority.value));
      } else if itpm.Some? {
        apiItpmLimit := itpm;
      } else if priority.Some? {
        apiItpmLimit := priority;
      }
      TrimToReported(remaining);
    }

    method TrimToReported(remaining: Option<int>)
      modifies this`requestTimes
      ensures requestTimes == old(requestTimes)[TrimCount(|old(requestTimes)|, apiRpmLimit, remaining)..]
      ensures TrimsRequests(old(requestTimes), requestTimes, apiRpmLimit, remaining)
    {
      if remaining.Some? && apiRpmLimit.Some? {
        var used := apiRpmLimit.value - remaining.value;
        if |requestTimes| > used + 2 {
          TrimOldest(|requestTimes| - used);
        }
      }
    }

    method TrimOldest(trim: nat)
      modifies this`requestTimes
      ensures requestTimes == old(requestTimes)[Min(trim, |old(requestTimes)|)..]
    {
      for i := 0 to trim
        invariant requestTimes == old(requestTimes)[Min(i, |old(requestTimes)|)..]
      {
        if |requestTimes| > 0 {
          requestTimes := requestTimes[1..];
        }
      }
    }
  }
}
