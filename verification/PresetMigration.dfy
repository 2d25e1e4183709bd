/**
  The `model_policies` table and the arcs that point into it: the migration that
  collapses duplicate preset rows, and the seeding of presets on every start.
 */
module PresetMigration {
  import opened Common

  datatype Policy = Policy(
    name: Option<string>,
    model: Option<string>,
    agentRole: Option<string>,
    temperature: Option<real>,
    maxTokens: Option<int>,
    body: Option<string>,
    createdAt: int)

  type Rows = map<int, Policy>

  /** Each arc's policy pointer; None is SQL NULL. */
  type Arcs = map<int, Option<int>>

  datatype Preset = Preset(name: string, body: Option<string>)

  /** A named, selector-based policy with no per-call override. */
  predicate IsPreset(p: Policy)
  {
    p.name.Some? && p.body.Some? && p.model.None? && p.agentRole.None? && p.temperature.None? && p.maxTokens.None?
  }

  /** Two preset rows of the same (name, body) group. */
  predicate SameKey(p: Policy, q: Policy)
  {
    IsPreset(p) && IsPreset(q) && p.name == q.name && p.body == q.body
  }

  predicate SameContents(p: Policy, q: Policy)
  {
    p.(createdAt := 0) == q.(createdAt := 0)
  }

  function Peers(rows: Rows, id: int): set<int>
    requires id in rows
  {
    set j | j in rows && SameKey(rows[j], rows[id])
  }

  ghost function MinOf(s: set<int>): (m: int)
    requires s != {}
    ensures m in s && forall x :: x in s ==> m <= x
  {
    NonEmpty(s);
    var x :| x in s;
    if s == {x} then x
    else
      assert s == {x} + (s - {x});
      Min(x, MinOf(s - {x}))
  }

  /** The row kept in place of `id`: the lowest id of its group, or `id` itself outside the preset rows. */
  ghost function Survivor(rows: Rows, id: int): int
  {
    if id in rows && IsPreset(rows[id]) then
      assert id in Peers(rows, id);
      MinOf(Peers(rows, id))
    else id
  }

  ghost function Deduped(rows: Rows): Rows
  {
    map id | id in rows && Survivor(rows, id) == id :: rows[id]
  }

  ghost function Moved(rows: Rows, pointer: Option<int>): Option<int>
  {
    if pointer.Some? then Some(Survivor(rows, pointer.value)) else None
  }

  ghost function Repointed(rows: Rows, arcs: Arcs): Arcs
  {
    map a | a in arcs :: Moved(rows, arcs[a])
  }

  /** What the partial unique index over (name, policy_json) requires. */
  predicate Unique(rows: Rows)
  {
    forall i, j :: i in rows && j in rows && SameKey(rows[i], rows[j]) ==> i == j
  }

  // ---------- What the migration keeps ----------

  lemma PeersEqual(rows: Rows, i: int, j: int)
    requires i in rows && j in rows && SameKey(rows[i], rows[j])
    ensures Peers(rows, i) == Peers(rows, j)
  {
    forall x ensures x in Peers(rows, i) <==> x in Peers(rows, j) {}
  }

  lemma SurvivorFacts(rows: Rows, id: int)
    requires id in rows
    ensures var k := Survivor(rows, id);
      && k in rows && SameContents(rows[k], rows[id])
      && Survivor(rows, k) == k && k <= id
      && (IsPreset(rows[id]) ==> SameKey(rows[k], rows[id]))
  {
    var k := Survivor(rows, id);
    if IsPreset(rows[id]) {
      assert id in Peers(rows, id) && k in Peers(rows, id);
      PeersEqual(rows, k, id);
    }
  }

  lemma PeersShareSurvivor(rows: Rows, i: int, j: int)
    requires i in rows && j in rows && SameKey(rows[i], rows[j])
    ensures Survivor(rows, i) == Survivor(rows, j)
  {
    PeersEqual(rows, i, j);
  }

  /** Every arc resolves to a row with the same contents as before, and a dangling pointer stays as it was. */
  lemma MigrationKeepsMeaning(rows: Rows, arcs: Arcs, a: int)
    requires a in arcs && arcs[a].Some?
    ensures var before, after := arcs[a].value, Repointed(rows, arcs)[a];
      && after.Some?
      && (before in rows ==> after.value in Deduped(rows) && SameContents(Deduped(rows)[after.value], rows[before]))
      && (before !in rows ==> after.value == before && before !in Deduped(rows))
  {
    if arcs[a].value in rows { SurvivorFacts(rows, arcs[a].value); }
  }

  /** A row without name or body, or with a selector or an override, is untouched, and so are pointers to it. */
  lemma MigrationKeepsOthers(rows: Rows, id: int)
    requires id in rows
    requires || rows[id].name.None? || rows[id].body.None? || rows[id].model.Some? || rows[id].agentRole.Some?
             || rows[id].temperature.Some? || rows[id].maxTokens.Some?
    ensures id in Deduped(rows) && Deduped(rows)[id] == rows[id] && Survivor(rows, id) == id
  {}

  /** Of two rows with a name and a body in common and nothing else set, the later one goes. */
  lemma DuplicatesGo(rows: Rows, arcs: Arcs, first: int, later: int, name: string, body: string)
    requires first in rows && later in rows && first < later
    requires forall id :: id == first || id == later ==>
      rows[id] == Policy(Some(name), None, None, None, None, Some(body), rows[id].createdAt)
    ensures later !in Deduped(rows)
    ensures forall a :: a in arcs && (arcs[a] == Some(first) || arcs[a] == Some(later)) ==>
      Repointed(rows, arcs)[a].Some? && Repointed(rows, arcs)[a].value <= first
      && Repointed(rows, arcs)[a] == Moved(rows, Some(first))
  {
    assert SameKey(rows[first], rows[later]);
    PeersShareSurvivor(rows, first, later);
    SurvivorFacts(rows, first);
  }

  /** Every (name, body) pair still exists, at its lowest id. */
  lemma MigrationKeepsPairs(rows: Rows, id: int)
    requires id in rows && IsPreset(rows[id])
    ensures exists k :: k in Deduped(rows) && Deduped(rows)[k] == rows[k] && SameKey(rows[k], rows[id])
                     && forall j :: j in rows && SameKey(rows[j], rows[id]) ==> k <= j
  {
    SurvivorFacts(rows, id);
    var k := Survivor(rows, id);
    forall j | j in rows && SameKey(rows[j], rows[id]) ensures k <= j {
      assert j in Peers(rows, id);
    }
    assert k in Deduped(rows);
  }

  /** `id` is what a lookup by name that takes the lowest id finds. */
  predicate FirstByName(rows: Rows, name: string, id: int)
  {
    id in rows && rows[id].name == Some(name) && forall j :: j in rows && rows[j].name == Some(name) ==> id <= j
  }

  lemma LookupByNameUnchanged(rows: Rows, name: string, id: int)
    ensures FirstByName(rows, name, id) <==> FirstByName(Deduped(rows), name, id)
  {
    if FirstByName(rows, name, id) {
      SurvivorFacts(rows, id);
    }
    if FirstByName(Deduped(rows), name, id) {
      forall j | j in rows && rows[j].name == Some(name) ensures id <= j {
        SurvivorFacts(rows, j);
        assert Survivor(rows, j) in Deduped(rows);
      }
    }
  }

  lemma DedupedUnique(rows: Rows)
    ensures Unique(Deduped(rows))
  {
    var d := Deduped(rows);
    forall i, j | i in d && j in d && SameKey(d[i], d[j]) ensures i == j {
      PeersShareSurvivor(rows, i, j);
    }
  }

  lemma UniqueIsFixed(rows: Rows)
    requires Unique(rows)
    ensures Deduped(rows) == rows && forall id :: Survivor(rows, id) == id
  {
    forall id ensures Survivor(rows, id) == id {
      if id in rows { SurvivorFacts(rows, id); }
    }
  }

  /** The unique index can be created after the migration, and a second migration changes nothing. */
  lemma MigrationIsIdempotent(rows: Rows, arcs: Arcs)
    ensures Unique(Deduped(rows))
    ensures Deduped(Deduped(rows)) == Deduped(rows)
    ensures Repointed(Deduped(rows), Repointed(rows, arcs)) == Repointed(rows, arcs)
  {
    DedupedUnique(rows);
    UniqueIsFixed(Deduped(rows));
    var once := Repointed(rows, arcs);
    forall a | a in arcs ensures Repointed(Deduped(rows), once)[a] == once[a] {}
  }

  // ---------- Seeding ----------

  ghost function MaxOf(s: set<int>): (m: int)
    requires s != {}
    ensures m in s && forall x :: x in s ==> x <= m
  {
    NonEmpty(s);
    var x :| x in s;
    if s == {x} then x
    else
      assert s == {x} + (s - {x});
      Max(x, MaxOf(s - {x}))
  }

  /** The id SQLite gives the next row. */
  ghost function NextId(rows: Rows): (id: int)
    ensures id !in rows && forall j :: j in rows ==> j < id
    ensures if rows == map[] then id == 1 else id - 1 in rows
  {
    if rows == map[] then 1 else assert rows.Keys != {}; MaxOf(rows.Keys) + 1
  }

  function RowOf(p: Preset, now: int): Policy
  {
    Policy(Some(p.name), None, None, None, None, p.body, now)
  }

  predicate Conflicts(rows: Rows, row: Policy)
  {
    exists j :: j in rows && SameKey(rows[j], row)
  }

  /** INSERT OR IGNORE under the partial unique index. */
  ghost function InsertOrIgnore(rows: Rows, row: Policy): Rows
  {
    if Conflicts(rows, row) then rows else rows[NextId(rows) := row]
  }

  ghost function Seeded(rows: Rows, presets: seq<Preset>, now: int): Rows
  {
    if |presets| == 0 then rows
    else InsertOrIgnore(Seeded(rows, presets[..|presets| - 1], now), RowOf(presets[|presets| - 1], now))
  }

  /** Every row of `rows` is still there. */
  predicate Extends(rows: Rows, rows': Rows)
  {
    forall id :: id in rows ==> id in rows' && rows'[id] == rows[id]
  }

  lemma InsertFacts(rows: Rows, row: Policy)
    ensures Extends(rows, InsertOrIgnore(rows, row))
    ensures Unique(rows) ==> Unique(InsertOrIgnore(rows, row))
    ensures IsPreset(row) ==> Conflicts(InsertOrIgnore(rows, row), row)
  {
    var after, id := InsertOrIgnore(rows, row), NextId(rows);
    if !Conflicts(rows, row) {
      assert after[id] == row;
      assert forall i :: i in rows ==> !SameKey(rows[i], row) && !SameKey(row, rows[i]);
    }
  }

  lemma ExtendsKeepsConflicts(rows: Rows, rows': Rows, row: Policy)
    requires Extends(rows, rows') && Conflicts(rows, row)
    ensures Conflicts(rows', row)
  {
    var j :| j in rows && SameKey(rows[j], row);
    assert SameKey(rows'[j], row);
  }

  lemma {:induction false} SeedingFacts(rows: Rows, presets: seq<Preset>, now: int)
    ensures var after := Seeded(rows, presets, now);
      && Extends(rows, after)
      && (Unique(rows) ==> Unique(after))
      && (forall i :: 0 <= i < |presets| && presets[i].body.Some? ==> Conflicts(after, RowOf(presets[i], now)))
  {
    if |presets| > 0 {
      var front, last := presets[..|presets| - 1], presets[|presets| - 1];
      SeedingFacts(rows, front, now);
      var mid, after := Seeded(rows, front, now), Seeded(rows, presets, now);
      InsertFacts(mid, RowOf(last, now));
      forall i | 0 <= i < |presets| && presets[i].body.Some? ensures Conflicts(after, RowOf(presets[i], now)) {
        if i < |front| {
          assert front[i] == presets[i];
          ExtendsKeepsConflicts(mid, after, RowOf(presets[i], now));
        }
      }
    }
  }

  /** The row of a preset as it is inserted. */
  predicate IsRowOf(row: Policy, p: Preset, now: int)
  {
    row == Policy(Some(p.name), None, None, None, None, p.body, now)
  }

  predicate Present(rows: Rows, p: Preset)
  {
    exists id :: id in rows && IsPreset(rows[id]) && rows[id].name == Some(p.name) && rows[id].body == p.body
  }

  predicate SomeRowOf(row: Policy, presets: seq<Preset>, now: int)
  {
    exists i :: 0 <= i < |presets| && IsRowOf(row, presets[i], now)
  }

  lemma SomeRowOfMore(row: Policy, presets: seq<Preset>, n: nat, now: int)
    requires n <= |presets| && SomeRowOf(row, presets[..n], now)
    ensures SomeRowOf(row, presets, now)
  {
    var i :| 0 <= i < n && IsRowOf(row, presets[..n][i], now);
    assert IsRowOf(row, presets[i], now);
  }

  /** Every new row is that of some preset and comes behind the old rows. */
  lemma {:induction false} NewRows(rows: Rows, presets: seq<Preset>, now: int, id: int)
    requires id in Seeded(rows, presets, now) && id !in rows
    ensures forall j :: j in rows ==> j < id
    ensures SomeRowOf(Seeded(rows, presets, now)[id], presets, now)
  {
    var front, last := presets[..|presets| - 1], presets[|presets| - 1];
    var mid, after := Seeded(rows, front, now), Seeded(rows, presets, now);
    SeedingFacts(rows, front, now);
    InsertFacts(mid, RowOf(last, now));
    if id in mid {
      NewRows(rows, front, now, id);
      SomeRowOfMore(after[id], presets, |front|, now);
    } else {
      assert IsRowOf(after[id], presets[|presets| - 1], now);
    }
  }

  /** Every preset with a body has its row. */
  lemma PresetsPresent(rows: Rows, presets: seq<Preset>, now: int, i: nat)
    requires i < |presets| && presets[i].body.Some?
    ensures Present(Seeded(rows, presets, now), presets[i])
  {
    SeedingFacts(rows, presets, now);
    var after := Seeded(rows, presets, now);
    var id :| id in after && SameKey(after[id], RowOf(presets[i], now));
    assert after[id].name == Some(presets[i].name);
  }

  predicate AllBodied(presets: seq<Preset>)
  {
    forall i :: 0 <= i < |presets| ==> presets[i].body.Some?
  }

  lemma {:induction false} SeedingNothingNew(rows: Rows, presets: seq<Preset>, now: int)
    ensures (forall i :: 0 <= i < |presets| ==> Conflicts(rows, RowOf(presets[i], now)))
       <==> Seeded(rows, presets, now) == rows
  {
    if |presets| > 0 {
      var front, last := presets[..|presets| - 1], presets[|presets| - 1];
      SeedingNothingNew(rows, front, now);
      SeedingFacts(rows, front, now);
      var mid := Seeded(rows, front, now);
      if mid == rows {
        if forall i :: 0 <= i < |presets| ==> Conflicts(rows, RowOf(presets[i], now)) {
          assert Conflicts(rows, RowOf(presets[|presets| - 1], now));
        }
        if Seeded(rows, presets, now) == rows {
          assert NextId(rows) !in rows;
          forall i | 0 <= i < |presets| ensures Conflicts(rows, RowOf(presets[i], now)) {
            if i < |front| { assert front[i] == presets[i]; }
          }
        }
      } else {
        assert |mid| > |rows| by { BiggerSeed(rows, front, now); }
        assert |Seeded(rows, presets, now)| >= |mid| by { OneMore(mid, RowOf(last, now)); }
        var i :| 0 <= i < |front| && !Conflicts(rows, RowOf(front[i], now));
        assert presets[i] == front[i];
      }
    }
  }

  lemma OneMore(rows: Rows, row: Policy)
    ensures |InsertOrIgnore(rows, row)| == |rows| + (if Conflicts(rows, row) then 0 else 1)
  {
    var id := NextId(rows);
    assert rows[id := row].Keys == rows.Keys + {id};
  }

  lemma {:induction false} BiggerSeed(rows: Rows, presets: seq<Preset>, now: int)
    ensures Seeded(rows, presets, now) == rows || |Seeded(rows, presets, now)| > |rows|
  {
    if |presets| > 0 {
      BiggerSeed(rows, presets[..|presets| - 1], now);
      OneMore(Seeded(rows, presets[..|presets| - 1], now), RowOf(presets[|presets| - 1], now));
    }
  }

  /** Seeding the same presets again adds nothing exactly when every preset has a policy body. */
  lemma ReseedingAddsNothing(rows: Rows, presets: seq<Preset>, now: int, later: int)
    ensures var once := Seeded(rows, presets, now);
      Seeded(once, presets, later) == once <==> AllBodied(presets)
  {
    var once := Seeded(rows, presets, now);
    SeedingFacts(rows, presets, now);
    SeedingNothingNew(once, presets, later);
    if AllBodied(presets) {
      forall i | 0 <= i < |presets| ensures Conflicts(once, RowOf(presets[i], later)) {
        var j :| j in once && SameKey(once[j], RowOf(presets[i], now));
        assert SameKey(once[j], RowOf(presets[i], later));
      }
    } else {
      var i :| 0 <= i < |presets| && presets[i].body.None?;
      assert !Conflicts(once, RowOf(presets[i], later));
    }
  }

  // ---------- Restarts ----------

  datatype Start = Start(presets: seq<Preset>, now: int)

  /** What happens to the policy table over a run of starts: each migrates, then seeds. */
  ghost function Restarted(rows: Rows, starts: seq<Start>): Rows
  {
    if |starts| == 0 then rows
    else
      var last := starts[|starts| - 1];
      Seeded(Deduped(Restarted(rows, starts[..|starts| - 1])), last.presets, last.now)
  }

  /** Over any number of restarts there is at most one row per (name, body) pair. */
  lemma RestartsKeepUnique(rows: Rows, starts: seq<Start>)
    requires |starts| > 0
    ensures Unique(Restarted(rows, starts))
  {
    var before, last := Restarted(rows, starts[..|starts| - 1]), starts[|starts| - 1];
    DedupedUnique(before);
    SeedingFacts(Deduped(before), last.presets, last.now);
  }

  /** A restart with the presets of the start before it changes nothing exactly when every preset has a body. */
  lemma RestartIsIdempotent(rows: Rows, starts: seq<Start>, later: int)
    requires |starts| > 0
    ensures Restarted(rows, starts + [starts[|starts| - 1].(now := later)]) == Restarted(rows, starts)
      <==> AllBodied(starts[|starts| - 1].presets)
  {
    var last := starts[|starts| - 1];
    var once := Restarted(rows, starts);
    RestartsKeepUnique(rows, starts);
    UniqueIsFixed(once);
    var again := starts + [last.(now := later)];
    assert again[..|again| - 1] == starts;
    ReseedingAddsNothing(Deduped(Restarted(rows, starts[..|starts| - 1])), last.presets, last.now, later);
  }

  // ---------- The database ----------

  class PolicyDb {
    var rows: Rows
    var arcs: Arcs

    constructor (rows: Rows, arcs: Arcs)
      ensures this.rows == rows && this.arcs == arcs
    {
      this.rows, this.arcs := rows, arcs;
    }

    /** Rows whose duplicates are still waiting: the kept id of each remaining group is in `pending`. */
    ghost static function Remaining(rows: Rows, pending: set<int>): Rows
    {
      map id | id in rows && (Survivor(rows, id) == id || Survivor(rows, id) in pending) :: rows[id]
    }

    ghost static function MovedExcept(rows: Rows, pending: set<int>, pointer: Option<int>): Option<int>
    {
      if pointer.Some? && Survivor(rows, pointer.value) !in pending then Moved(rows, pointer) else pointer
    }

    ghost static function ArcsExcept(rows: Rows, pending: set<int>, arcs: Arcs): Arcs
    {
      map a | a in arcs :: MovedExcept(rows, pending, arcs[a])
    }

    /** The duplicates of one group: same key as the kept row, another id. */
    static function Doomed(rows: Rows, keep: int): set<int>
      requires keep in rows
    {
      set j | j in rows && SameKey(rows[j], rows[keep]) && j != keep
    }

    static lemma DoomedAre(rows: Rows, pending: set<int>, keep: int)
      requires keep in pending && keep in rows && IsPreset(rows[keep]) && Survivor(rows, keep) == keep
      ensures keep in Remaining(rows, pending)
      ensures forall j :: j in Doomed(Remaining(rows, pending), keep) <==>
        j in rows && Survivor(rows, j) == keep && j != keep
    {
      forall j | j in rows
        ensures SameKey(rows[j], rows[keep]) <==> Survivor(rows, j) == keep
      {
        SurvivorFacts(rows, j);
        if SameKey(rows[j], rows[keep]) { PeersShareSurvivor(rows, j, keep); }
      }
    }

    static lemma GroupStep(rows: Rows, arcs: Arcs, pending: set<int>, keep: int)
      requires keep in pending && keep in rows && IsPreset(rows[keep]) && Survivor(rows, keep) == keep
      ensures keep in Remaining(rows, pending)
      ensures var doomed := Doomed(Remaining(rows, pending), keep);
        && doomed <= Remaining(rows, pending).Keys
        && Remaining(rows, pending - {keep}) == Remaining(rows, pending) - doomed
        && ArcsExcept(rows, pending - {keep}, arcs)
           == map a | a in arcs :: Redirect(ArcsExcept(rows, pending, arcs)[a], doomed, keep)
    {
      DoomedAre(rows, pending, keep);
      var doomed := Doomed(Remaining(rows, pending), keep);
      var now, later := ArcsExcept(rows, pending, arcs), ArcsExcept(rows, pending - {keep}, arcs);
      forall a | a in arcs ensures later[a] == Redirect(now[a], doomed, keep) {
        if arcs[a].Some? {
          var p := arcs[a].value;
          if p in rows {
            SurvivorFacts(rows, p);
          }
        }
      }
    }

    static function Redirect(pointer: Option<int>, doomed: set<int>, keep: int): Option<int>
    {
      if pointer.Some? && pointer.value in doomed then Some(keep) else pointer
    }

    /** The kept ids of the groups that have duplicates. */
    static ghost predicate IsGroup(rows: Rows, keep: int)
    {
      && keep in rows && IsPreset(rows[keep]) && Survivor(rows, keep) == keep
      && exists j :: j in rows && j != keep && SameKey(rows[j], rows[keep])
    }

    static predicate Keeps(rows: Rows, id: int)
    {
      && id in rows && IsPreset(rows[id])
      && (forall j :: j in rows && SameKey(rows[j], rows[id]) ==> id <= j)
      && (exists j :: j in rows && j != id && SameKey(rows[j], rows[id]))
    }

    static lemma KeepsIsGroup(rows: Rows, id: int)
      ensures Keeps(rows, id) <==> IsGroup(rows, id)
    {
      if id in rows && IsPreset(rows[id]) {
        assert id in Peers(rows, id);
        if Survivor(rows, id) == id {
          forall j | j in rows && SameKey(rows[j], rows[id]) ensures id <= j { assert j in Peers(rows, id); }
        }
      }
    }

    static lemma NoGroupsLeft(rows: Rows, arcs: Arcs)
      ensures Remaining(rows, {}) == Deduped(rows)
      ensures ArcsExcept(rows, {}, arcs) == Repointed(rows, arcs)
    {
      forall a | a in arcs ensures ArcsExcept(rows, {}, arcs)[a] == Repointed(rows, arcs)[a] {}
    }

    static lemma AllGroupsPending(rows: Rows, arcs: Arcs, pending: set<int>)
      requires forall id :: id in pending <==> IsGroup(rows, id)
      ensures Remaining(rows, pending) == rows
      ensures ArcsExcept(rows, pending, arcs) == arcs
    {
      forall id ensures Survivor(rows, id) == id || Survivor(rows, id) in pending {
        if id in rows {
          SurvivorFacts(rows, id);
          if Survivor(rows, id) != id { assert IsGroup(rows, Survivor(rows, id)); }
        }
      }
      forall a | a in arcs ensures ArcsExcept(rows, pending, arcs)[a] == arcs[a] {}
    }

    /** The UPDATE and the DELETE for one group, with their row counts. */
    method CollapseGroup(keep: int) returns (removed: nat, repointed: nat)
      requires keep in rows
      modifies this
      ensures var doomed := Doomed(old(rows), keep);
        && rows == old(rows) - doomed && removed == |doomed| == |old(rows)| - |rows|
        && arcs == (map a | a in old(arcs) :: Redirect(old(arcs)[a], doomed, keep))
        && repointed == |Hit(old(arcs), doomed)|
    {
      var doomed := Doomed(rows, keep);
      repointed := |Hit(arcs, doomed)|;
      arcs := map a | a in arcs :: Redirect(arcs[a], doomed, keep);
      var left := rows - doomed;
      forall j ensures j in rows.Keys <==> j in left.Keys + doomed {}
      assert rows.Keys == left.Keys + doomed;
      rows := left;
      removed := |doomed|;
    }

    /** The arcs an UPDATE over `doomed` touches. */
    static function Hit(arcs: Arcs, doomed: set<int>): set<int>
    {
      set a | a in arcs && arcs[a].Some? && arcs[a].value in doomed
    }

    static function Differing(arcs: Arcs, arcs': Arcs): set<int>
    {
      set a | a in arcs && a in arcs' && arcs[a] != arcs'[a]
    }

    /** Returns how many rows were deleted and how many arcs were repointed. */
    method DedupePresets() returns (removed: nat, repointed: nat)
      modifies this
      ensures rows == Deduped(old(rows)) && arcs == Repointed(old(rows), old(arcs))
      ensures removed == |old(rows)| - |rows|
      ensures repointed == |Differing(old(arcs), arcs)|
    {
      removed, repointed := 0, 0;
      var pending := set id | id in rows && Keeps(rows, id);
      forall id ensures Keeps(rows, id) <==> IsGroup(rows, id) { KeepsIsGroup(rows, id); }
      AllGroupsPending(rows, arcs, pending);
      assert Differing(arcs, arcs) == {};
      while pending != {}
        invariant forall id :: id in pending ==> IsGroup(old(rows), id)
        invariant rows == Remaining(old(rows), pending) && arcs == ArcsExcept(old(rows), pending, old(arcs))
        invariant removed == |old(rows)| - |rows|
        invariant repointed == |Differing(old(arcs), arcs)|
        decreases pending
      {
        NonEmpty(pending);
        var keep :| keep in pending;
        GroupStep(old(rows), old(arcs), pending, keep);
        CountStep(old(rows), old(arcs), pending, keep);
        var deleted, updated := CollapseGroup(keep);
        removed, repointed := removed + deleted, repointed + updated;
        pending := pending - {keep};
      }
      NoGroupsLeft(old(rows), old(arcs));
    }

    /** Each repointed arc moves once: the arcs hit by one group did not differ before it. */
    static lemma CountStep(rows: Rows, arcs: Arcs, pending: set<int>, keep: int)
      requires keep in pending && IsGroup(rows, keep) && keep in Remaining(rows, pending)
      ensures var now, later := ArcsExcept(rows, pending, arcs), ArcsExcept(rows, pending - {keep}, arcs);
        |Differing(arcs, later)| == |Differing(arcs, now)| + |Hit(now, Doomed(Remaining(rows, pending), keep))|
    {
      GroupStep(rows, arcs, pending, keep);
      DoomedAre(rows, pending, keep);
      var now, later := ArcsExcept(rows, pending, arcs), ArcsExcept(rows, pending - {keep}, arcs);
      var hit := Hit(now, Doomed(Remaining(rows, pending), keep));
      forall a ensures a in Differing(arcs, later) <==> a in Differing(arcs, now) || a in hit {
        if a in arcs && arcs[a].Some? && arcs[a].value in rows { SurvivorFacts(rows, arcs[a].value); }
      }
      forall a | a in hit ensures a !in Differing(arcs, now) {
        if arcs[a].value in rows { SurvivorFacts(rows, arcs[a].value); }
      }
      assert Differing(arcs, later) == Differing(arcs, now) + hit;
    }

    /** Insert-or-ignore of every preset, in order. */
    method SeedPresets(presets: seq<Preset>, now: int) returns (inserted: nat)
      modifies this`rows
      ensures rows == Seeded(old(rows), presets, now)
      ensures inserted == |rows| - |old(rows)|
      ensures Unique(old(rows)) ==> Unique(rows)
      ensures Extends(old(rows), rows)
      ensures forall id :: id in rows && id !in old(rows) ==>
        && (forall j :: j in old(rows) ==> j < id)
        && SomeRowOf(rows[id], presets, now)
      ensures forall i :: 0 <= i < |presets| && presets[i].body.Some? ==> Present(rows, presets[i])
    {
      SeedingFacts(rows, presets, now);
      ghost var after := Seeded(rows, presets, now);
      forall id | id in after && id !in rows
        ensures (forall j :: j in rows ==> j < id) && SomeRowOf(after[id], presets, now)
      {
        NewRows(rows, presets, now, id);
      }
      forall i | 0 <= i < |presets| && presets[i].body.Some? ensures Present(after, presets[i]) {
        PresetsPresent(rows, presets, now, i);
      }
      inserted := 0;
      for i := 0 to |presets|
        invariant rows == Seeded(old(rows), presets[..i], now)
        invariant inserted == |rows| - |old(rows)|
      {
        assert presets[..i + 1][..i] == presets[..i];
        var row := RowOf(presets[i], now);
        OneMore(rows, row);
        if !Conflicts(rows, row) {
          var id := FreshId();
          rows := rows[id := row];
          inserted := inserted + 1;
        }
      }
      assert presets[..|presets|] == presets;
    }

    method FreshId() returns (id: int)
      ensures id == NextId(rows)
    {
      if rows == map[] {
        return 1;
      }
      var left := rows.Keys;
      NonEmpty(left);
      var m :| m in left;
      left := left - {m};
      while left != {}
        invariant left <= rows.Keys && m in rows.Keys
        invariant forall x :: x in rows.Keys ==> x in left || x <= m
        decreases left
      {
        NonEmpty(left);
        var x :| x in left;
        m := Max(m, x);
        left := left - {x};
      }
      id := m + 1;
    }
  }
}
