/**
  The chat tool set: loading from a directory of modules, runtime registration of
  extension tools, and the heartbeat reload that commits a new set or keeps the old one.

  A Python dict is modelled as the sequence of its items in insertion order.
 */
module ToolLoader {
  import opened Common
  import opened Messages
  import opened Ordering
  import opened ToolRegistry

  datatype Entry = Entry(key: string, tool: Tool)
  type Dict = seq<Entry>

  /** What importing a module yields: an exception, or its decorated functions. */
  datatype Import = Failed | Yields(tools: seq<Tool>)

  datatype File = File(name: string, mtime: int, content: Import)

  /** A directory listing in any order; None when the path is not a directory. */
  type Directory = Option<seq<File>>

  // ---------- Dicts ----------

  predicate HasKey(d: Dict, key: string)
  {
    exists i :: 0 <= i < |d| && d[i].key == key
  }

  function AddEntry(d: Dict, e: Entry): Dict
  {
    if HasKey(d, e.key) then d else d + [e]
  }

  /** Adds the entries in order, the first entry of a key winning. */
  function AddEntries(d: Dict, es: seq<Entry>): Dict
  {
    if |es| == 0 then d else AddEntry(AddEntries(d, es[..|es| - 1]), es[|es| - 1])
  }

  function Named(tools: seq<Tool>): seq<Entry>
  {
    seq(|tools|, i requires 0 <= i < |tools| => Entry(tools[i].name, tools[i]))
  }

  function Values(d: Dict): seq<Tool>
  {
    seq(|d|, i requires 0 <= i < |d| => d[i].tool)
  }

  /** Each key is its tool's name, and no key occurs twice. */
  predicate Keyed(d: Dict)
  {
    && (forall i :: 0 <= i < |d| ==> d[i].key == d[i].tool.name)
    && (forall i, j :: 0 <= i < j < |d| ==> d[i].key != d[j].key)
  }

  predicate DictValid(d: Dict)
  {
    AllToolsValid(Values(d), false)
  }

  // ---------- Loading from scratch ----------

  /** The handler of an injected platform tool, which is dispatched elsewhere. */
  const STUB: string := "stub"

  function PlatformDef(name: string, capabilities: seq<string>, always: bool): Tool
  {
    Tool(name, "Platform tool " + name, map["type" := JString("object")], PLATFORM, capabilities, always, false, STUB)
  }

  const PLATFORM_DEFS: seq<Tool> := [
    PlatformDef("submit_code", ["filesystem_write", "database_write", "external_effect"], true),
    PlatformDef("escalate_current_arc", ["database_write"], false),
    PlatformDef("escalate", ["arc_create", "database_write"], false),
    PlatformDef("fetch_web_content", ["arc_create", "database_write", "external_effect"], true),
    PlatformDef("submit_extract", ["database_write"], false)]

  function NameOf(f: File): string { f.name }

  predicate IsVisible(f: File)
  {
    |f.name| == 0 || f.name[0] != '_'
  }

  /** The module files the loader imports, in the order it imports them. */
  function Listing(files: seq<File>): seq<File>
  {
    Keep(Sort(files, NameOf), IsVisible)
  }

  /** All tools of the listed files, or None if some file fails to import. */
  function Collect(listing: seq<File>): Option<Dict>
  {
    if |listing| == 0 then Some([])
    else
      var front, last := Collect(listing[..|listing| - 1]), listing[|listing| - 1];
      if front.None? || last.content.Failed? then None else Some(AddEntries(front.value, Named(last.content.tools)))
  }

  function Fingerprint(listing: seq<File>): map<string, int>
  {
    if |listing| == 0 then map[]
    else Fingerprint(listing[..|listing| - 1])[listing[|listing| - 1].name := listing[|listing| - 1].mtime]
  }

  /** A load from scratch: None when it raises. */
  function Fresh(files: seq<File>): Option<Dict>
  {
    var d := Collect(Listing(files));
    if d.None? || !DictValid(d.value) then None else Some(AddEntries(d.value, Named(PLATFORM_DEFS)))
  }

  // ---------- The state and its steps ----------

  /**
    `live` are the extension entries the current set was built with, `basis` the files it was
    built from, and `grants` every entry ever registered with the write opt-in.
   */
  datatype ToolSet = ToolSet(
    loaded: Dict,
    ext: Dict,
    mtimes: map<string, int>,
    dirKnown: bool,
    live: Dict,
    basis: Directory,
    grants: seq<Entry>)

  datatype Step =
    | Load(dir: Directory)
    | Hook
    | Register(tool: Tool, writeAllowed: bool)
    | Heartbeat(dir: Directory)

  function LoadStep(s: ToolSet, dir: Directory): ToolSet
  {
    var s' := s.(ext := [], dirKnown := true);
    if dir.None? then s'.(loaded := [], mtimes := map[], live := [], basis := None)
    else match Fresh(dir.value)
         case None => s'
         case Some(d) => s'.(loaded := d, mtimes := Fingerprint(Listing(dir.value)), live := [], basis := dir)
  }

  predicate Registers(s: ToolSet, tool: Tool, writeAllowed: bool)
  {
    !HasKey(s.loaded, tool.name) && ToolValid(tool, writeAllowed)
  }

  function RegisterStep(s: ToolSet, tool: Tool, writeAllowed: bool): ToolSet
  {
    var e := Entry(tool.name, tool);
    if Registers(s, tool, writeAllowed)
    then s.(loaded := s.loaded + [e], ext := s.ext + [e], live := s.live + [e],
            grants := if writeAllowed then s.grants + [e] else s.grants)
    else s
  }

  predicate Changed(s: ToolSet, files: seq<File>)
  {
    Fingerprint(Listing(files)) != s.mtimes
  }

  /** What a reload checks before it commits: platform tools are injected first, then everything is validated. */
  function Reloaded(files: seq<File>): Option<Dict>
  {
    var d := Collect(Listing(files));
    if d.None? then None
    else
      var full := AddEntries(d.value, Named(PLATFORM_DEFS));
      if DictValid(full) then Some(full) else None
  }

  predicate Commits(s: ToolSet, dir: Directory)
  {
    s.dirKnown && dir.Some? && Changed(s, dir.value) && Reloaded(dir.value).Some?
  }

  function HeartbeatStep(s: ToolSet, dir: Directory): ToolSet
  {
    if Commits(s, dir)
    then s.(loaded := AddEntries(Reloaded(dir.value).value, s.ext), mtimes := Fingerprint(Listing(dir.value)),
            live := s.ext, basis := dir)
    else s
  }

  function Next(s: ToolSet, step: Step): ToolSet
  {
    match step
    case Load(dir) => LoadStep(s, dir)
    case Hook => s.(dirKnown := true)
    case Register(tool, writeAllowed) => RegisterStep(s, tool, writeAllowed)
    case Heartbeat(dir) => HeartbeatStep(s, dir)
  }

  predicate DirectoryOk(dir: Directory)
  {
    dir.Some? ==> DistinctKeys(dir.value, NameOf)
  }

  /** File names in a listing are distinct, and extension tools are chat-boundary by construction. */
  predicate Enabled(step: Step)
  {
    match step
    case Load(dir) => DirectoryOk(dir)
    case Heartbeat(dir) => DirectoryOk(dir)
    case Register(tool, _) => tool.boundary == CHAT
    case Hook => true
  }

  const Init: ToolSet := ToolSet([], [], map[], false, [], None, [])

  function Exec(s: ToolSet, steps: seq<Step>): ToolSet
    decreases |steps|
  {
    if |steps| == 0 then s else Exec(Next(s, steps[0]), steps[1..])
  }

  // ---------- Adding entries ----------

  lemma {:induction false} AddEntriesFacts(d: Dict, es: seq<Entry>)
    ensures d <= AddEntries(d, es)
    ensures forall i :: |d| <= i < |AddEntries(d, es)| ==> AddEntries(d, es)[i] in es
    ensures forall i :: 0 <= i < |es| ==> HasKey(AddEntries(d, es), es[i].key)
  {
    if |es| > 0 {
      var front, last := es[..|es| - 1], es[|es| - 1];
      AddEntriesFacts(d, front);
      var mid, full := AddEntries(d, front), AddEntries(d, es);
      forall i | 0 <= i < |es| ensures HasKey(full, es[i].key) {
        if i < |front| {
          assert front[i] == es[i] && HasKey(mid, es[i].key);
          var k :| 0 <= k < |mid| && mid[k].key == es[i].key;
          assert full[k] == mid[k];
        } else if !HasKey(mid, last.key) {
          assert full[|full| - 1] == last;
        }
      }
    }
  }

  lemma {:induction false} AddEntriesKeyed(d: Dict, es: seq<Entry>)
    requires Keyed(d) && forall i :: 0 <= i < |es| ==> es[i].key == es[i].tool.name
    ensures Keyed(AddEntries(d, es))
  {
    if |es| > 0 { AddEntriesKeyed(d, es[..|es| - 1]); }
  }

  /** Every entry of an addition comes from the start or from the added entries. */
  lemma AddEntriesOrigin(d: Dict, es: seq<Entry>, e: Entry)
    requires e in AddEntries(d, es)
    ensures e in d || e in es
  {
    AddEntriesFacts(d, es);
    var i :| 0 <= i < |AddEntries(d, es)| && AddEntries(d, es)[i] == e;
    if i < |d| { assert d[i] == e; }
  }

  lemma {:induction false} CollectKeyed(listing: seq<File>)
    ensures Collect(listing).Some? ==> Keyed(Collect(listing).value)
  {
    if |listing| > 0 {
      CollectKeyed(listing[..|listing| - 1]);
      if Collect(listing).Some? {
        AddEntriesKeyed(Collect(listing[..|listing| - 1]).value, Named(listing[|listing| - 1].content.tools));
      }
    }
  }

  lemma InjectedKeyed(listing: seq<File>)
    requires Collect(listing).Some?
    ensures Keyed(AddEntries(Collect(listing).value, Named(PLATFORM_DEFS)))
  {
    CollectKeyed(listing);
    AddEntriesKeyed(Collect(listing).value, Named(PLATFORM_DEFS));
  }

  lemma PlatformDefsValid()
    ensures forall i :: 0 <= i < |PLATFORM_DEFS| ==> ToolValid(PLATFORM_DEFS[i], false)
  {
    forall i | 0 <= i < |PLATFORM_DEFS| ensures ToolValid(PLATFORM_DEFS[i], false) {
      var t := PLATFORM_DEFS[i];
      assert "type" in t.schema;
      assert PLATFORM[0] != CHAT[0];
      assert "pure" !in t.capabilities;
    }
  }

  /**
    Injecting the platform tools before validating, as a reload does, or after it, as a load does,
    accepts the same files.
   */
  lemma ReloadValidatesLikeLoad(files: seq<File>)
    ensures Reloaded(files) == Fresh(files)
  {
    var c := Collect(Listing(files));
    if c.Some? {
      var d, es := c.value, Named(PLATFORM_DEFS);
      var full := AddEntries(d, es);
      AddEntriesFacts(d, es);
      PlatformDefsValid();
      if DictValid(d) {
        forall i | 0 <= i < |full| ensures ToolValid(Values(full)[i], false) {
          if i < |d| {
            assert Values(d)[i] == full[i].tool;
          } else {
            assert full[i] in es;
          }
        }
      }
      if DictValid(full) {
        forall i | 0 <= i < |d| ensures ToolValid(Values(d)[i], false) { assert Values(full)[i] == d[i].tool; }
      }
    }
  }

  // ---------- The invariant of every run ----------

  function Base(basis: Directory): Option<Dict>
  {
    if basis.None? then Some([]) else Fresh(basis.value)
  }

  predicate ExtensionOk(e: Entry, grants: seq<Entry>)
  {
    && e.key == e.tool.name && e.tool.boundary == CHAT
    && ToolValid(e.tool, true) && (ToolValid(e.tool, false) || e in grants)
  }

  predicate Valid(s: ToolSet)
  {
    && DirectoryOk(s.basis) && Base(s.basis).Some?
    && s.loaded == AddEntries(Base(s.basis).value, s.live)
    && s.mtimes == (if s.basis.None? then map[] else Fingerprint(Listing(s.basis.value)))
    && (forall i :: 0 <= i < |s.live| ==> ExtensionOk(s.live[i], s.grants))
    && (forall i :: 0 <= i < |s.ext| ==> s.ext[i] in s.live)
  }

  lemma RegisterKeepsValid(s: ToolSet, tool: Tool, writeAllowed: bool)
    requires Valid(s) && tool.boundary == CHAT
    ensures Valid(RegisterStep(s, tool, writeAllowed))
  {
    if Registers(s, tool, writeAllowed) {
      var e := Entry(tool.name, tool);
      assert (s.live + [e])[..|s.live|] == s.live;
      assert AddEntries(Base(s.basis).value, s.live + [e]) == s.loaded + [e];
      assert ToolValid(tool, true);
    }
  }

  lemma LoadKeepsValid(s: ToolSet, dir: Directory)
    requires Valid(s) && DirectoryOk(dir)
    ensures Valid(LoadStep(s, dir))
  {
    if dir.Some? && Fresh(dir.value).Some? {
      assert AddEntries(Fresh(dir.value).value, []) == Fresh(dir.value).value;
    }
  }

  lemma HeartbeatKeepsValid(s: ToolSet, dir: Directory)
    requires Valid(s) && DirectoryOk(dir)
    ensures Valid(HeartbeatStep(s, dir))
  {
    if Commits(s, dir) { ReloadValidatesLikeLoad(dir.value); }
  }

  lemma StepKeepsValid(s: ToolSet, step: Step)
    requires Valid(s) && Enabled(step)
    ensures Valid(Next(s, step))
  {
    match step
    case Load(dir) => LoadKeepsValid(s, dir);
    case Hook =>
    case Register(tool, writeAllowed) => RegisterKeepsValid(s, tool, writeAllowed);
    case Heartbeat(dir) => HeartbeatKeepsValid(s, dir);
  }

  lemma {:induction false} RunKeepsValid(s: ToolSet, steps: seq<Step>)
    requires Valid(s) && forall i :: 0 <= i < |steps| ==> Enabled(steps[i])
    ensures Valid(Exec(s, steps))
    decreases |steps|
  {
    if |steps| > 0 {
      StepKeepsValid(s, steps[0]);
      RunKeepsValid(Next(s, steps[0]), steps[1..]);
    }
  }

  /** `s` is the state some run of loads, registrations and heartbeats ends in. */
  predicate Reaches(steps: seq<Step>, s: ToolSet)
  {
    (forall i :: 0 <= i < |steps| ==> Enabled(steps[i])) && s == Exec(Init, steps)
  }

  lemma ReachableValid(steps: seq<Step>, s: ToolSet)
    requires Reaches(steps, s)
    ensures Valid(s)
  {
    RunKeepsValid(Init, steps);
  }

  // ---------- Main results over whole runs ----------

  lemma BaseSafe(basis: Directory, e: Entry)
    requires Base(basis).Some? && e in Base(basis).value
    ensures ToolValid(e.tool, false)
    ensures Keyed(Base(basis).value)
  {
    if basis.Some? {
      var d := Collect(Listing(basis.value)).value;
      CollectKeyed(Listing(basis.value));
      AddEntriesKeyed(d, Named(PLATFORM_DEFS));
      AddEntriesOrigin(d, Named(PLATFORM_DEFS), e);
      PlatformDefsValid();
      if e in d {
        var i :| 0 <= i < |d| && d[i] == e;
        assert Values(d)[i] == e.tool;
      }
    }
  }

  predicate EntrySafe(s: ToolSet, e: Entry)
  {
    && (e.tool.boundary == PLATFORM ==> e.tool.name in PLATFORM_TOOLS)
    && (e.tool.boundary == CHAT && HasWriteCapability(e.tool) ==> e in s.live && e in s.grants)
  }

  lemma LoadedEntrySafe(s: ToolSet, e: Entry)
    requires Valid(s) && e in s.loaded
    ensures EntrySafe(s, e)
  {
    AddEntriesOrigin(Base(s.basis).value, s.live, e);
    assert PLATFORM[0] != CHAT[0];
    if e in Base(s.basis).value {
      BaseSafe(s.basis, e);
    } else {
      var i :| 0 <= i < |s.live| && s.live[i] == e;
      assert ExtensionOk(s.live[i], s.grants);
    }
  }

  lemma LoadedKeyed(s: ToolSet)
    requires Valid(s)
    ensures Keyed(s.loaded)
    ensures forall e :: e in s.ext ==> HasKey(s.loaded, e.key)
  {
    var base := Base(s.basis).value;
    if |base| > 0 { BaseSafe(s.basis, base[0]); }
    AddEntriesKeyed(base, s.live);
    AddEntriesFacts(base, s.live);
    forall e | e in s.ext ensures HasKey(s.loaded, e.key) {
      var i :| 0 <= i < |s.live| && s.live[i] == e;
    }
  }

  /**
    In every reachable state each key is its tool's name, a platform-boundary tool is on the
    allowlist, a chat-boundary tool with a write capability is a live extension tool registered
    with the write opt-in, and every registered extension name is present.
   */
  lemma ReachableSetIsSafe(steps: seq<Step>, s: ToolSet)
    requires Reaches(steps, s)
    ensures Keyed(s.loaded)
    ensures forall e :: e in s.loaded ==> EntrySafe(s, e)
    ensures forall e :: e in s.ext ==> HasKey(s.loaded, e.key)
  {
    ReachableValid(steps, s);
    LoadedKeyed(s);
    forall e | e in s.loaded ensures EntrySafe(s, e) {
      LoadedEntrySafe(s, e);
    }
  }

  lemma {:induction false} ExecNext(s: ToolSet, steps: seq<Step>, step: Step)
    ensures Exec(s, steps + [step]) == Next(Exec(s, steps), step)
    decreases |steps|
  {
    if |steps| == 0 {
      assert steps + [step] == [step] && [step][1..] == [];
    } else {
      assert (steps + [step])[1..] == steps[1..] + [step];
      ExecNext(Next(s, steps[0]), steps[1..], step);
    }
  }

  /** The registrations of extension entries, in order, each with the write opt-in it was granted. */
  function Registrations(es: seq<Entry>, grants: seq<Entry>): seq<Step>
  {
    seq(|es|, i requires 0 <= i < |es| => Register(es[i].tool, es[i] in grants))
  }

  lemma {:induction false} RegisterAll(s: ToolSet, es: seq<Entry>, grants: seq<Entry>)
    requires forall i :: 0 <= i < |es| ==> ExtensionOk(es[i], grants)
    ensures Exec(s, Registrations(es, grants)).loaded == AddEntries(s.loaded, es)
    ensures Exec(s, Registrations(es, grants)).mtimes == s.mtimes
  {
    if |es| > 0 {
      var front, last := es[..|es| - 1], es[|es| - 1];
      RegisterAll(s, front, grants);
      assert ExtensionOk(last, grants);
      assert Registrations(es, grants) == Registrations(front, grants) + [Register(last.tool, last in grants)];
      ExecNext(s, Registrations(front, grants), Register(last.tool, last in grants));
    }
  }

  lemma ReloadCommits(s: ToolSet, files: seq<File>)
    requires s.dirKnown && Changed(s, files)
    ensures var s' := HeartbeatStep(s, Some(files));
      && (Commits(s, Some(files)) <==> Fresh(files).Some?)
      && (Fresh(files).Some? ==>
            && s'.loaded == AddEntries(Fresh(files).value, s.ext)
            && s'.mtimes == Fingerprint(Listing(files)) && s'.ext == s.ext)
      && (Fresh(files).None? ==> s' == s)
  {
    ReloadValidatesLikeLoad(files);
  }

  /**
    In every reachable state, a reload that sees a change commits exactly when a fresh load of the
    same files would not raise.  What it commits is what that load, followed by registering the
    extension tools again in their order, would have left; a refused reload changes nothing.
   */
  lemma ReloadAgreesWithFreshLoad(steps: seq<Step>, s: ToolSet, files: seq<File>)
    requires Reaches(steps, s) && s.dirKnown && Changed(s, files)
    ensures var s' := HeartbeatStep(s, Some(files));
      && (Commits(s, Some(files)) <==> Fresh(files).Some?)
      && (Fresh(files).Some? ==>
            var t := Exec(LoadStep(s, Some(files)), Registrations(s.ext, s.grants));
            s'.loaded == t.loaded && s'.mtimes == t.mtimes && s'.ext == s.ext)
      && (Fresh(files).None? ==> s' == s)
  {
    ReachableValid(steps, s);
    ReloadCommits(s, files);
    forall i | 0 <= i < |s.ext| ensures ExtensionOk(s.ext[i], s.grants) {
      var j :| 0 <= j < |s.live| && s.live[j] == s.ext[i];
    }
    RegisterAll(LoadStep(s, Some(files)), s.ext, s.grants);
  }

  // ---------- Platform names ----------

  predicate Defines(f: File, name: string)
  {
    f.content.Yields? && exists j :: 0 <= j < |f.content.tools| && f.content.tools[j].name == name
  }

  predicate Defined(listing: seq<File>, name: string)
  {
    exists i :: 0 <= i < |listing| && Defines(listing[i], name)
  }

  /** A module's functions are its own, never the stub that stands for a platform tool. */
  predicate OwnHandlers(listing: seq<File>)
  {
    forall i :: 0 <= i < |listing| && listing[i].content.Yields? ==>
      forall j :: 0 <= j < |listing[i].content.tools| ==> listing[i].content.tools[j].handler != STUB
  }

  /** Which keys an addition has, and which of the added entries it takes. */
  lemma {:induction false} AddEntriesKeys(d: Dict, es: seq<Entry>, key: string)
    ensures HasKey(AddEntries(d, es), key) <==> HasKey(d, key) || HasKey(es, key)
  {
    if |es| > 0 {
      var front, last := es[..|es| - 1], es[|es| - 1];
      AddEntriesKeys(d, front, key);
      HasKeyNext(front, last, key);
      HasKeyNext(AddEntries(d, front), last, key);
      assert es == front + [last];
    }
  }

  lemma HasKeyNext(d: Dict, e: Entry, key: string)
    ensures HasKey(d + [e], key) <==> HasKey(d, key) || e.key == key
  {
    assert (d + [e])[|d|] == e;
    if HasKey(d, key) {
      var i :| 0 <= i < |d| && d[i].key == key;
      assert (d + [e])[i] == d[i];
    }
  }

  lemma {:induction false} AddEntriesTakes(d: Dict, es: seq<Entry>, k: nat)
    requires k < |es| && forall i, j :: 0 <= i < j < |es| ==> es[i].key != es[j].key
    ensures es[k] in AddEntries(d, es) <==> es[k] in d || !HasKey(d, es[k].key)
  {
    var front, last := es[..|es| - 1], es[|es| - 1];
    var mid := AddEntries(d, front);
    assert es == front + [last];
    if k < |front| {
      AddEntriesTakes(d, front, k);
      assert front[k] == es[k] && es[k].key != last.key;
    } else {
      AddEntriesKeys(d, front, last.key);
      assert !HasKey(front, last.key);
      AddEntriesFacts(d, front);
      if last in mid {
        AddEntriesOrigin(d, front, last);
      }
      assert last in d ==> last in mid by {
        if last in d { AddedStays(d, front, last); }
      }
    }
  }

  lemma AddedStays(d: Dict, es: seq<Entry>, e: Entry)
    requires e in d
    ensures e in AddEntries(d, es)
  {
    AddEntriesFacts(d, es);
    var i :| 0 <= i < |d| && d[i] == e;
    assert AddEntries(d, es)[i] == e;
  }

  lemma NamedKeys(tools: seq<Tool>, name: string)
    ensures HasKey(Named(tools), name) <==> exists j :: 0 <= j < |tools| && tools[j].name == name
  {
    assert forall j :: 0 <= j < |tools| ==> Named(tools)[j].key == tools[j].name;
  }

  lemma {:induction false} CollectedNames(listing: seq<File>, name: string)
    requires Collect(listing).Some?
    ensures HasKey(Collect(listing).value, name) <==> Defined(listing, name)
  {
    if |listing| > 0 {
      var front, last := listing[..|listing| - 1], listing[|listing| - 1];
      CollectedNames(front, name);
      NamedKeys(last.content.tools, name);
      AddEntriesKeys(Collect(front).value, Named(last.content.tools), name);
      assert forall i :: 0 <= i < |front| ==> front[i] == listing[i];
    }
  }

  lemma {:induction false} CollectedHandlers(listing: seq<File>, e: Entry)
    requires Collect(listing).Some? && OwnHandlers(listing) && e in Collect(listing).value
    ensures e.tool.handler != STUB
  {
    var front, last := listing[..|listing| - 1], listing[|listing| - 1];
    AddEntriesOrigin(Collect(front).value, Named(last.content.tools), e);
    if e in Collect(front).value {
      assert forall i :: 0 <= i < |front| ==> front[i] == listing[i];
      CollectedHandlers(front, e);
    }
  }

  lemma PlatformNamesDistinct()
    ensures forall i, j :: 0 <= i < j < |PLATFORM_DEFS| ==> PLATFORM_DEFS[i].name != PLATFORM_DEFS[j].name
  {
    assert forall i, j :: 0 <= i < j < |PLATFORM_DEFS| ==> |PLATFORM_DEFS[i].name| != |PLATFORM_DEFS[j].name|;
  }

  /**
    After a load each platform name maps to its own definition exactly when no listed file defines
    a tool of that name: a file can replace a platform tool.
   */
  lemma FilesReplacePlatformTools(files: seq<File>, k: nat)
    requires Fresh(files).Some? && k < |PLATFORM_DEFS| && OwnHandlers(Listing(files))
    ensures var own := Entry(PLATFORM_DEFS[k].name, PLATFORM_DEFS[k]);
      && HasKey(Fresh(files).value, own.key)
      && (own in Fresh(files).value <==> !Defined(Listing(files), own.key))
  {
    var d, es := Collect(Listing(files)).value, Named(PLATFORM_DEFS);
    PlatformNamesDistinct();
    assert es[k] == Entry(PLATFORM_DEFS[k].name, PLATFORM_DEFS[k]);
    AddEntriesFacts(d, es);
    AddEntriesTakes(d, es, k);
    CollectedNames(Listing(files), es[k].key);
    if es[k] in d { CollectedHandlers(Listing(files), es[k]); }
  }

  lemma OneFileListed(f: File)
    requires IsVisible(f)
    ensures Listing([f]) == [f]
  {
    var sorted := Sort([f], NameOf);
    assert sorted[0] in sorted && sorted[0] == f;
    var kept := Keep(sorted, IsVisible);
    assert f in kept && kept[0] in kept;
    assert kept == [f];
  }

  lemma OneFileCollects(f: File, t: Tool)
    requires f.content == Yields([t])
    ensures Collect([f]) == Some([Entry(t.name, t)])
  {
    var es := Named([t]);
    assert [] + [f] == [f];
    CollectOne([], f, []);
    var none: Dict := [];
    assert AddEntries(none, es) == AddEntry(AddEntries(none, es[..0]), es[0]);
    assert AddEntries(none, es[..0]) == none;
    assert AddEntry(none, es[0]) == none + [es[0]] == [Entry(t.name, t)];
  }

  lemma OneFileLoads(f: File, t: Tool)
    requires IsVisible(f) && f.content == Yields([t]) && ToolValid(t, false)
    ensures Fresh([f]).Some? && Entry(t.name, t) in Fresh([f]).value
  {
    var d := [Entry(t.name, t)];
    OneFileListed(f);
    OneFileCollects(f, t);
    assert Values(d)[0] == t;
    AddedStays(d, Named(PLATFORM_DEFS), d[0]);
  }

  /** Such a file exists: a chat tool named like a platform tool loads, and takes its place. */
  lemma FileReplacesEscalate(t: Tool, f: File)
    requires t == Tool("escalate", "Ask", map["type" := JString("object")], CHAT, ["pure"], false, false, "mine")
    requires f == File("tools.py", 0, Yields([t]))
    ensures Fresh([f]).Some? && Entry("escalate", t) in Fresh([f]).value && t !in PLATFORM_DEFS
  {
    assert PLATFORM[0] != CHAT[0] && "type" in t.schema && |t.capabilities| == 1;
    OneFileLoads(f, t);
  }

  // ---------- Agreement with the files ----------

  /** Changing a file changes its modification time. */
  predicate Stable(basis: seq<File>, files: seq<File>)
  {
    forall a, b :: a in basis && b in files && a.name == b.name && a.mtime == b.mtime ==> a.content == b.content
  }

  lemma {:induction false} FingerprintHas(listing: seq<File>, i: nat)
    requires DistinctKeys(listing, NameOf) && i < |listing|
    ensures listing[i].name in Fingerprint(listing) && Fingerprint(listing)[listing[i].name] == listing[i].mtime
  {
    var front, last := listing[..|listing| - 1], listing[|listing| - 1];
    if i < |front| {
      FingerprintHas(front, i);
      assert NameOf(listing[i]) != NameOf(last);
    }
  }

  /** The file a tracked name stands for. */
  lemma {:induction false} FingerprintFile(listing: seq<File>, name: string) returns (i: nat)
    requires name in Fingerprint(listing)
    ensures i < |listing| && listing[i].name == name && listing[i].mtime == Fingerprint(listing)[name]
  {
    var last := |listing| - 1;
    if name == listing[last].name {
      i := last;
    } else {
      i := FingerprintFile(listing[..last], name);
    }
  }

  lemma FingerprintKeys(listing: seq<File>)
    requires DistinctKeys(listing, NameOf)
    ensures Fingerprint(listing).Keys == set f | f in listing :: f.name
  {
    forall n | n in Fingerprint(listing) ensures n in set f | f in listing :: f.name {
      var i := FingerprintFile(listing, n);
      assert listing[i] in listing;
    }
    forall f | f in listing ensures f.name in Fingerprint(listing) {
      var i :| 0 <= i < |listing| && listing[i] == f;
      FingerprintHas(listing, i);
    }
  }

  lemma FingerprintUnique(listing: seq<File>, times: map<string, int>)
    requires DistinctKeys(listing, NameOf)
    requires times.Keys == set f | f in listing :: f.name
    ensures times == Fingerprint(listing)
       <==> forall i :: 0 <= i < |listing| ==> listing[i].name in times && times[listing[i].name] == listing[i].mtime
  {
    FingerprintKeys(listing);
    forall i | 0 <= i < |listing| && times == Fingerprint(listing)
      ensures listing[i].name in times && times[listing[i].name] == listing[i].mtime
    {
      FingerprintHas(listing, i);
    }
    forall n | n in times ensures exists i :: 0 <= i < |listing| && listing[i].name == n
                                           && listing[i].mtime == Fingerprint(listing)[n]
    {
      var i := FingerprintFile(listing, n);
    }
  }

  lemma ListingFacts(files: seq<File>)
    requires DistinctKeys(files, NameOf)
    ensures SortedBy(Listing(files), NameOf) && DistinctKeys(Listing(files), NameOf)
    ensures forall f :: f in Listing(files) ==> f in files
  {
    SortSorts(files, NameOf);
    KeepSorted(Sort(files, NameOf), NameOf, IsVisible);
    SortedDistinct(Listing(files), NameOf);
  }

  lemma ListingContained(a: seq<File>, b: seq<File>, f: File)
    requires DistinctKeys(a, NameOf) && DistinctKeys(b, NameOf) && Stable(a, b)
    requires Fingerprint(Listing(a)) == Fingerprint(Listing(b)) && f in Listing(a)
    ensures f in Listing(b)
  {
    ListingFacts(a);
    ListingFacts(b);
    var k :| 0 <= k < |Listing(a)| && Listing(a)[k] == f;
    FingerprintHas(Listing(a), k);
    var i := FingerprintFile(Listing(b), f.name);
    assert Listing(b)[i] in b && f in a;
    assert Listing(b)[i] == f;
  }

  lemma SameListing(a: seq<File>, b: seq<File>)
    requires DistinctKeys(a, NameOf) && DistinctKeys(b, NameOf) && Stable(a, b)
    requires Fingerprint(Listing(a)) == Fingerprint(Listing(b))
    ensures Listing(a) == Listing(b)
  {
    ListingFacts(a);
    ListingFacts(b);
    forall f ensures f in Listing(a) <==> f in Listing(b) {
      if f in Listing(a) { ListingContained(a, b, f); }
      if f in Listing(b) { ListingContained(b, a, f); }
    }
    SortedUnique(Listing(a), Listing(b), NameOf);
  }

  lemma {:induction false} AddEntriesFirst(es: seq<Entry>)
    requires |es| > 0
    ensures |AddEntries([], es)| > 0 && AddEntries([], es)[0] == es[0]
  {
    assert es[..1] == [es[0]] && es[..1][..0] == [];
    assert AddEntries([], es[..1]) == [es[0]];
    if |es| > 1 { AddEntriesFirst(es[..|es| - 1]); }
  }

  /** Extension tools are never platform tools, so a set without injected tools differs from one with them. */
  lemma LiveLacksPlatform(live: Dict, grants: seq<Entry>, platform: Dict)
    requires forall i :: 0 <= i < |live| ==> ExtensionOk(live[i], grants)
    requires |platform| > 0 && platform[0].tool.boundary == PLATFORM
    ensures AddEntries([], live) != AddEntries(platform, live)
  {
    AddEntriesFacts(platform, live);
    assert PLATFORM[0] != CHAT[0];
    if |live| > 0 {
      AddEntriesFirst(live);
      assert ExtensionOk(live[0], grants);
      assert AddEntries(platform, live)[0] == platform[0];
    }
  }

  lemma InjectedFirst()
    ensures |AddEntries([], Named(PLATFORM_DEFS))| > 0
    ensures AddEntries([], Named(PLATFORM_DEFS))[0].tool.boundary == PLATFORM
  {
    AddEntriesFirst(Named(PLATFORM_DEFS));
    assert Named(PLATFORM_DEFS)[0].tool == PLATFORM_DEFS[0];
  }

  lemma EmptyFingerprint(files: seq<File>)
    requires DistinctKeys(files, NameOf)
    ensures Fingerprint(Listing(files)) == map[] <==> |Listing(files)| == 0
  {
    ListingFacts(files);
    if |Listing(files)| > 0 { FingerprintHas(Listing(files), 0); }
  }

  lemma UnchangedAgrees(s: ToolSet, files: seq<File>)
    requires Valid(s) && DistinctKeys(files, NameOf) && Fresh(files).Some? && !Changed(s, files)
    requires s.basis.Some? ==> Stable(s.basis.value, files)
    ensures s.loaded == AddEntries(Fresh(files).value, s.live) <==> s.basis.Some?
  {
    if s.basis.Some? {
      SameListing(s.basis.value, files);
    } else {
      EmptyFingerprint(files);
      InjectedFirst();
      LiveLacksPlatform(s.live, s.grants, Fresh(files).value);
    }
  }

  lemma HeartbeatOn(s: ToolSet, files: seq<File>)
    requires Valid(s) && s.dirKnown && DistinctKeys(files, NameOf) && Fresh(files).Some?
    requires s.basis.Some? ==> Stable(s.basis.value, files)
    ensures var s' := HeartbeatStep(s, Some(files));
      s'.loaded == AddEntries(Fresh(files).value, s'.live) <==> s.basis.Some? || |Listing(files)| > 0
  {
    EmptyFingerprint(files);
    if Changed(s, files) {
      ReloadValidatesLikeLoad(files);
      assert s.basis.None? ==> s.mtimes == map[];
    } else {
      UnchangedAgrees(s, files);
    }
  }

  /**
    After a heartbeat over loadable files, the set is a fresh load of those files plus the live
    extension tools, unless the last load found no directory and there is still no module in it:
    no change is seen then, and the platform tools stay missing.
   */
  lemma HeartbeatAgreesWithDisk(steps: seq<Step>, s: ToolSet, files: seq<File>)
    requires Reaches(steps, s) && s.dirKnown
    requires DistinctKeys(files, NameOf) && Fresh(files).Some?
    requires s.basis.Some? ==> Stable(s.basis.value, files)
    ensures var s' := HeartbeatStep(s, Some(files));
      s'.loaded == AddEntries(Fresh(files).value, s'.live) <==> s.basis.Some? || |Listing(files)| > 0
  {
    ReachableValid(steps, s);
    HeartbeatOn(s, files);
  }

  /** The exception: a load that finds no directory, and then a heartbeat over an empty one. */
  lemma PlatformToolsStayMissing(steps: seq<Step>, s: ToolSet, files: seq<File>)
    requires steps == [Load(None)] && Reaches(steps, s) && files == []
    ensures s.dirKnown && Fresh(files).Some?
    ensures HeartbeatStep(s, Some(files)).loaded == [] != AddEntries(Fresh(files).value, s.live)
  {
    assert [] + steps == steps;
    ExecNext(Init, [], Load(None));
    assert Listing(files) == [];
    InjectedFirst();
  }

  // ---------- Which files count ----------

  /** The files that count are those whose name does not start with an underscore. */
  predicate Counts(f: File)
  {
    f.name == "" || f.name[0] != '_'
  }

  lemma ListedCounts(files: seq<File>, f: File)
    ensures f in Listing(files) <==> f in files && Counts(f)
  {}

  lemma HiddenFileNotListed(files: seq<File>, f: File)
    requires DistinctKeys(files + [f], NameOf) && !Counts(f)
    ensures Listing(files + [f]) == Listing(files)
  {
    var all := files + [f];
    forall i, j | 0 <= i < j < |files| ensures NameOf(files[i]) != NameOf(files[j]) {
      assert all[i] == files[i] && all[j] == files[j];
    }
    ListingFacts(files);
    ListingFacts(all);
    forall g ensures g in Listing(all) <==> g in Listing(files) {
      ListedCounts(all, g);
      ListedCounts(files, g);
    }
    SortedUnique(Listing(all), Listing(files), NameOf);
  }

  /** A file whose name starts with an underscore makes no difference to a load, a heartbeat or a change. */
  lemma HiddenFileNeverMatters(s: ToolSet, files: seq<File>, f: File)
    requires DistinctKeys(files + [f], NameOf) && f.name != "" && f.name[0] == '_'
    ensures Fresh(files + [f]) == Fresh(files)
    ensures Changed(s, files + [f]) <==> Changed(s, files)
    ensures LoadStep(s, Some(files + [f])).(basis := None) == LoadStep(s, Some(files)).(basis := None)
    ensures HeartbeatStep(s, Some(files + [f])).(basis := None) == HeartbeatStep(s, Some(files)).(basis := None)
  {
    HiddenFileNotListed(files, f);
  }

  lemma {:induction false} CollectFails(listing: seq<File>, f: File)
    requires f in listing && f.content.Failed?
    ensures Collect(listing).None?
  {
    var front, last := listing[..|listing| - 1], listing[|listing| - 1];
    if f != last {
      assert listing == front + [last];
      CollectFails(front, f);
    }
  }

  /** Any other file is imported: it can make the load fail, its tools are there after it, and its time is tracked. */
  lemma OtherFileIsImported(s: ToolSet, files: seq<File>, f: File)
    requires DistinctKeys(files, NameOf) && f in files && (f.name == "" || f.name[0] != '_')
    ensures f.content.Failed? ==> Fresh(files).None? && Reloaded(files).None?
    ensures Fresh(files).Some? ==>
      && f.content.Yields?
      && (forall j :: 0 <= j < |f.content.tools| ==> HasKey(Fresh(files).value, f.content.tools[j].name))
      && f.name in LoadStep(s, Some(files)).mtimes && LoadStep(s, Some(files)).mtimes[f.name] == f.mtime
    ensures f.name !in s.mtimes || s.mtimes[f.name] != f.mtime ==> Changed(s, files)
  {
    var l := Listing(files);
    ListedCounts(files, f);
    ListingFacts(files);
    var k :| 0 <= k < |l| && l[k] == f;
    FingerprintHas(l, k);
    if f.content.Failed? {
      CollectFails(l, f);
    } else if Fresh(files).Some? {
      forall j | 0 <= j < |f.content.tools| ensures HasKey(Fresh(files).value, f.content.tools[j].name) {
        var name := f.content.tools[j].name;
        assert Defines(l[k], name);
        CollectedNames(l, name);
        AddEntriesKeys(Collect(l).value, Named(PLATFORM_DEFS), name);
      }
    }
  }

  /** A tracked name without such a file is a change. */
  lemma MissingFileIsSeen(s: ToolSet, files: seq<File>, name: string)
    requires name in s.mtimes && forall f :: f in files && f.name == name ==> name != "" && name[0] == '_'
    ensures Changed(s, files)
  {
    if name in Fingerprint(Listing(files)) {
      var i := FingerprintFile(Listing(files), name);
      assert Listing(files)[i] in Listing(files);
      ListedCounts(files, Listing(files)[i]);
    }
  }

  lemma {:induction false} CollectedFrom(listing: seq<File>, e: Entry)
    requires Collect(listing).Some? && e in Collect(listing).value
    ensures exists i, j :: 0 <= i < |listing| && listing[i].content.Yields? && 0 <= j < |listing[i].content.tools|
                           && listing[i].content.tools[j] == e.tool
  {
    var front, last := listing[..|listing| - 1], listing[|listing| - 1];
    AddEntriesOrigin(Collect(front).value, Named(last.content.tools), e);
    if e in Collect(front).value {
      CollectedFrom(front, e);
      var i, j :| 0 <= i < |front| && front[i].content.Yields? && 0 <= j < |front[i].content.tools|
                  && front[i].content.tools[j] == e.tool;
      assert listing[i].content.tools[j] == e.tool;
    } else {
      var j :| 0 <= j < |Named(last.content.tools)| && Named(last.content.tools)[j] == e;
      assert listing[|listing| - 1].content.tools[j] == e.tool;
    }
  }

  lemma {:induction false} CollectSucceeds(listing: seq<File>)
    requires forall i :: 0 <= i < |listing| ==> listing[i].content.Yields?
    ensures Collect(listing).Some?
  {
    if |listing| > 0 { CollectSucceeds(listing[..|listing| - 1]); }
  }

  /** A load succeeds whenever every file that counts imports and yields only valid tools. */
  lemma GoodFilesLoad(files: seq<File>)
    requires forall f :: f in files && (f.name == "" || f.name[0] != '_') ==>
      f.content.Yields? && forall j :: 0 <= j < |f.content.tools| ==> ToolValid(f.content.tools[j], false)
    ensures Fresh(files).Some?
  {
    var l := Listing(files);
    forall i | 0 <= i < |l| ensures l[i].content.Yields? {
      ListedCounts(files, l[i]);
      assert l[i] in l;
    }
    CollectSucceeds(l);
    var d := Collect(l).value;
    forall i | 0 <= i < |d| ensures ToolValid(Values(d)[i], false) {
      assert d[i] in d;
      CollectedFrom(l, d[i]);
      var k, j :| 0 <= k < |l| && l[k].content.Yields? && 0 <= j < |l[k].content.tools|
                  && l[k].content.tools[j] == d[i].tool;
      ListedCounts(files, l[k]);
      assert l[k] in l;
    }
  }

  // ---------- Which definition wins ----------

  lemma {:induction false} AddEntriesFirstOf(d: Dict, es: seq<Entry>, k: nat)
    requires k < |es| && !HasKey(d, es[k].key) && forall i :: 0 <= i < k ==> es[i].key != es[k].key
    ensures es[k] in AddEntries(d, es)
  {
    var front, last := es[..|es| - 1], es[|es| - 1];
    if k < |front| {
      assert front[k] == es[k] && forall i :: 0 <= i < k ==> front[i] == es[i];
      AddEntriesFirstOf(d, front, k);
      var mid := AddEntries(d, front);
      var i :| 0 <= i < |mid| && mid[i] == es[k];
      assert AddEntries(d, es)[i] == mid[i];
    } else {
      AddEntriesKeys(d, front, last.key);
      assert AddEntries(d, es)[|AddEntries(d, es)| - 1] == last;
    }
  }

  lemma {:induction false} CollectKeeps(listing: seq<File>, n: nat, e: Entry)
    requires n <= |listing| && Collect(listing).Some?
    ensures Collect(listing[..n]).Some?
    ensures e in Collect(listing[..n]).value ==> e in Collect(listing).value
  {
    if n < |listing| {
      var front, last := listing[..|listing| - 1], listing[|listing| - 1];
      CollectKeeps(front, n, e);
      assert front[..n] == listing[..n];
      if e in Collect(front).value { AddedStays(Collect(front).value, Named(last.content.tools), e); }
    } else {
      assert listing[..n] == listing;
    }
  }

  lemma CollectTakesFirst(l: seq<File>, k: nat, j: nat)
    requires k < |l| && Collect(l).Some? && l[k].content.Yields? && j < |l[k].content.tools|
    requires forall i :: 0 <= i < j ==> l[k].content.tools[i].name != l[k].content.tools[j].name
    requires forall i :: 0 <= i < k ==> !Defines(l[i], l[k].content.tools[j].name)
    ensures Entry(l[k].content.tools[j].name, l[k].content.tools[j]) in Collect(l).value
  {
    var e, es := Entry(l[k].content.tools[j].name, l[k].content.tools[j]), Named(l[k].content.tools);
    CollectKeeps(l, k, e);
    CollectKeeps(l, k + 1, e);
    CollectedNames(l[..k], e.key);
    assert forall i :: 0 <= i < k ==> l[..k][i] == l[i];
    assert l[..k + 1] == l[..k] + [l[k]];
    CollectOne(l[..k], l[k], Collect(l[..k]).value);
    assert es[j] == e;
    AddEntriesFirstOf(Collect(l[..k]).value, es, j);
  }

  /** Of several tools with one name the first counts: that of the first file by name, and there the first. */
  lemma FirstDefinitionWins(files: seq<File>, f: File, j: nat)
    requires DistinctKeys(files, NameOf) && Fresh(files).Some?
    requires f in files && (f.name == "" || f.name[0] != '_') && f.content.Yields? && j < |f.content.tools|
    requires forall i :: 0 <= i < j ==> f.content.tools[i].name != f.content.tools[j].name
    requires forall g :: g in files && (g.name == "" || g.name[0] != '_') && Less(g.name, f.name) ==>
      !Defines(g, f.content.tools[j].name)
    ensures Entry(f.content.tools[j].name, f.content.tools[j]) in Fresh(files).value
  {
    var l, e := Listing(files), Entry(f.content.tools[j].name, f.content.tools[j]);
    ListingFacts(files);
    ListedCounts(files, f);
    var k :| 0 <= k < |l| && l[k] == f;
    forall i | 0 <= i < k ensures !Defines(l[i], e.key) {
      assert l[i] in l && Less(NameOf(l[i]), NameOf(l[k]));
      ListedCounts(files, l[i]);
    }
    CollectTakesFirst(l, k, j);
    AddedStays(Collect(l).value, Named(PLATFORM_DEFS), e);
  }

  /** The tools every load injects. */
  lemma PlatformToolsPresent(files: seq<File>)
    requires Fresh(files).Some?
    ensures var names := ["submit_code", "escalate_current_arc", "escalate", "fetch_web_content", "submit_extract"];
      forall name :: name in names ==> HasKey(Fresh(files).value, name)
  {
    var d, es := Collect(Listing(files)).value, Named(PLATFORM_DEFS);
    AddEntriesFacts(d, es);
    assert es[0].key == "submit_code" && es[1].key == "escalate_current_arc" && es[2].key == "escalate";
    assert es[3].key == "fetch_web_content" && es[4].key == "submit_extract";
  }

  // ---------- The loader ----------

  class Loader {
    var loaded: Dict
    var ext: Dict
    var mtimes: map<string, int>
    var dirKnown: bool
    ghost var live: Dict
    ghost var basis: Directory
    ghost var grants: seq<Entry>

    ghost function State(): ToolSet
      reads this
    {
      ToolSet(loaded, ext, mtimes, dirKnown, live, basis, grants)
    }

    constructor ()
      ensures State() == Init && Valid(State())
    {
      loaded, ext, mtimes, dirKnown := [], [], map[], false;
      live, basis, grants := [], None, [];
    }

    static method AddAll(d: Dict, es: seq<Entry>) returns (d': Dict)
      ensures d' == AddEntries(d, es)
    {
      d' := d;
      for i := 0 to |es|
        invariant d' == AddEntries(d, es[..i])
      {
        assert es[..i + 1][..i] == es[..i];
        if !HasKey(d', es[i].key) {
          d' := d' + [es[i]];
        }
      }
      assert es[..|es|] == es;
    }

    /** The import loop that a load and a reload share. */
    static method ImportModules(files: seq<File>) returns (r: Option<Dict>, times: map<string, int>)
      ensures r == Collect(Listing(files))
      ensures r.Some? ==> times == Fingerprint(Listing(files))
    {
      var sorted := Sort(files, NameOf);
      var d: Dict := [];
      times := map[];
      for i := 0 to |sorted|
        invariant Imported(sorted[..i], d, times)
      {
        var f := sorted[i];
        if IsVisible(f) {
          if f.content.Failed? {
            ImportFails(sorted, i, d, times);
            return None, times;
          }
          ImportAdds(sorted, i, d, times);
          d := AddAll(d, Named(f.content.tools));
          times := times[f.name := f.mtime];
        } else {
          ImportSkips(sorted, i, d, times);
        }
      }
      assert sorted[..|sorted|] == sorted;
      r := Some(d);
    }

    static method Validates(d: Dict) returns (ok: bool)
      requires Keyed(d)
      ensures ok <==> DictValid(d)
    {
      var errors := ValidateToolDefs(Values(d), false);
      ok := |errors| == 0;
    }

    method LoadChatTools(dir: Directory) returns (ok: bool)
      requires Valid(State()) && DirectoryOk(dir)
      modifies this
      ensures State() == Next(old(State()), Load(dir)) && Valid(State())
      ensures ok <==> dir.None? || Fresh(dir.value).Some?
      ensures ext == [] && (!ok ==> loaded == old(loaded) && mtimes == old(mtimes))
      ensures dir.None? ==> loaded == [] && mtimes == map[]
      ensures forall f :: dir.Some? && f in dir.value && Counts(f) && f.content.Failed? ==> !ok
      ensures forall f :: ok && dir.Some? && f in dir.value && Counts(f) ==>
        f.content.Yields? && forall j :: 0 <= j < |f.content.tools| ==> HasKey(loaded, f.content.tools[j].name)
    {
      if dir.Some? {
        forall f | f in dir.value && Counts(f)
          ensures f.content.Failed? ==> Fresh(dir.value).None?
          ensures Fresh(dir.value).Some? ==>
            forall j :: 0 <= j < |f.content.tools| ==> HasKey(Fresh(dir.value).value, f.content.tools[j].name)
        {
          OtherFileIsImported(State(), dir.value, f);
        }
      }
      StepKeepsValid(State(), Load(dir));
      dirKnown := true;
      ext := [];
      if dir.None? {
        loaded, mtimes, live, basis := [], map[], [], None;
        return true;
      }
      var tools, times := ImportModules(dir.value);
      if tools.None? {
        return false;
      }
      CollectKeyed(Listing(dir.value));
      var valid := Validates(tools.value);
      if !valid {
        return false;
      }
      loaded := AddAll(tools.value, Named(PLATFORM_DEFS));
      mtimes, live, basis := times, [], dir;
      return true;
    }

    method RegisterReloadHook()
      requires Valid(State())
      modifies this
      ensures State() == Next(old(State()), Hook) && Valid(State())
      ensures dirKnown && loaded == old(loaded) && ext == old(ext) && mtimes == old(mtimes)
    {
      dirKnown := true;
    }

    /** False when validation raises a ValueError. */
    method RegisterExtensionTool(tool: Tool, writeAllowed: bool) returns (ok: bool)
      requires Valid(State()) && tool.boundary == CHAT
      modifies this
      ensures State() == Next(old(State()), Register(tool, writeAllowed)) && Valid(State())
      ensures ok <==> HasKey(old(loaded), tool.name) || ToolValid(tool, writeAllowed)
      ensures var added := if ok && !HasKey(old(loaded), tool.name) then [Entry(tool.name, tool)] else [];
        loaded == old(loaded) + added && ext == old(ext) + added
    {
      StepKeepsValid(State(), Register(tool, writeAllowed));
      if HasKey(loaded, tool.name) {
        return true;
      }
      var errors := ValidateToolDefs([tool], writeAllowed);
      assert [tool][0] == tool;
      if |errors| > 0 {
        return false;
      }
      var e := Entry(tool.name, tool);
      loaded := loaded + [e];
      ext := ext + [e];
      live := live + [e];
      grants := if writeAllowed then grants + [e] else grants;
      return true;
    }

    static method TimesMatch(mtimes: map<string, int>, current: seq<File>) returns (same: bool)
      requires forall i :: 0 <= i < |current| ==> current[i].name in mtimes
      ensures same <==> forall i :: 0 <= i < |current| ==> mtimes[current[i].name] == current[i].mtime
    {
      for i := 0 to |current|
        invariant forall k :: 0 <= k < i ==> mtimes[current[k].name] == current[k].mtime
      {
        if current[i].mtime != mtimes[current[i].name] {
          return false;
        }
      }
      return true;
    }

    static function NamesOf(listing: seq<File>): set<string>
    {
      set f | f in listing :: f.name
    }

    /** The comparison of the current module files with the tracked modification times. */
    static method SeesChange(mtimes: map<string, int>, files: seq<File>) returns (changed: bool)
      requires DistinctKeys(files, NameOf)
      ensures changed <==> Fingerprint(Listing(files)) != mtimes
    {
      var current := Listing(files);
      ListingFacts(files);
      FingerprintKeys(current);
      if NamesOf(current) != mtimes.Keys {
        return true;
      }
      forall i | 0 <= i < |current| ensures current[i].name in mtimes {
        assert current[i] in current && current[i].name in NamesOf(current);
      }
      var same := TimesMatch(mtimes, current);
      FingerprintUnique(current, mtimes);
      return !same;
    }

    method CheckAndReload(dir: Directory)
      requires Valid(State()) && DirectoryOk(dir)
      modifies this
      ensures State() == Next(old(State()), Heartbeat(dir)) && Valid(State())
      ensures !old(dirKnown) || dir.None? ==> State() == old(State())
      ensures ext == old(ext)
    {
      StepKeepsValid(State(), Heartbeat(dir));
      if !dirKnown || dir.None? {
        return;
      }
      var changed := SeesChange(mtimes, dir.value);
      if !changed {
        return;
      }
      Reload(dir.value);
    }

    /** Imports everything again and commits the new set, or keeps the old one. */
    method Reload(files: seq<File>)
      requires dirKnown && Changed(State(), files)
      modifies this
      ensures State() == HeartbeatStep(old(State()), Some(files))
    {
      var tools, times := ImportModules(files);
      if tools.None? {
        return;
      }
      var full := AddAll(tools.value, Named(PLATFORM_DEFS));
      InjectedKeyed(Listing(files));
      var valid := Validates(full);
      if !valid {
        return;
      }
      loaded := AddAll(full, ext);
      mtimes, live, basis := times, ext, Some(files);
    }
  }

  lemma KeepOne(sorted: seq<File>, i: nat)
    requires i < |sorted|
    ensures Keep(sorted[..i + 1], IsVisible)
         == Keep(sorted[..i], IsVisible) + (if IsVisible(sorted[i]) then [sorted[i]] else [])
  {
    var one := [sorted[i]];
    assert sorted[..i + 1] == sorted[..i] + one;
    KeepAppend(sorted[..i], one, IsVisible);
    assert one[1..] == [];
    assert Keep(one, IsVisible) == if IsVisible(sorted[i]) then [sorted[i]] else [];
  }

  lemma KeepRest(sorted: seq<File>, i: nat)
    requires i <= |sorted|
    ensures Keep(sorted, IsVisible) == Keep(sorted[..i], IsVisible) + Keep(sorted[i..], IsVisible)
  {
    assert sorted == sorted[..i] + sorted[i..];
    KeepAppend(sorted[..i], sorted[i..], IsVisible);
  }

  lemma CollectOne(front: seq<File>, f: File, d: Dict)
    requires Collect(front) == Some(d)
    ensures f.content.Failed? ==> Collect(front + [f]) == None
    ensures f.content.Yields? ==> Collect(front + [f]) == Some(AddEntries(d, Named(f.content.tools)))
    ensures Fingerprint(front + [f]) == Fingerprint(front)[f.name := f.mtime]
  {
    assert (front + [f])[..|front|] == front;
  }

  /** What the import loop has gathered from the first files of the sorted listing. */
  predicate Imported(sorted: seq<File>, d: Dict, times: map<string, int>)
  {
    Collect(Keep(sorted, IsVisible)) == Some(d) && times == Fingerprint(Keep(sorted, IsVisible))
  }

  lemma ImportSkips(sorted: seq<File>, i: nat, d: Dict, times: map<string, int>)
    requires i < |sorted| && Imported(sorted[..i], d, times) && !IsVisible(sorted[i])
    ensures Imported(sorted[..i + 1], d, times)
  {
    KeepOne(sorted, i);
    assert Keep(sorted[..i], IsVisible) + [] == Keep(sorted[..i], IsVisible);
  }

  lemma ImportAdds(sorted: seq<File>, i: nat, d: Dict, times: map<string, int>)
    requires i < |sorted| && Imported(sorted[..i], d, times) && IsVisible(sorted[i]) && sorted[i].content.Yields?
    ensures Imported(sorted[..i + 1], AddEntries(d, Named(sorted[i].content.tools)),
                     times[sorted[i].name := sorted[i].mtime])
  {
    KeepOne(sorted, i);
    CollectOne(Keep(sorted[..i], IsVisible), sorted[i], d);
  }

  lemma ImportFails(sorted: seq<File>, i: nat, d: Dict, times: map<string, int>)
    requires i < |sorted| && Imported(sorted[..i], d, times) && IsVisible(sorted[i]) && sorted[i].content.Failed?
    ensures Collect(Keep(sorted, IsVisible)) == None
  {
    KeepOne(sorted, i);
    CollectOne(Keep(sorted[..i], IsVisible), sorted[i], d);
    KeepRest(sorted, i + 1);
    CollectStaysNone(Keep(sorted[..i + 1], IsVisible), Keep(sorted[i + 1..], IsVisible));
  }

  lemma {:induction false} CollectStaysNone(a: seq<File>, b: seq<File>)
    requires Collect(a).None?
    ensures Collect(a + b).None?
  {
    if |b| == 0 {
      assert a + b == a;
    } else {
      assert (a + b)[..|a + b| - 1] == a + b[..|b| - 1];
      CollectStaysNone(a, b[..|b| - 1]);
    }
  }
}
