/** The allowlists and the validation of chat tool definitions. */
module ToolRegistry {
  import opened Messages

  datatype Tool = Tool(
    name: string,
    description: string,
    schema: map<string, Json>,
    boundary: string,
    capabilities: seq<string>,
    alwaysAvailable: bool,
    requiresConfirm: bool,
    handler: string)

  const CHAT: string := "chat"
  const PLATFORM: string := "platform"

  const PLATFORM_TOOLS: set<string> := {
    "submit_code", "escalate_current_arc", "escalate", "fetch_web_content", "submit_extract",
    "set_conversation_model", "install_package", "uninstall_package", "budget_control",
    "request_package_install", "list_available_packages"}

  const READ_CAPABILITIES: set<string> := {"filesystem_read", "database_read", "kb_read", "config_read", "pure"}
  const WRITE_CAPABILITIES: set<string> := {"filesystem_write", "database_write", "arc_create", "external_effect"}

  datatype ToolError =
    | DuplicateName(name: string)
    | InvalidBoundary(name: string)
    | NotAllowlisted(name: string)
    | UnknownCapability(name: string, capability: string)
    | PureMixed(name: string)
    | WriteCapability(name: string)
    | EmptyDescription(name: string)
    | EmptySchema(name: string)

  predicate HasWriteCapability(t: Tool)
  {
    exists i :: 0 <= i < |t.capabilities| && t.capabilities[i] in WRITE_CAPABILITIES
  }

  /** One definition on its own; `writeAllowed` is the operator's opt-in for chat-boundary write capabilities. */
  predicate ToolValid(t: Tool, writeAllowed: bool)
  {
    && (t.boundary == CHAT || t.boundary == PLATFORM)
    && (t.boundary == PLATFORM ==> t.name in PLATFORM_TOOLS)
    && (forall i :: 0 <= i < |t.capabilities| ==> t.capabilities[i] in READ_CAPABILITIES + WRITE_CAPABILITIES)
    && ("pure" in t.capabilities ==> |t.capabilities| <= 1)
    && (t.boundary == CHAT && !writeAllowed ==> !HasWriteCapability(t))
    && t.description != ""
    && t.schema != map[]
  }

  predicate AllToolsValid(tools: seq<Tool>, writeAllowed: bool)
  {
    forall i :: 0 <= i < |tools| ==> ToolValid(tools[i], writeAllowed)
  }

  predicate DistinctNames(tools: seq<Tool>)
  {
    forall i, j :: 0 <= i < j < |tools| ==> tools[i].name != tools[j].name
  }

  /** The lists of the program, name by name. */
  lemma AllowlistsAre(s: string)
    ensures s in PLATFORM_TOOLS <==>
      || s in ["submit_code", "escalate_current_arc", "escalate", "fetch_web_content", "submit_extract"]
      || s in ["set_conversation_model", "install_package", "uninstall_package", "budget_control"]
      || s in ["request_package_install", "list_available_packages"]
    ensures s in READ_CAPABILITIES <==> s in ["filesystem_read", "database_read", "kb_read", "config_read", "pure"]
    ensures s in WRITE_CAPABILITIES <==> s in ["filesystem_write", "database_write", "arc_create", "external_effect"]
  {}

  // ---------- What is reported ----------

  /** The error a definition earns by itself. */
  predicate Offends(t: Tool, writeAllowed: bool, e: ToolError)
  {
    match e
    case DuplicateName(_) => false
    case InvalidBoundary(name) => name == t.name && t.boundary != "chat" && t.boundary != "platform"
    case NotAllowlisted(name) => name == t.name && t.boundary == "platform" && t.name !in PLATFORM_TOOLS
    case UnknownCapability(_, _) => OffendsByCapability(t, writeAllowed, e)
    case PureMixed(_) => OffendsByCapability(t, writeAllowed, e)
    case WriteCapability(_) => OffendsByCapability(t, writeAllowed, e)
    case EmptyDescription(name) => name == t.name && t.description == ""
    case EmptySchema(name) => name == t.name && t.schema == map[]
  }

  predicate OffendsByCapability(t: Tool, writeAllowed: bool, e: ToolError)
  {
    match e
    case UnknownCapability(name, c) =>
      name == t.name && c in t.capabilities && c !in READ_CAPABILITIES && c !in WRITE_CAPABILITIES
    case PureMixed(name) => name == t.name && "pure" in t.capabilities && |t.capabilities| > 1
    case WriteCapability(name) => name == t.name && t.boundary == "chat" && !writeAllowed && HasWriteCapability(t)
    case _ => false
  }

  /** Every error is reported that some definition earns, or that two of one name earn together. */
  predicate Reported(tools: seq<Tool>, writeAllowed: bool, e: ToolError)
  {
    || (exists i :: 0 <= i < |tools| && Offends(tools[i], writeAllowed, e))
    || (e.DuplicateName? && exists i, j :: 0 <= i < j < |tools| && tools[i].name == tools[j].name == e.name)
  }

  lemma ReportedNext(tools: seq<Tool>, i: nat, writeAllowed: bool, e: ToolError)
    requires i < |tools|
    ensures Reported(tools[..i + 1], writeAllowed, e) <==>
      || Reported(tools[..i], writeAllowed, e)
      || Offends(tools[i], writeAllowed, e)
      || (e.DuplicateName? && e.name == tools[i].name && exists k :: 0 <= k < i && tools[k].name == e.name)
  {
    var before, now := tools[..i], tools[..i + 1];
    assert now[i] == tools[i] && forall k :: 0 <= k < i ==> now[k] == before[k] == tools[k];
    if exists k :: 0 <= k < i && Offends(before[k], writeAllowed, e) {
      var k :| 0 <= k < i && Offends(before[k], writeAllowed, e);
      assert Offends(now[k], writeAllowed, e);
    }
    if Offends(tools[i], writeAllowed, e) { assert Offends(now[i], writeAllowed, e); }
  }

  /** No error is earned by a valid definition, and a definition that is not valid earns one. */
  lemma ValidEarnsNothing(t: Tool, writeAllowed: bool)
    ensures ToolValid(t, writeAllowed) <==> forall e :: !Offends(t, writeAllowed, e)
  {
    if forall e :: !Offends(t, writeAllowed, e) {
      assert !Offends(t, writeAllowed, InvalidBoundary(t.name)) && !Offends(t, writeAllowed, NotAllowlisted(t.name));
      assert !Offends(t, writeAllowed, PureMixed(t.name)) && !Offends(t, writeAllowed, WriteCapability(t.name));
      assert !Offends(t, writeAllowed, EmptyDescription(t.name)) && !Offends(t, writeAllowed, EmptySchema(t.name));
      forall i | 0 <= i < |t.capabilities| ensures t.capabilities[i] in READ_CAPABILITIES + WRITE_CAPABILITIES {
        assert !Offends(t, writeAllowed, UnknownCapability(t.name, t.capabilities[i]));
      }
    }
  }

  /** A list of definitions is without errors exactly when each is valid and no two share a name. */
  lemma CleanMeansValid(tools: seq<Tool>, writeAllowed: bool)
    ensures (forall e :: !Reported(tools, writeAllowed, e)) <==>
      AllToolsValid(tools, writeAllowed) && DistinctNames(tools)
  {
    if forall e :: !Reported(tools, writeAllowed, e) {
      forall i | 0 <= i < |tools| ensures ToolValid(tools[i], writeAllowed) {
        forall e ensures !Offends(tools[i], writeAllowed, e) { assert !Reported(tools, writeAllowed, e); }
        ValidEarnsNothing(tools[i], writeAllowed);
      }
      forall i, j | 0 <= i < j < |tools| ensures tools[i].name != tools[j].name {
        assert !Reported(tools, writeAllowed, DuplicateName(tools[i].name));
      }
    }
    if AllToolsValid(tools, writeAllowed) && DistinctNames(tools) {
      forall e ensures !Reported(tools, writeAllowed, e) {
        forall i | 0 <= i < |tools| ensures !Offends(tools[i], writeAllowed, e) {
          ValidEarnsNothing(tools[i], writeAllowed);
        }
      }
    }
  }

  // ---------- The checks ----------

  method CheckCapabilities(t: Tool, writeAllowed: bool) returns (errors: seq<ToolError>)
    ensures forall e :: e in errors <==> OffendsByCapability(t, writeAllowed, e)
  {
    errors := [];
    var writes := false;
    for i := 0 to |t.capabilities|
      invariant forall e :: e in errors <==>
        && e.UnknownCapability? && e.name == t.name && e.capability in t.capabilities[..i]
        && e.capability !in READ_CAPABILITIES && e.capability !in WRITE_CAPABILITIES
      invariant writes <==> exists k :: 0 <= k < i && t.capabilities[k] in WRITE_CAPABILITIES
    {
      var capability := t.capabilities[i];
      assert t.capabilities[..i + 1] == t.capabilities[..i] + [capability];
      if capability !in READ_CAPABILITIES + WRITE_CAPABILITIES {
        errors := errors + [UnknownCapability(t.name, capability)];
      }
      if capability in WRITE_CAPABILITIES {
        writes := true;
      }
    }
    assert t.capabilities[..|t.capabilities|] == t.capabilities;
    if "pure" in t.capabilities && |t.capabilities| > 1 {
      errors := errors + [PureMixed(t.name)];
    }
    if t.boundary == CHAT && !writeAllowed && writes {
      errors := errors + [WriteCapability(t.name)];
    }
  }

  /** The errors of one definition, apart from a name seen before. */
  method CheckOne(t: Tool, writeAllowed: bool) returns (errors: seq<ToolError>)
    ensures forall e :: e in errors <==> Offends(t, writeAllowed, e)
  {
    errors := [];
    if t.boundary != CHAT && t.boundary != PLATFORM {
      errors := errors + [InvalidBoundary(t.name)];
    }
    if t.boundary == PLATFORM && t.name !in PLATFORM_TOOLS {
      errors := errors + [NotAllowlisted(t.name)];
    }
    var capabilityErrors := CheckCapabilities(t, writeAllowed);
    errors := errors + capabilityErrors;
    if t.description == "" {
      errors := errors + [EmptyDescription(t.name)];
    }
    if t.schema == map[] {
      errors := errors + [EmptySchema(t.name)];
    }
  }

  /** Exactly the errors the definitions earn; none exactly when all are valid and no two share a name. */
  method ValidateToolDefs(tools: seq<Tool>, writeAllowed: bool) returns (errors: seq<ToolError>)
    ensures forall e :: e in errors <==> Reported(tools, writeAllowed, e)
    ensures |errors| == 0 <==> AllToolsValid(tools, writeAllowed) && DistinctNames(tools)
  {
    errors := [];
    var seen: set<string> := {};
    for i := 0 to |tools|
      invariant seen == set k | 0 <= k < i :: tools[k].name
      invariant forall e :: e in errors <==> Reported(tools[..i], writeAllowed, e)
    {
      var t := tools[i];
      forall e { ReportedNext(tools, i, writeAllowed, e); }
      if t.name in seen {
        errors := errors + [DuplicateName(t.name)];
      }
      seen := seen + {t.name};
      var own := CheckOne(t, writeAllowed);
      errors := errors + own;
    }
    assert tools[..|tools|] == tools;
    CleanMeansValid(tools, writeAllowed);
    if |errors| > 0 { assert errors[0] in errors; }
  }
}
