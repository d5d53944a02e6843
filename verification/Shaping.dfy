/** `applyFingerprintBody` and its helpers: the rewriting of a decoded request body. */
module Shaping {
  import opened Text
  import opened Json

  /** What the rewriting takes from the process: its working directory, and the generated text of a
      compatibility tool. */
  datatype Kit = Kit(directory: string, description: string, schema: string -> Json)

  /** The fingerprint settings; `tools` is the list that `FingerprintTools` gives. */
  datatype Config = Config(forceStream: bool, stripReasoning: bool, stripAdditionalTools: bool, tools: seq<string>)

  const DEFAULT_TOOLS: seq<string> := ["edit", "glob", "grep", "read", "shell"]

  function TrimNames(names: seq<string>): seq<string> {
    if names == [] then []
    else if TrimSpace(names[0]) == "" then TrimNames(names[1..])
    else [TrimSpace(names[0])] + TrimNames(names[1..])
  }

  /** `fingerprintTools` */
  function FingerprintTools(configured: seq<string>): seq<string> {
    if TrimNames(configured) == [] then DEFAULT_TOOLS else TrimNames(configured)
  }

  /** The names that can be injected: those that `toolName` reads back unchanged. */
  predicate Names(names: seq<string>) {
    forall n <- names :: n != "" && TrimSpace(n) == n
  }

  lemma {:induction false} TrimNamesAreNames(names: seq<string>)
    ensures Names(TrimNames(names))
  {
    hide TrimSpace;
    if names != [] {
      TrimNamesAreNames(names[1..]);
      TrimSpaceTrims(names[0]);
    }
  }

  lemma VisibleNames(names: seq<string>)
    requires forall i :: 0 <= i < |names| ==> VisibleEnds(names[i])
    ensures Names(names)
  {
    forall n | n in names
      ensures n != "" && TrimSpace(n) == n
    {
      VisibleEndsAreTrimmed(n);
    }
  }

  lemma DefaultsAreVisible()
    ensures forall i :: 0 <= i < |DEFAULT_TOOLS| ==> VisibleEnds(DEFAULT_TOOLS[i])
    ensures |DEFAULT_TOOLS| == 5
  {
  }

  lemma {:induction false} TrimmedNamesAre(names: seq<string>, name: string)
    ensures name in TrimNames(names) <==> name != "" && exists n <- names :: TrimSpace(n) == name
    ensures TrimNames(names) == [] <==> forall n <- names :: TrimSpace(n) == ""
  {
    hide TrimSpace;
    if names != [] {
      TrimmedNamesAre(names[1..], name);
      assert forall n :: n in names <==> n == names[0] || n in names[1..];
    }
  }

  /** Whatever is configured, the names to inject are trimmed and there is at least one: the configured ones,
      or else the five of the official client. */
  lemma FingerprintToolsAreNames(configured: seq<string>)
    ensures Names(FingerprintTools(configured)) && FingerprintTools(configured) != []
    ensures if forall n <- configured :: TrimSpace(n) == "" then
              FingerprintTools(configured) == ["edit", "glob", "grep", "read", "shell"]
            else
              forall name :: name in FingerprintTools(configured) <==>
                             name != "" && exists n <- configured :: TrimSpace(n) == name
  {
    hide TrimSpace, TrimNames;
    TrimmedNamesAre(configured, "");
    if TrimNames(configured) == [] {
      DefaultsAreVisible();
      VisibleNames(DEFAULT_TOOLS);
    } else {
      TrimNamesAreNames(configured);
      forall name
        ensures name in TrimNames(configured) <==> name != "" && exists n <- configured :: TrimSpace(n) == name
      {
        TrimmedNamesAre(configured, name);
      }
    }
  }

  /** The outcome of one helper: whether it reports a change, and the body it leaves. */
  datatype Edit = Edit(changed: bool, root: Object)

  function Unchanged(root: Object): Edit {
    Edit(false, root)
  }

  function Set(root: Object, key: string, value: Json): Edit {
    Edit(true, root[key := value])
  }

  // ----- the environment block -----

  const ENV_TAG := "<env>"
  const DIRECTORY_LABEL := "Working directory:"

  function Environment(kit: Kit): string {
    "You are a coding agent.\n" + ENV_TAG + "\n" + DIRECTORY_LABEL + " " + kit.directory + "\n</env>"
  }

  predicate Marked(text: string) {
    Contains(text, ENV_TAG) && Contains(text, DIRECTORY_LABEL)
  }

  predicate HasEnvironment(v: Json) {
    match v
    case Str(text) => Marked(text)
    case Arr(items) => exists item <- items :: HasEnvironment(item)
    case Obj(fields) => exists key <- fields :: HasEnvironment(fields[key])
    case _ => false
  }

  predicate IsSystem(message: Json) {
    && message.Obj?
    && (Get(message.fields, "role") == Str("system") || Get(message.fields, "role") == Str("developer"))
  }

  predicate MessagesHaveEnvironment(v: Json) {
    exists m <- ItemsOr(v) :: IsSystem(m) && HasEnvironment(Get(m.fields, "content"))
  }

  function AppendEnvironment(kit: Kit, text: string): string {
    if text == "" then Environment(kit) else text + "\n\n" + Environment(kit)
  }

  function TextBlock(kit: Kit): Json {
    Obj(map["type" := Str("text"), "text" := Str(Environment(kit))])
  }

  /** A system context with the environment at its end; a type that cannot take it gives None. */
  function Extended(kit: Kit, content: Json): Option<Json> {
    match content
    case Null => Some(Str(Environment(kit)))
    case Str(text) => Some(Str(AppendEnvironment(kit, text)))
    case Arr(items) => Some(Arr(items + [TextBlock(kit)]))
    case _ => None
  }

  function AddToInstructions(kit: Kit, root: Object): Edit
    requires "input" in root
  {
    var instructions := Get(root, "instructions");
    if HasEnvironment(instructions) || MessagesHaveEnvironment(root["input"]) then Unchanged(root)
    else if !instructions.Null? && !instructions.Str? then Unchanged(root)
    else Set(root, "instructions", Str(AppendEnvironment(kit, TextOr(instructions))))
  }

  function AddToSystem(kit: Kit, root: Object): Edit {
    var system := Get(root, "system");
    var extended := Extended(kit, system);
    if HasEnvironment(system) || extended.None? then Unchanged(root)
    else Set(root, "system", extended.value)
  }

  function GeminiKey(root: Object): string {
    if "systemInstruction" !in root && "system_instruction" in root then "system_instruction" else "systemInstruction"
  }

  function GeminiPart(kit: Kit): Json {
    Obj(map["text" := Str(Environment(kit))])
  }

  function AddToSystemInstruction(kit: Kit, root: Object): Edit {
    var system := Get(root, GeminiKey(root));
    var parts := Get(FieldsOr(system), "parts");
    if (!system.Null? && !system.Obj?) || HasEnvironment(Obj(FieldsOr(system))) then Unchanged(root)
    else if !parts.Null? && !parts.Arr? then Unchanged(root)
    else Set(root, GeminiKey(root), Obj(FieldsOr(system)["parts" := Arr(ItemsOr(parts) + [GeminiPart(kit)])]))
  }

  /** Index of the first system or developer message, the length when there is none. */
  function FirstSystem(messages: seq<Json>): (i: nat)
    ensures i <= |messages|
    ensures i < |messages| ==> messages[i].Obj? && IsSystem(messages[i])
    ensures forall k :: 0 <= k < i ==> !IsSystem(messages[k])
  {
    if messages == [] || IsSystem(messages[0]) then 0 else 1 + FirstSystem(messages[1..])
  }

  function SystemMessage(kit: Kit): Json {
    Obj(map["role" := Str("system"), "content" := Str(Environment(kit))])
  }

  function WithContent(message: Json, content: Json): Json {
    Obj(FieldsOr(message)["content" := content])
  }

  /** The messages with the environment in their first system message, or in a new one in front. */
  function AddToMessageList(kit: Kit, messages: seq<Json>): Option<seq<Json>> {
    var i := FirstSystem(messages);
    if i == |messages| then Some([SystemMessage(kit)] + messages)
    else
      var extended := Extended(kit, Get(messages[i].fields, "content"));
      if extended.None? then None else Some(messages[i := WithContent(messages[i], extended.value)])
  }

  function AddToMessages(kit: Kit, root: Object): Edit {
    var messages := Get(root, "messages");
    var added := AddToMessageList(kit, ItemsOr(messages));
    if MessagesHaveEnvironment(messages) || (!messages.Null? && !messages.Arr?) || added.None? then Unchanged(root)
    else Set(root, "messages", Arr(added.value))
  }

  function EnsureEnvironment(kit: Kit, root: Object, source: string): Edit {
    if "input" in root then AddToInstructions(kit, root)
    else if source == "claude" then AddToSystem(kit, root)
    else if source == "gemini" then AddToSystemInstruction(kit, root)
    else AddToMessages(kit, root)
  }

  // ----- tools -----

  /** `toolName` */
  function ToolName(tool: Json): string {
    var m := FieldsOr(tool);
    var own := TrimSpace(TextOr(Get(m, "name")));
    if own != "" then own else TrimSpace(TextOr(Get(FieldsOr(Get(m, "function")), "name")))
  }

  predicate HasTool(tools: seq<Json>, name: string) {
    exists t <- tools :: ToolName(t) == name
  }

  /** A tool joins a list unless one of its name is there. */
  function AddTool(tools: seq<Json>, tool: Json): seq<Json> {
    if HasTool(tools, ToolName(tool)) then tools else tools + [tool]
  }

  function AddTools(tools: seq<Json>, more: seq<Json>): seq<Json> {
    if more == [] then tools else AddTool(AddTools(tools, more[..|more| - 1]), more[|more| - 1])
  }

  lemma HasToolGrows(tools: seq<Json>, tool: Json)
    ensures forall name :: HasTool(tools + [tool], name) <==> HasTool(tools, name) || name == ToolName(tool)
  {
    forall name
      ensures HasTool(tools + [tool], name) <==> HasTool(tools, name) || name == ToolName(tool)
    {
      if HasTool(tools, name) {
        var t :| t in tools && ToolName(t) == name;
        assert t in tools + [tool];
      }
      assert tool in tools + [tool];
    }
  }

  lemma {:induction false} AddToolsExtends(tools: seq<Json>, more: seq<Json>)
    ensures tools <= AddTools(tools, more)
  {
    if more != [] {
      AddToolsExtends(tools, more[..|more| - 1]);
    }
  }

  datatype Protocol = Chat | Responses | Claude | Gemini

  function Declaration(kit: Kit, name: string, schemaKey: string): Object {
    map["name" := Str(name), "description" := Str(kit.description), schemaKey := kit.schema(name)]
  }

  /** The tool entry builders. */
  function ToolEntry(kit: Kit, protocol: Protocol, name: string): Json {
    match protocol
    case Chat => Obj(map["type" := Str("function"), "function" := Obj(Declaration(kit, name, "parameters"))])
    case Responses => Obj(Declaration(kit, name, "parameters")["type" := Str("function")])
    case Claude => Obj(Declaration(kit, name, "input_schema"))
    case Gemini => Obj(Declaration(kit, name, "parameters"))
  }

  function ToolEntries(kit: Kit, protocol: Protocol, names: seq<string>): seq<Json> {
    seq(|names|, i requires 0 <= i < |names| => ToolEntry(kit, protocol, names[i]))
  }

  lemma TrimNothing()
    ensures TrimSpace("") == ""
  {
    TrimSpaceFixes("");
  }

  lemma OwnName(m: Object, name: string)
    requires name != "" && TrimSpace(name) == name && Get(m, "name") == Str(name)
    ensures ToolName(Obj(m)) == name
  {
  }

  lemma FunctionName(m: Object, name: string)
    requires name != "" && TrimSpace(name) == name
    requires "name" !in m && Get(FieldsOr(Get(m, "function")), "name") == Str(name)
    ensures ToolName(Obj(m)) == name
  {
    TrimNothing();
  }

  lemma ToolEntryName(kit: Kit, protocol: Protocol, name: string)
    requires name != "" && TrimSpace(name) == name
    ensures ToolName(ToolEntry(kit, protocol, name)) == name
  {
    var m := ToolEntry(kit, protocol, name).fields;
    if protocol.Chat? {
      FunctionName(m, name);
    } else {
      OwnName(m, name);
    }
  }

  function EnsureTools(kit: Kit, protocol: Protocol, names: seq<string>, root: Object): Edit {
    var existing := ItemsOr(Get(root, "tools"));
    var tools := AddTools(existing, ToolEntries(kit, protocol, names));
    if |tools| == |existing| then Unchanged(root) else Set(root, "tools", Arr(tools))
  }

  /** A tool group that the host's Gemini translators read. */
  predicate IsGroup(tool: Json) {
    tool.Obj? && Get(tool.fields, "functionDeclarations").Arr?
  }

  function Declarations(tool: Json): seq<Json> {
    if IsGroup(tool) then Get(tool.fields, "functionDeclarations").items else []
  }

  function AllDeclarations(tools: seq<Json>): seq<Json> {
    if tools == [] then [] else AllDeclarations(tools[..|tools| - 1]) + Declarations(tools[|tools| - 1])
  }

  /** Index of the first group, the length when there is none. */
  function FirstGroup(tools: seq<Json>): (i: nat)
    ensures i <= |tools|
    ensures i < |tools| ==> IsGroup(tools[i])
    ensures forall k :: 0 <= k < i ==> !IsGroup(tools[k])
  {
    if tools == [] || IsGroup(tools[0]) then 0 else 1 + FirstGroup(tools[1..])
  }

  function Regroup(tool: Json, declarations: seq<Json>): Json {
    Obj(FieldsOr(tool)["functionDeclarations" := Arr(declarations)])
  }

  function Missing(kit: Kit, names: seq<string>, tools: seq<Json>): seq<Json> {
    var declared := AllDeclarations(tools);
    var all := AddTools(declared, ToolEntries(kit, Gemini, names));
    if |declared| <= |all| then all[|declared|..] else []
  }

  function EnsureGeminiTools(kit: Kit, names: seq<string>, root: Object): Edit {
    var tools := ItemsOr(Get(root, "tools"));
    var missing, i := Missing(kit, names, tools), FirstGroup(tools);
    if missing == [] then Unchanged(root)
    else if i == |tools| then Set(root, "tools", Arr(tools + [Regroup(Obj(map[]), missing)]))
    else Set(root, "tools", Arr(tools[i := Regroup(tools[i], Declarations(tools[i]) + missing)]))
  }

  // ----- Responses hygiene -----

  function ForceStream(root: Object): Edit {
    if Get(root, "stream") == Bool(true) then Unchanged(root) else Set(root, "stream", Bool(true))
  }

  function ForbidStore(root: Object): Edit {
    if Get(root, "store") == Bool(false) then Unchanged(root) else Set(root, "store", Bool(false))
  }

  const CAP_KEYS: set<string> := {"max_tokens", "max_completion_tokens"}

  function TakeCap(root: Object): Object {
    if "max_output_tokens" in root then root
    else if Get(root, "max_completion_tokens").Num? then root["max_output_tokens" := root["max_completion_tokens"]]
    else if Get(root, "max_tokens").Num? then root["max_output_tokens" := root["max_tokens"]]
    else root
  }

  /** `normalizeMaxOutputTokens` */
  function NormalizeCaps(root: Object): Edit {
    Edit("max_tokens" in root || "max_completion_tokens" in root, TakeCap(root) - CAP_KEYS)
  }

  /** `isItemType`; `want` is one of the lower-case words the code passes. */
  predicate IsItemType(item: Json, want: string) {
    EqualFold(TrimSpace(TextOr(Get(FieldsOr(item), "type"))), want)
  }

  predicate IsReasoning(item: Json) {
    item.Obj? && IsItemType(item, "reasoning")
  }

  const ENCRYPTED_KEYS: set<string> := {"encrypted_content", "reasoning_encrypted_content"}

  predicate HasEncrypted(item: Json) {
    item.Obj? && ("encrypted_content" in item.fields || "reasoning_encrypted_content" in item.fields)
  }

  function Decrypted(item: Json): Json {
    if item.Obj? then Obj(item.fields - ENCRYPTED_KEYS) else item
  }

  function WithoutReasoning(items: seq<Json>): seq<Json> {
    if items == [] then []
    else
      WithoutReasoning(items[..|items| - 1]) +
      if IsReasoning(items[|items| - 1]) then [] else [Decrypted(items[|items| - 1])]
  }

  predicate HasReasoning(items: seq<Json>) {
    exists item <- items :: IsReasoning(item) || HasEncrypted(item)
  }

  /** `stripReasoningItems` */
  function StripReasoning(root: Object): Edit {
    var input := Get(root, "input");
    if !input.Arr? || !HasReasoning(input.items) then Unchanged(root)
    else Set(root, "input", Arr(WithoutReasoning(input.items)))
  }

  /** `isResponsesWire` */
  predicate IsResponsesWire(toFormat: string) {
    EqualFold(TrimSpace(toFormat), "codex") || EqualFold(TrimSpace(toFormat), "openai-response")
  }

  predicate IsAdditional(item: Json) {
    IsItemType(item, "additional_tools")
  }

  function WithoutAdditional(items: seq<Json>): seq<Json> {
    if items == [] then []
    else
      WithoutAdditional(items[..|items| - 1]) + if IsAdditional(items[|items| - 1]) then [] else [items[|items| - 1]]
  }

  predicate Promotable(tool: Json) {
    IsItemType(tool, "function") && ToolName(tool) != ""
  }

  function PromotableOf(tools: seq<Json>): seq<Json> {
    if tools == [] then []
    else PromotableOf(tools[..|tools| - 1]) + if Promotable(tools[|tools| - 1]) then [tools[|tools| - 1]] else []
  }

  function NestedTools(item: Json): seq<Json> {
    if IsAdditional(item) then ItemsOr(Get(FieldsOr(item), "tools")) else []
  }

  function Promoted(items: seq<Json>): seq<Json> {
    if items == [] then []
    else Promoted(items[..|items| - 1]) + PromotableOf(NestedTools(items[|items| - 1]))
  }

  /** `stripAdditionalTools` */
  function StripAdditional(root: Object): Edit {
    var input := Get(root, "input");
    if !input.Arr? || |WithoutAdditional(input.items)| == |input.items| then Unchanged(root)
    else
      var kept := root["input" := Arr(WithoutAdditional(input.items))];
      var tools := AddTools(ItemsOr(Get(root, "tools")), Promoted(input.items));
      Edit(true, if tools == [] then kept else kept["tools" := Arr(tools)])
  }

  // ----- the whole -----

  /** One helper after another: the flags add up. */
  function And(first: Edit, second: Edit): Edit {
    Edit(first.changed || second.changed, second.root)
  }

  function If(condition: bool, root: Object, edit: Edit): Edit {
    if condition then edit else Unchanged(root)
  }

  function Hygiene(cfg: Config, toFormat: string, root: Object): Edit {
    var a := ForbidStore(root);
    var b := And(a, NormalizeCaps(a.root));
    var c := And(b, If(cfg.stripReasoning, b.root, StripReasoning(b.root)));
    And(c, If(IsResponsesWire(toFormat) && cfg.stripAdditionalTools, c.root, StripAdditional(c.root)))
  }

  /** A body with `input`: no stored state, no caps of another API, nothing upstream refuses. */
  function ShapeResponses(kit: Kit, cfg: Config, toFormat: string, root: Object): Edit {
    var clean := Hygiene(cfg, toFormat, root);
    And(clean, EnsureTools(kit, Responses, cfg.tools, clean.root))
  }

  function DeclareTools(kit: Kit, cfg: Config, source: string, root: Object): Edit {
    if source == "claude" then EnsureTools(kit, Claude, cfg.tools, root)
    else if source == "gemini" then EnsureGeminiTools(kit, cfg.tools, root)
    else EnsureTools(kit, Chat, cfg.tools, root)
  }

  /** What every protocol gets first: the environment, and streaming unless the URL carries it. */
  function Opening(kit: Kit, cfg: Config, source: string, root: Object): Edit {
    var a := EnsureEnvironment(kit, root, source);
    And(a, If(source != "gemini" && cfg.forceStream, a.root, ForceStream(a.root)))
  }

  function Shape(kit: Kit, cfg: Config, source: string, toFormat: string, root: Object): Edit {
    var begun := Opening(kit, cfg, source, root);
    And(begun, if "input" in begun.root then ShapeResponses(kit, cfg, toFormat, begun.root)
                else DeclareTools(kit, cfg, source, begun.root))
  }
}
