/** What a shaped body is: postconditions, what it keeps of the client's, and shaping it again. */
module ShapingTheorems {
  import opened Text
  import opened Json
  import opened Pointwise
  import opened Shaping
  import opened ShapingLists
  import opened EnvironmentBlock
  import opened GeminiTools
  import Sequences

  function StripsOf(cfg: Config, toFormat: string): Strips {
    Strips(cfg.stripReasoning, IsResponsesWire(toFormat) && cfg.stripAdditionalTools)
  }

  function StrippedInput(strips: Strips, input: Json): Json {
    if input.Arr? then Arr(Stripped(strips, input.items)) else input
  }

  /** The tools that leave the input for the top level. */
  function PromotedTools(strips: Strips, input: Json): seq<Json> {
    if strips.additional && input.Arr? then Promoted(input.items) else []
  }

  function OtherInput(input: Json): Json {
    if input.Arr? then Arr(WithoutAdditional(input.items)) else input
  }

  // ----- the two strips -----

  lemma ReasoningStrip(root: Object)
    requires "input" in root
    ensures StripReasoning(root).root == root["input" := StrippedInput(Strips(true, false), root["input"])]
  {
    hide IsReasoning, HasEncrypted, Decrypted, HasReasoning, IsAdditional;
    var input := root["input"];
    if input.Arr? {
      WithoutReasoningIs(input.items);
      NoReasoningIsClean(input.items);
      if !HasReasoning(input.items) {
        CleanIsLeft(Strips(true, false), input.items);
      }
    }
  }

  lemma {:induction false} WithoutAdditionalLength(items: seq<Json>)
    ensures |WithoutAdditional(items)| <= |items|
    ensures |WithoutAdditional(items)| == |items| ==> WithoutAdditional(items) == items
    ensures |WithoutAdditional(items)| == |items| <==> forall item <- items :: !IsAdditional(item)
  {
    hide IsAdditional;
    if items != [] {
      var init, item := items[..|items| - 1], items[|items| - 1];
      WithoutAdditionalLength(init);
      NoneOfLonger(items);
      Sequences.Unit(WithoutAdditional(init));
      if !IsAdditional(item) {
        assert WithoutAdditional(items) == WithoutAdditional(init) + [item];
      }
    }
  }

  lemma NoneOfLonger(items: seq<Json>)
    requires items != []
    ensures items == items[..|items| - 1] + [items[|items| - 1]]
    ensures (forall item <- items :: !IsAdditional(item)) <==>
            (forall item <- items[..|items| - 1] :: !IsAdditional(item)) && !IsAdditional(items[|items| - 1])
  {
    hide IsAdditional;
    var init, last := items[..|items| - 1], items[|items| - 1];
    assert forall x :: x in items <==> x in init || x == last;
  }

  lemma {:induction false} NonePromoted(items: seq<Json>)
    requires forall item <- items :: !IsAdditional(item)
    ensures Promoted(items) == []
  {
    hide IsAdditional, Promotable;
    if items != [] {
      NonePromoted(items[..|items| - 1]);
      assert items[|items| - 1] in items;
    }
  }

  lemma AdditionalStrip(root: Object)
    requires "input" in root
    ensures var e, input := StripAdditional(root), root["input"];
            && "input" in e.root && e.root["input"] == OtherInput(input)
            && ItemsOr(Get(e.root, "tools")) ==
               AddTools(ItemsOr(Get(root, "tools")), PromotedTools(Strips(false, true), input))
            && (ItemsOr(Get(e.root, "tools")) == [] ==> Lookup(e.root, "tools") == Lookup(root, "tools"))
            && Differ(root, e.root, {"input", "tools"})
  {
    hide IsAdditional, Promotable, ToolName;
    var input := root["input"];
    if input.Arr? {
      WithoutAdditionalLength(input.items);
      if |WithoutAdditional(input.items)| == |input.items| {
        NonePromoted(input.items);
      }
      AddToolsExtends(ItemsOr(Get(root, "tools")), Promoted(input.items));
    }
  }

  lemma {:induction false} PromotionIgnoresReasoning(items: seq<Json>)
    ensures Promoted(Stripped(Strips(true, false), items)) == Promoted(items)
  {
    hide IsReasoning, IsAdditional, Decrypted, Promotable;
    if items != [] {
      var strips := Strips(true, false);
      var init, item := items[..|items| - 1], items[|items| - 1];
      PromotionIgnoresReasoning(init);
      StrippedLast(strips, items);
      SameNested(strips, item);
      if Goes(strips, item) {
        Sequences.Unit(Promoted(init));
      } else {
        Sequences.DropLast(Stripped(strips, init), Kept(strips, item));
      }
    }
  }

  lemma SameNested(strips: Strips, item: Json)
    ensures NestedTools(Kept(strips, item)) == NestedTools(item)
    ensures IsReasoning(item) ==> NestedTools(item) == []
  {
    hide IsItemType;
    KeptKeepsItsType(strips, item);
    KeptReadsTheSame(strips, item);
    ItemKeysAreNotEncrypted();
    OneType(item);
  }

  lemma OneType(item: Json)
    ensures IsItemType(item, "reasoning") ==> !IsItemType(item, "additional_tools")
  {
    hide TrimSpace, Fold;
  }

  // ----- a Responses body -----

  const CLEANED: set<string> := {"store", "max_output_tokens", "max_tokens", "max_completion_tokens", "input", "tools"}

  lemma CapsOutcome(root: Object)
    ensures var e := NormalizeCaps(root);
            && "max_tokens" !in e.root && "max_completion_tokens" !in e.root
            && Lookup(e.root, "max_output_tokens") == Lookup(TakeCap(root), "max_output_tokens")
            && Differ(root, e.root, {"max_output_tokens", "max_tokens", "max_completion_tokens"})
  {
  }

  lemma DifferAgain(a: Object, b: Object, c: Object, x: set<string>, y: set<string>, z: set<string>)
    requires Differ(a, b, x) && Differ(b, c, y) && x <= z && y <= z
    ensures Differ(a, c, z)
  {
  }

  lemma CapIsApart(root: Object, a: Object)
    requires Differ(root, a, {"store"})
    ensures Lookup(TakeCap(root), "max_output_tokens") == Lookup(TakeCap(a), "max_output_tokens")
  {
    assert Lookup(root, "max_output_tokens") == Lookup(a, "max_output_tokens");
    assert Lookup(root, "max_completion_tokens") == Lookup(a, "max_completion_tokens");
    assert Lookup(root, "max_tokens") == Lookup(a, "max_tokens");
  }

  function NoStoreNoCaps(root: Object): Object {
    NormalizeCaps(ForbidStore(root).root).root
  }

  lemma NoStoreNoCapsOutcome(root: Object)
    ensures var h := NoStoreNoCaps(root);
            && Get(h, "store") == Bool(false)
            && "max_tokens" !in h && "max_completion_tokens" !in h
            && Lookup(h, "max_output_tokens") == Lookup(TakeCap(root), "max_output_tokens")
            && Lookup(h, "input") == Lookup(root, "input") && Lookup(h, "tools") == Lookup(root, "tools")
            && Differ(root, h, CLEANED)
  {
    hide NormalizeCaps, TakeCap;
    var a := ForbidStore(root).root;
    assert Differ(root, a, {"store"});
    CapsOutcome(a);
    CapIsApart(root, a);
    DifferAgain(root, a, NoStoreNoCaps(root), {"store"},
                {"max_output_tokens", "max_tokens", "max_completion_tokens"}, CLEANED);
    assert Lookup(a, "input") == Lookup(root, "input");
    assert Lookup(a, "tools") == Lookup(root, "tools");
    assert Lookup(a, "store") == Lookup(NoStoreNoCaps(root), "store");
  }

  lemma StrippedTwice(reasoning: bool, input: Json)
    ensures OtherInput(StrippedInput(Strips(reasoning, false), input)) == StrippedInput(Strips(reasoning, true), input)
    ensures PromotedTools(Strips(false, true), StrippedInput(Strips(reasoning, false), input))
            == PromotedTools(Strips(false, true), input)
    ensures StrippedInput(Strips(false, false), input) == input
  {
    if input.Arr? {
      WithoutAdditionalIs(Strips(reasoning, false), input.items);
      PromotionIgnoresReasoning(input.items);
      NothingStripped(input.items);
    }
  }

  /** Both strips, each when its setting is on. */
  function BothStrips(strips: Strips, root: Object): Object {
    var c := if strips.reasoning then StripReasoning(root).root else root;
    if strips.additional then StripAdditional(c).root else c
  }

  lemma BothStripsOutcome(strips: Strips, root: Object)
    requires "input" in root
    ensures var h := BothStrips(strips, root);
            && "input" in h && h["input"] == StrippedInput(strips, root["input"])
            && ItemsOr(Get(h, "tools")) == AddTools(ItemsOr(Get(root, "tools")), PromotedTools(strips, root["input"]))
            && (ItemsOr(Get(h, "tools")) == [] ==> Lookup(h, "tools") == Lookup(root, "tools"))
            && Differ(root, h, {"input", "tools"})
  {
    hide StripReasoning, StripAdditional, OtherInput, StrippedInput;
    var input := root["input"];
    ReasoningStrip(root);
    StrippedTwice(strips.reasoning, input);
    var c := if strips.reasoning then StripReasoning(root).root else root;
    assert c["input"] == StrippedInput(Strips(strips.reasoning, false), input);
    assert Lookup(c, "tools") == Lookup(root, "tools");
    AdditionalStrip(c);
    DifferAgain(root, c, BothStrips(strips, root), {"input", "tools"}, {"input", "tools"}, {"input", "tools"});
  }

  lemma HygieneIs(cfg: Config, toFormat: string, root: Object)
    ensures Hygiene(cfg, toFormat, root).root == BothStrips(StripsOf(cfg, toFormat), NoStoreNoCaps(root))
  {
    hide NormalizeCaps, ForbidStore, StripReasoning, StripAdditional, IsResponsesWire;
  }

  lemma KeepsCaps(b: Object, h: Object)
    requires Differ(b, h, {"input", "tools"})
    ensures Lookup(h, "store") == Lookup(b, "store")
    ensures Lookup(h, "max_tokens") == Lookup(b, "max_tokens")
    ensures Lookup(h, "max_completion_tokens") == Lookup(b, "max_completion_tokens")
    ensures Lookup(h, "max_output_tokens") == Lookup(b, "max_output_tokens")
  {
  }

  /** No stored state, no chat-style caps, and the input without what upstream refuses. */
  lemma HygieneOutcome(cfg: Config, toFormat: string, root: Object)
    requires "input" in root
    ensures var h, strips := Hygiene(cfg, toFormat, root).root, StripsOf(cfg, toFormat);
            && "input" in h && h["input"] == StrippedInput(strips, root["input"])
            && Get(h, "store") == Bool(false)
            && "max_tokens" !in h && "max_completion_tokens" !in h
            && Lookup(h, "max_output_tokens") == Lookup(TakeCap(root), "max_output_tokens")
            && ItemsOr(Get(h, "tools")) == AddTools(ItemsOr(Get(root, "tools")), PromotedTools(strips, root["input"]))
            && (ItemsOr(Get(h, "tools")) == [] ==> Lookup(h, "tools") == Lookup(root, "tools"))
            && Differ(root, h, CLEANED)
  {
    hide Hygiene, NoStoreNoCaps, BothStrips, TakeCap, StrippedInput, PromotedTools, AddTools;
    var b := NoStoreNoCaps(root);
    var h := BothStrips(StripsOf(cfg, toFormat), b);
    HygieneIs(cfg, toFormat, root);
    NoStoreNoCapsOutcome(root);
    BothStripsOutcome(StripsOf(cfg, toFormat), b);
    DifferAgain(root, b, h, CLEANED, {"input", "tools"}, CLEANED);
    KeepsCaps(b, h);
  }

  // ----- the opening and the closing -----

  /** The keys that hold a system context. */
  ghost predicate SameContext(a: Object, b: Object) {
    && Lookup(a, "instructions") == Lookup(b, "instructions")
    && Lookup(a, "system") == Lookup(b, "system")
    && Lookup(a, "systemInstruction") == Lookup(b, "systemInstruction")
    && Lookup(a, "system_instruction") == Lookup(b, "system_instruction")
    && Lookup(a, "messages") == Lookup(b, "messages")
  }

  lemma ContextDecides(a: Object, b: Object, source: string)
    requires SameContext(a, b) && Lookup(a, "input") == Lookup(b, "input")
    ensures Present(a, source) == Present(b, source) && Supported(a, source) == Supported(b, source)
    ensures ContextKey(a, source) == ContextKey(b, source)
  {
    hide HasEnvironment, MessagesHaveEnvironment, TakesInMessages, TakesInParts, CanTake;
  }

  lemma ContextKeptToo(root: Object, a: Object, b: Object, source: string)
    requires SameContext(a, b) && ContextKept(root, a, source)
    ensures ContextKept(root, b, source)
  {
    hide Grows, MessageListKept, SystemKept;
  }

  lemma StreamOutcome(root: Object)
    ensures var e := ForceStream(root);
            && Get(e.root, "stream") == Bool(true)
            && SameContext(root, e.root) && Lookup(root, "input") == Lookup(e.root, "input")
            && Lookup(root, "tools") == Lookup(e.root, "tools")
            && Differ(root, e.root, {"stream"})
  {
  }

  /** With streaming forced; every protocol but Gemini, where the URL carries it. */
  predicate Streams(cfg: Config, source: string) {
    source != "gemini" && cfg.forceStream
  }

  const CONTEXTS: set<string> := {"instructions", "system", "systemInstruction", "system_instruction", "messages"}

  lemma ContextKeyIsOne(root: Object, source: string)
    ensures ContextKey(root, source) in CONTEXTS
  {
  }

  lemma ContextIsApart(a: Object, b: Object, key: string)
    requires key in CONTEXTS && Differ(a, b, {key})
    ensures Lookup(a, "tools") == Lookup(b, "tools") && Lookup(a, "input") == Lookup(b, "input")
    ensures Lookup(a, "stream") == Lookup(b, "stream")
  {
  }

  lemma OpeningOutcome(kit: Kit, cfg: Config, source: string, root: Object)
    ensures var o := Opening(kit, cfg, source, root).root;
            && (Present(o, source) <==> Present(root, source) || Supported(root, source))
            && (Present(root, source) || !Supported(root, source) ==> SameContext(root, o))
            && ContextKept(root, o, source)
            && (Streams(cfg, source) ==> Get(o, "stream") == Bool(true))
            && (!Streams(cfg, source) ==> Lookup(o, "stream") == Lookup(root, "stream"))
            && Lookup(o, "input") == Lookup(root, "input")
            && Lookup(o, "tools") == Lookup(root, "tools")
            && Differ(root, o, CONTEXTS + {"stream"})
  {
    hide Present, Supported, EnsureEnvironment, ForceStream, ContextKept, SameContext, ContextKey;
    var a := EnsureEnvironment(kit, root, source).root;
    EnvironmentOutcome(kit, root, source);
    ContextKeyIsOne(root, source);
    ContextIsApart(root, a, ContextKey(root, source));
    DifferAgain(root, a, a, {ContextKey(root, source)}, {}, CONTEXTS + {"stream"});
    SameAsItself(a);
    if Streams(cfg, source) {
      var b := ForceStream(a).root;
      StreamOutcome(a);
      ContextDecides(a, b, source);
      ContextKeptToo(root, a, b, source);
      DifferAgain(root, a, b, {ContextKey(root, source)}, {"stream"}, CONTEXTS + {"stream"});
    }
  }

  lemma SameAsItself(a: Object)
    ensures SameContext(a, a)
  {
  }

  lemma ToolsOutcome(kit: Kit, protocol: Protocol, names: seq<string>, root: Object)
    requires Names(names)
    ensures var f := EnsureTools(kit, protocol, names, root).root;
            && ItemsOr(Get(f, "tools")) == AddTools(ItemsOr(Get(root, "tools")), ToolEntries(kit, protocol, names))
            && (forall name <- names :: HasTool(ItemsOr(Get(f, "tools")), name))
            && Differ(root, f, {"tools"})
  {
    hide ToolName, ToolEntries, HasTool;
    var client := ItemsOr(Get(root, "tools"));
    EntriesSettle(kit, protocol, names, client);
    AddToolsExtends(client, ToolEntries(kit, protocol, names));
  }

  lemma ToolsSettle(kit: Kit, protocol: Protocol, names: seq<string>, root: Object, client: seq<Json>)
    requires Names(names)
    requires ItemsOr(Get(root, "tools")) == AddTools(client, ToolEntries(kit, protocol, names))
    ensures EnsureTools(kit, protocol, names, root) == Unchanged(root)
  {
    hide ToolName, ToolEntries, HasTool;
    EntriesSettle(kit, protocol, names, client);
  }

  // ----- every shaped body -----

  function ProtocolOf(root: Object, source: string): Protocol {
    if "input" in root then Responses
    else if source == "claude" then Claude
    else if source == "gemini" then Gemini
    else Chat
  }

  /** The tool list that the configured tools join: the client's, with what is promoted from the input. */
  function ToolBase(cfg: Config, toFormat: string, root: Object): seq<Json> {
    var client := ItemsOr(Get(root, "tools"));
    if "input" in root then AddTools(client, PromotedTools(StripsOf(cfg, toFormat), root["input"])) else client
  }

  ghost predicate ToolsShaped(kit: Kit, cfg: Config, source: string, toFormat: string, root: Object, f: Object) {
    var before, after := ToolBase(cfg, toFormat, root), ItemsOr(Get(f, "tools"));
    var protocol := ProtocolOf(root, source);
    if protocol.Gemini? then
      && GroupsKept(before, after, Missing(kit, cfg.tools, before))
      && Missing(kit, cfg.tools, after) == []
      && (forall name <- cfg.tools :: HasTool(AllDeclarations(after), name))
    else
      && after == AddTools(before, ToolEntries(kit, protocol, cfg.tools))
      && (forall name <- cfg.tools :: HasTool(after, name))
  }

  ghost predicate InputShaped(cfg: Config, toFormat: string, root: Object, f: Object) {
    if "input" in root then
      && "input" in f && f["input"] == StrippedInput(StripsOf(cfg, toFormat), root["input"])
      && Get(f, "store") == Bool(false)
      && "max_tokens" !in f && "max_completion_tokens" !in f
      && Lookup(f, "max_output_tokens") == Lookup(TakeCap(root), "max_output_tokens")
    else "input" !in f
  }

  const TOUCHED: set<string> := CONTEXTS + {"stream"} + CLEANED

  ghost predicate RestShaped(kit: Kit, cfg: Config, source: string, root: Object, f: Object) {
    && SameContext(Opening(kit, cfg, source, root).root, f)
    && (Streams(cfg, source) ==> Get(f, "stream") == Bool(true))
    && (!Streams(cfg, source) ==> Lookup(f, "stream") == Lookup(root, "stream"))
    && Differ(root, f, if "input" in root then TOUCHED else CONTEXTS + {"stream", "tools"})
  }

  lemma CleanedIsApart(a: Object, b: Object)
    requires Differ(a, b, CLEANED)
    ensures SameContext(a, b) && Lookup(a, "stream") == Lookup(b, "stream")
  {
  }

  lemma ToolsAreApart(a: Object, b: Object)
    requires Differ(a, b, {"tools"})
    ensures Differ(a, b, CLEANED)
    ensures Lookup(a, "input") == Lookup(b, "input") && Lookup(a, "store") == Lookup(b, "store")
    ensures Lookup(a, "max_tokens") == Lookup(b, "max_tokens")
    ensures Lookup(a, "max_completion_tokens") == Lookup(b, "max_completion_tokens")
    ensures Lookup(a, "max_output_tokens") == Lookup(b, "max_output_tokens")
  {
  }

  lemma OpeningKeepsCaps(root: Object, o: Object)
    requires Differ(root, o, CONTEXTS + {"stream"})
    ensures Lookup(TakeCap(o), "max_output_tokens") == Lookup(TakeCap(root), "max_output_tokens")
  {
    assert Lookup(root, "max_output_tokens") == Lookup(o, "max_output_tokens");
    assert Lookup(root, "max_completion_tokens") == Lookup(o, "max_completion_tokens");
    assert Lookup(root, "max_tokens") == Lookup(o, "max_tokens");
  }

  lemma ResponsesShaped(kit: Kit, cfg: Config, source: string, toFormat: string, root: Object)
    requires Names(cfg.tools) && "input" in root
    ensures var f := Shape(kit, cfg, source, toFormat, root).root;
            && ToolsShaped(kit, cfg, source, toFormat, root, f)
            && InputShaped(cfg, toFormat, root, f)
            && RestShaped(kit, cfg, source, root, f)
  {
    hide Opening, Hygiene, Shaping.EnsureTools, StrippedInput, StripsOf, AddTools, ToolEntries, HasTool, Present,
         Supported,
         ContextKept, SameContext, PromotedTools, TakeCap;
    var o := Opening(kit, cfg, source, root).root;
    OpeningOutcome(kit, cfg, source, root);
    OpeningKeepsCaps(root, o);
    assert "input" in o && o["input"] == root["input"];
    HygieneOutcome(cfg, toFormat, o);
    var h := Hygiene(cfg, toFormat, o).root;
    ToolsOutcome(kit, Responses, cfg.tools, h);
    var f := EnsureTools(kit, Responses, cfg.tools, h).root;
    ToolsAreApart(h, f);
    CleanedIsApart(o, h);
    DifferAgain(o, h, f, CLEANED, CLEANED, CLEANED);
    CleanedIsApart(o, f);
    DifferAgain(root, o, f, CONTEXTS + {"stream"}, CLEANED, TOUCHED);
  }

  lemma OthersShaped(kit: Kit, cfg: Config, source: string, toFormat: string, root: Object)
    requires Names(cfg.tools) && "input" !in root
    ensures var f := Shape(kit, cfg, source, toFormat, root).root;
            && ToolsShaped(kit, cfg, source, toFormat, root, f)
            && InputShaped(cfg, toFormat, root, f)
            && RestShaped(kit, cfg, source, root, f)
  {
    hide Opening, Shaping.EnsureTools, EnsureGeminiTools, AddTools, ToolEntries, HasTool, Present, Supported, Missing,
         ContextKept, SameContext, GroupsKept, AllDeclarations;
    var o := Opening(kit, cfg, source, root).root;
    OpeningOutcome(kit, cfg, source, root);
    var f := DeclareTools(kit, cfg, source, o).root;
    if source == "gemini" {
      GeminiOutcome(kit, cfg.tools, o);
      GeminiDiffers(kit, cfg.tools, o);
    } else {
      ToolsOutcome(kit, ProtocolOf(root, source), cfg.tools, o);
    }
    ToolsAreApart(o, f);
    CleanedIsApart(o, f);
    DifferAgain(root, o, f, CONTEXTS + {"stream"}, {"tools"}, CONTEXTS + {"stream", "tools"});
  }

  lemma GeminiDiffers(kit: Kit, names: seq<string>, root: Object)
    ensures Differ(root, EnsureGeminiTools(kit, names, root).root, {"tools"})
  {
    hide Missing, Declarations, FirstGroup;
  }

  lemma Shaped(kit: Kit, cfg: Config, source: string, toFormat: string, root: Object)
    requires Names(cfg.tools)
    ensures var f := Shape(kit, cfg, source, toFormat, root).root;
            && ToolsShaped(kit, cfg, source, toFormat, root, f)
            && InputShaped(cfg, toFormat, root, f)
            && RestShaped(kit, cfg, source, root, f)
  {
    hide *;
    if "input" in root {
      ResponsesShaped(kit, cfg, source, toFormat, root);
    } else {
      OthersShaped(kit, cfg, source, toFormat, root);
    }
  }
}
