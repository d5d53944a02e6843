/** The main results about `applyFingerprintBody`, for every JSON object, every setting and all four
    protocols. */
module ShapedBodies {
  import opened Text
  import opened Json
  import opened Pointwise
  import opened Shaping
  import opened ShapingLists
  import opened EnvironmentBlock
  import opened GeminiTools
  import opened ShapingTheorems

  // ----- the environment -----

  /** The environment was in the input alone, in items that the strips take. */
  predicate CarrierLost(cfg: Config, toFormat: string, root: Object) {
    && "input" in root
    && !HasEnvironment(Get(root, "instructions"))
    && MessagesHaveEnvironment(root["input"])
    && !MessagesHaveEnvironment(StrippedInput(StripsOf(cfg, toFormat), root["input"]))
  }

  /** Only the code's own check of the system context decides whether shaping again adds it again. */
  ghost predicate EnvironmentSettled(cfg: Config, source: string, toFormat: string, root: Object, f: Object) {
    && (Present(f, source) <==> (Present(root, source) || Supported(root, source)) && !CarrierLost(cfg, toFormat, root))
    && (!Present(f, source) && Supported(f, source) <==> CarrierLost(cfg, toFormat, root) && Supported(root, source))
  }

  lemma OthersSettle(cfg: Config, source: string, toFormat: string, root: Object, o: Object, f: Object)
    requires "input" !in root && Lookup(o, "input") == Lookup(root, "input") && "input" !in f
    requires Present(o, source) <==> Present(root, source) || Supported(root, source)
    requires Present(root, source) || !Supported(root, source) ==> SameContext(root, o)
    requires SameContext(o, f)
    ensures EnvironmentSettled(cfg, source, toFormat, root, f)
  {
    hide Present, Supported, SameContext;
    ContextDecides(o, f, source);
    if SameContext(root, o) {
      ContextDecides(root, o, source);
    }
  }

  predicate Carries(item: Json) {
    IsSystem(item) && HasEnvironment(Get(item.fields, "content"))
  }

  lemma KeptCarriesTheSame(strips: Strips, item: Json)
    ensures Carries(Kept(strips, item)) <==> Carries(item)
  {
    hide HasEnvironment;
    KeptReadsTheSame(strips, item);
    ItemKeysAreNotEncrypted();
  }

  /** Stripping brings no environment in. */
  lemma {:induction false} StrippedCarriesNoMore(strips: Strips, items: seq<Json>)
    requires exists item <- Stripped(strips, items) :: Carries(item)
    ensures exists item <- items :: Carries(item)
  {
    hide Goes, Kept, Carries;
    if items != [] {
      var init, item := items[..|items| - 1], items[|items| - 1];
      StrippedLast(strips, items);
      KeptCarriesTheSame(strips, item);
      assert items == init + [item];
      if exists x <- Stripped(strips, init) :: Carries(x) {
        StrippedCarriesNoMore(strips, init);
      } else {
        assert item in items;
      }
    }
  }

  lemma StrippingLosesOnly(strips: Strips, input: Json)
    ensures MessagesHaveEnvironment(StrippedInput(strips, input)) ==> MessagesHaveEnvironment(input)
  {
    hide HasEnvironment;
    if input.Arr? && MessagesHaveEnvironment(StrippedInput(strips, input)) {
      var m :| m in Stripped(strips, input.items) && IsSystem(m) && HasEnvironment(Get(m.fields, "content"));
      assert Carries(m);
      StrippedCarriesNoMore(strips, input.items);
      var x :| x in input.items && Carries(x);
      assert IsSystem(x);
    }
  }

  lemma ResponsesSettle(cfg: Config, source: string, toFormat: string, root: Object, o: Object, f: Object)
    requires "input" in root && Lookup(o, "input") == Lookup(root, "input") && "input" in f
    requires f["input"] == StrippedInput(StripsOf(cfg, toFormat), root["input"])
    requires Present(o, source) <==> Present(root, source) || Supported(root, source)
    requires Present(root, source) || !Supported(root, source) ==> SameContext(root, o)
    requires SameContext(o, f)
    ensures EnvironmentSettled(cfg, source, toFormat, root, f)
  {
    hide HasEnvironment, MessagesHaveEnvironment, StrippedInput;
    StrippingLosesOnly(StripsOf(cfg, toFormat), root["input"]);
  }

  /** A shaped body has the environment unless its system context is of a type that cannot take it, or
      the strips took the items that carried it. */
  lemma EnvironmentIsThere(kit: Kit, cfg: Config, source: string, toFormat: string, root: Object)
    requires Names(cfg.tools)
    ensures EnvironmentSettled(cfg, source, toFormat, root, Shape(kit, cfg, source, toFormat, root).root)
  {
    hide Shape, Opening, EnvironmentSettled, ToolsShaped, Present, Supported, TakeCap, SameContext;
    var o, f := Opening(kit, cfg, source, root).root, Shape(kit, cfg, source, toFormat, root).root;
    Shaped(kit, cfg, source, toFormat, root);
    OpeningOutcome(kit, cfg, source, root);
    if "input" in root {
      ResponsesSettle(cfg, source, toFormat, root, o, f);
    } else {
      OthersSettle(cfg, source, toFormat, root, o, f);
    }
  }

  // ----- shaping again -----

  lemma StrippedIsSettled(strips: Strips, f: Object, input: Json)
    requires "input" in f && f["input"] == StrippedInput(strips, input)
    ensures strips.reasoning ==> StripReasoning(f) == Unchanged(f)
    ensures strips.additional ==> StripAdditional(f) == Unchanged(f)
  {
    hide IsReasoning, IsAdditional, HasEncrypted, Decrypted;
    if input.Arr? {
      var items := Stripped(strips, input.items);
      StrippedIsClean(strips, input.items);
      if strips.reasoning {
        CleanHasNoReasoning(strips, items);
      }
      if strips.additional {
        forall item | item in items
          ensures !IsAdditional(item)
        {
          assert !Goes(strips, item);
        }
        WithoutAdditionalLength(items);
      }
    }
  }

  lemma CleanHasNoReasoning(strips: Strips, items: seq<Json>)
    requires strips.reasoning && Clean(strips, items)
    ensures !HasReasoning(items)
  {
    hide IsReasoning, IsAdditional, EqualFold, TrimSpace;
    forall item | item in items
      ensures !IsReasoning(item) && !HasEncrypted(item)
    {
      assert !Goes(strips, item);
      KeptKeepsItsType(strips, item);
    }
  }

  lemma NoCapsIsSettled(f: Object)
    requires "max_tokens" !in f && "max_completion_tokens" !in f
    ensures NormalizeCaps(f) == Unchanged(f)
  {
    assert f - CAP_KEYS == f;
  }

  lemma HygieneSettles(cfg: Config, toFormat: string, f: Object, input: Json)
    requires "input" in f && f["input"] == StrippedInput(StripsOf(cfg, toFormat), input)
    requires Get(f, "store") == Bool(false) && "max_tokens" !in f && "max_completion_tokens" !in f
    ensures Hygiene(cfg, toFormat, f) == Unchanged(f)
  {
    hide StripReasoning, StripAdditional, NormalizeCaps, IsResponsesWire, StrippedInput;
    StrippedIsSettled(StripsOf(cfg, toFormat), f, input);
    NoCapsIsSettled(f);
  }

  /** The tools of a shaped body are not added again. */
  lemma ToolsAreSettled(kit: Kit, cfg: Config, source: string, toFormat: string, root: Object, f: Object)
    requires Names(cfg.tools) && ToolsShaped(kit, cfg, source, toFormat, root, f)
    requires "input" in root <==> "input" in f
    ensures "input" in f ==> EnsureTools(kit, Responses, cfg.tools, f) == Unchanged(f)
    ensures "input" !in f ==> DeclareTools(kit, cfg, source, f) == Unchanged(f)
  {
    hide AddTools, ToolEntries, HasTool, Missing, GroupsKept, AllDeclarations, StripsOf, PromotedTools,
         Shaping.EnsureTools;
    var protocol := ProtocolOf(root, source);
    if !protocol.Gemini? {
      ToolsSettle(kit, protocol, cfg.tools, f, ToolBase(cfg, toFormat, root));
    }
  }

  lemma StreamIsSettled(f: Object)
    requires Get(f, "stream") == Bool(true)
    ensures ForceStream(f) == Unchanged(f)
  {
  }

  lemma NoChangeNoDifference(kit: Kit, root: Object, source: string)
    ensures !EnsureEnvironment(kit, root, source).changed ==> EnsureEnvironment(kit, root, source) == Unchanged(root)
  {
    hide Present, Supported, ContextKept, ContextKey;
    EnvironmentOutcome(kit, root, source);
  }

  /** Shaping a shaped body again reports a change exactly when the strips of the first run took the only
      carrier of the environment, and the instructions can take it. */
  lemma ShapingAgain(kit: Kit, cfg: Config, source: string, toFormat: string, root: Object)
    requires Names(cfg.tools)
    ensures var f := Shape(kit, cfg, source, toFormat, root).root;
            var again := Shape(kit, cfg, source, toFormat, f);
            && (again.changed <==> CarrierLost(cfg, toFormat, root) && Supported(root, source))
            && (!again.changed ==> again.root == f)
  {
    hide EnsureEnvironment, ForceStream, Hygiene, Shaping.EnsureTools, DeclareTools, Present, Supported, CarrierLost,
         ToolsShaped, StrippedInput, TakeCap, SameContext, ContextKept, ContextKey;
    var f := Shape(kit, cfg, source, toFormat, root).root;
    EnvironmentIsThere(kit, cfg, source, toFormat, root);
    Shaped(kit, cfg, source, toFormat, root);
    EnvironmentOutcome(kit, f, source);
    NoChangeNoDifference(kit, f, source);
    if !EnsureEnvironment(kit, f, source).changed {
      if Streams(cfg, source) {
        StreamIsSettled(f);
      }
      ToolsAreSettled(kit, cfg, source, toFormat, root, f);
      if "input" in root {
        HygieneSettles(cfg, toFormat, f, root["input"]);
      }
    }
  }

  lemma StrippedOnceAndForAll(strips: Strips, input: Json)
    ensures StrippedInput(strips, StrippedInput(strips, input)) == StrippedInput(strips, input)
  {
    hide Goes, Kept;
    if input.Arr? {
      StrippedIsClean(strips, input.items);
      CleanIsLeft(strips, Stripped(strips, input.items));
    }
  }

  /** Whatever the body, the third run changes nothing. */
  lemma SettledByTheSecond(kit: Kit, cfg: Config, source: string, toFormat: string, root: Object)
    requires Names(cfg.tools)
    ensures var f := Shape(kit, cfg, source, toFormat, root).root;
            var g := Shape(kit, cfg, source, toFormat, f).root;
            Shape(kit, cfg, source, toFormat, g) == Unchanged(g)
  {
    hide Shape, HasEnvironment, MessagesHaveEnvironment, StrippedInput, ToolsShaped, RestShaped, TakeCap;
    var f := Shape(kit, cfg, source, toFormat, root).root;
    Shaped(kit, cfg, source, toFormat, root);
    ShapingAgain(kit, cfg, source, toFormat, f);
    if "input" in root {
      StrippedOnceAndForAll(StripsOf(cfg, toFormat), root["input"]);
    }
  }

  /** A body whose only environment sits in a reasoning item: the first run strips it, the second adds
      the environment to the instructions. */
  function ReasoningCarrier(kit: Kit): Object {
    map["input" := Arr([
      Obj(map["type" := Str("reasoning"), "role" := Str("system"), "content" := Str(Environment(kit))])])]
  }

  lemma CarrierIsReasoning(kit: Kit, item: Json)
    requires item.Obj? && Get(item.fields, "type") == Str("reasoning")
    ensures IsReasoning(item)
  {
    hide TrimSpace, Fold;
    assert IsWord("reasoning");
    WordIsItself("reasoning");
    assert EqualFold("reasoning", "reasoning");
  }

  lemma NotIdempotent(kit: Kit, cfg: Config, toFormat: string)
    requires Names(cfg.tools) && cfg.stripReasoning
    ensures var root := ReasoningCarrier(kit);
            var f := Shape(kit, cfg, "openai-response", toFormat, root).root;
            Shape(kit, cfg, "openai-response", toFormat, f).changed
  {
    hide Shape, HasEnvironment, IsReasoning, IsAdditional, Environment;
    var root := ReasoningCarrier(kit);
    var item := root["input"].items[0];
    CarrierIsReasoning(kit, item);
    SystemMessageIsOne(kit);
    assert item in root["input"].items;
    assert Goes(StripsOf(cfg, toFormat), item);
    assert Stripped(StripsOf(cfg, toFormat), [item]) == [];
    NoInstructions(root);
    assert CarrierLost(cfg, toFormat, root);
    ShapingAgain(kit, cfg, "openai-response", toFormat, root);
  }

  lemma NoInstructions(root: Object)
    requires "instructions" !in root
    ensures !HasEnvironment(Get(root, "instructions"))
  {
  }

  // ----- postconditions -----

  predicate IsDeclared(f: Object, source: string, name: string) {
    var tools := ItemsOr(Get(f, "tools"));
    HasTool(if "input" !in f && source == "gemini" then AllDeclarations(tools) else tools, name)
  }

  /** Every object body leaves with every configured tool declared where its protocol looks; streaming
      when that is forced; and, with `input`, without stored state, foreign caps or what the strips take. */
  lemma ShapedMeetsTheGates(kit: Kit, cfg: Config, source: string, toFormat: string, root: Object)
    requires Names(cfg.tools)
    ensures var f, strips := Shape(kit, cfg, source, toFormat, root).root, StripsOf(cfg, toFormat);
            && (forall name <- cfg.tools :: IsDeclared(f, source, name))
            && (source != "gemini" && cfg.forceStream ==> Get(f, "stream") == Bool(true))
            && ("input" in f <==> "input" in root)
            && ("input" in f ==>
                  && Get(f, "store") == Bool(false) && "max_tokens" !in f && "max_completion_tokens" !in f
                  && (forall item <- ItemsOr(f["input"]) :: !Goes(strips, item))
                  && (strips.reasoning ==> forall item <- ItemsOr(f["input"]) :: !HasEncrypted(item)))
  {
    hide Shape, ToolEntries, HasTool, AllDeclarations, IsReasoning, IsAdditional, StripsOf, PromotedTools, AddTools,
         Missing,
         GroupsKept, SameContext, HasEncrypted, TakeCap;
    var f, strips := Shape(kit, cfg, source, toFormat, root).root, StripsOf(cfg, toFormat);
    Shaped(kit, cfg, source, toFormat, root);
    if "input" in root && root["input"].Arr? {
      StrippedIsClean(strips, root["input"].items);
      if strips.reasoning {
        CleanHasNoReasoning(strips, Stripped(strips, root["input"].items));
      }
    }
  }

  // ----- conservation -----

  /** Where the promoted tools come from: function declarations with a name, nested in the input items
      that go. */
  lemma {:induction false} PromotedAreNested(items: seq<Json>, tool: Json)
    ensures tool in Promoted(items) <==>
            && Promotable(tool)
            && exists item <- items :: IsAdditional(item) && tool in ItemsOr(Get(FieldsOr(item), "tools"))
  {
    hide IsAdditional, Promotable;
    if items != [] {
      var init, item := items[..|items| - 1], items[|items| - 1];
      PromotedAreNested(init, tool);
      PromotableAreMembers(NestedTools(item), tool);
      assert items == init + [item];
    }
  }

  lemma {:induction false} PromotableAreMembers(tools: seq<Json>, tool: Json)
    ensures tool in PromotableOf(tools) <==> Promotable(tool) && tool in tools
  {
    hide Promotable;
    if tools != [] {
      PromotableAreMembers(tools[..|tools| - 1], tool);
      assert tools == tools[..|tools| - 1] + [tools[|tools| - 1]];
    }
  }

  lemma NewNamesJoin(tools: seq<Json>, a: seq<Json>, b: seq<Json>)
    requires NewNames(tools, a) && NewNames(tools + a, b)
    ensures NewNames(tools, a + b)
  {
    hide ToolName, HasTool;
    forall i | 0 <= i < |b|
      ensures !HasTool(tools, ToolName(b[i])) && !HasTool(a, ToolName(b[i]))
    {
      HasToolOfSum(tools, a, ToolName(b[i]));
    }
    forall i | 0 <= i < |a|
      ensures HasTool(a, ToolName(a[i]))
    {
      HasToolIn(a, a[i]);
    }
  }

  /** The client's tools stay a prefix; then come promoted tools and then injected ones, in order, all
      under names that are new to the client's and to each other. */
  lemma ToolsAreConserved(kit: Kit, cfg: Config, source: string, toFormat: string, root: Object)
    requires Names(cfg.tools) && ("input" in root || source != "gemini")
    ensures var f := Shape(kit, cfg, source, toFormat, root).root;
            var client, after := ItemsOr(Get(root, "tools")), ItemsOr(Get(f, "tools"));
            var offered := if "input" in root then PromotedTools(StripsOf(cfg, toFormat), root["input"]) else [];
            var entries := ToolEntries(kit, ProtocolOf(root, source), cfg.tools);
            var promoted := Joined(client, offered);
            var injected := Joined(client + promoted, entries);
            && after == client + promoted + injected
            && Subsequence(promoted, offered) && Subsequence(injected, entries)
            && NewNames(client, promoted + injected)
  {
    hide Shape, ToolEntries, HasTool, Joined, StripsOf, PromotedTools, NewNames, InputShaped, RestShaped, ToolName;
    var client := ItemsOr(Get(root, "tools"));
    var offered := if "input" in root then PromotedTools(StripsOf(cfg, toFormat), root["input"]) else [];
    var entries := ToolEntries(kit, ProtocolOf(root, source), cfg.tools);
    Shaped(kit, cfg, source, toFormat, root);
    JoinedAreNew(client, offered);
    JoinedAreNew(client + Joined(client, offered), entries);
    NewNamesJoin(client, Joined(client, offered), Joined(client + Joined(client, offered), entries));
  }

  /** In Gemini bodies the declarations join the first group, under new names; the rest of the client's
      tools is untouched. */
  lemma GroupsAreConserved(kit: Kit, cfg: Config, toFormat: string, root: Object)
    requires Names(cfg.tools) && "input" !in root
    ensures var f := Shape(kit, cfg, "gemini", toFormat, root).root;
            var client, after := ItemsOr(Get(root, "tools")), ItemsOr(Get(f, "tools"));
            exists added ::
              && GroupsKept(client, after, added)
              && NewNames(AllDeclarations(client), added)
              && Subsequence(added, ToolEntries(kit, Gemini, cfg.tools))
  {
    hide Shape, ToolEntries, AllDeclarations, NewNames, InputShaped, RestShaped, GroupsKept, AddTools, HasTool;
    var client := ItemsOr(Get(root, "tools"));
    Shaped(kit, cfg, "gemini", toFormat, root);
    MissingIs(kit, cfg.tools, client);
    JoinedAreNew(AllDeclarations(client), ToolEntries(kit, Gemini, cfg.tools));
  }

  /** Kept input is an in-order subsequence of the client's, losing only the two encrypted keys; an input
      that is no list is left alone; and the caps of another API move, they are not made up. */
  lemma InputIsConserved(kit: Kit, cfg: Config, source: string, toFormat: string, root: Object)
    requires Names(cfg.tools) && "input" in root
    ensures var f, strips := Shape(kit, cfg, source, toFormat, root).root, StripsOf(cfg, toFormat);
            && "input" in f
            && (root["input"].Arr? ==>
                  f["input"].Arr? && exists at: seq<nat> :: KeptAt(strips, root["input"].items, f["input"].items, at))
            && (!root["input"].Arr? ==> f["input"] == root["input"])
            && (var cap, completion, tokens :=
                  Lookup(root, "max_output_tokens"), Get(root, "max_completion_tokens"), Get(root, "max_tokens");
                Lookup(f, "max_output_tokens") ==
                if cap.Some? then cap
                else if completion.Num? then Some(completion)
                else if tokens.Num? then Some(tokens)
                else None)
  {
    hide Shape, ToolsShaped, RestShaped, StripsOf, KeptAt, Stripped;
    Shaped(kit, cfg, source, toFormat, root);
    if root["input"].Arr? {
      InputIsThinned(StripsOf(cfg, toFormat), root["input"].items);
    }
  }

  /** The keys that shaping may set in a body: the one that takes the environment, when it is missing and
      can be taken; `stream`, when it is forced; and the tools, or all that upstream asks of an input. */
  function Settable(cfg: Config, source: string, root: Object): set<string> {
    (if !Present(root, source) && Supported(root, source) then {ContextKey(root, source)} else {})
    + (if Streams(cfg, source) then {"stream"} else {})
    + (if "input" in root then CLEANED else {"tools"})
  }

  /** Every other key keeps its value, so that Chat, Claude and Gemini bodies keep their token caps, their
      `store` and, unless it is forced, their `stream`; and the system context is only extended at its end,
      or left alone when its type is not supported. */
  lemma TheRestIsConserved(kit: Kit, cfg: Config, source: string, toFormat: string, root: Object)
    requires Names(cfg.tools)
    ensures var f := Shape(kit, cfg, source, toFormat, root).root;
            ContextKept(root, f, source) && Differ(root, f, Settable(cfg, source, root))
  {
    hide Shape, ToolsShaped, InputShaped, ContextKept, Present, Supported, ContextKey, Opening;
    var o, f := Opening(kit, cfg, source, root).root, Shape(kit, cfg, source, toFormat, root).root;
    Shaped(kit, cfg, source, toFormat, root);
    OpeningOutcome(kit, cfg, source, root);
    ContextKeptToo(root, o, f, source);
    OpeningKeepsOtherContexts(kit, cfg, source, root);
    SameContexts(o, f);
    if Present(root, source) || !Supported(root, source) {
      SameContexts(root, o);
    }
    forall key | key !in Settable(cfg, source, root)
      ensures Lookup(root, key) == Lookup(f, key)
    {
      if key !in CONTEXTS && key != "stream" {
        assert key !in if "input" in root then TOUCHED else CONTEXTS + {"stream", "tools"};
      }
    }
  }

  /** In particular a body without `input` keeps its caps and its `store`. */
  lemma CapsStayOutsideResponses(kit: Kit, cfg: Config, source: string, toFormat: string, root: Object, key: string)
    requires Names(cfg.tools) && "input" !in root
    requires key in {"max_tokens", "max_completion_tokens", "max_output_tokens", "store"}
    ensures Lookup(Shape(kit, cfg, source, toFormat, root).root, key) == Lookup(root, key)
  {
    hide Shape, ContextKept, Present, Supported, ContextKey;
    TheRestIsConserved(kit, cfg, source, toFormat, root);
    ContextKeyIsOne(root, source);
    assert key !in CONTEXTS && key != "stream" && key != "tools";
  }

  lemma SameContexts(o: Object, f: Object)
    requires SameContext(o, f)
    ensures forall key <- CONTEXTS :: Lookup(o, key) == Lookup(f, key)
  {
  }

  lemma OpeningKeepsOtherContexts(kit: Kit, cfg: Config, source: string, root: Object)
    ensures var o := Opening(kit, cfg, source, root).root;
            forall key <- CONTEXTS | key != ContextKey(root, source) :: Lookup(o, key) == Lookup(root, key)
  {
    hide Present, Supported, EnsureEnvironment, ContextKept, SameContext, ContextKey, ForceStream;
    var a := EnsureEnvironment(kit, root, source).root;
    EnvironmentOutcome(kit, root, source);
    StreamOutcome(a);
    SameContexts(a, ForceStream(a).root);
  }

  // ----- bodies as bytes -----

  /** `json.Unmarshal` into an object and `json.Marshal`. */
  datatype Codec = Codec(unmarshal: string -> Option<Json>, marshal: Object -> string)

  predicate PrintsBack(codec: Codec, root: Object) {
    codec.marshal(root) != "" && codec.unmarshal(codec.marshal(root)) == Some(Obj(root))
  }

  /** `applyFingerprintBody`: what is no object, or does not change, is passed through byte by byte. */
  function ApplyFingerprintBody(codec: Codec, kit: Kit, cfg: Config, source: string, toFormat: string, body: string)
    : (string, bool)
  {
    if body == "" then (body, false)
    else
      match codec.unmarshal(body)
      case Some(Obj(root)) =>
        var e := Shape(kit, cfg, source, toFormat, root);
        if e.changed then (codec.marshal(e.root), true) else (body, false)
      case _ => (body, false)
  }

  /** What is no object is passed through, and an object byte by byte too when it comes out as it went in. */
  lemma PassesThrough(codec: Codec, kit: Kit, cfg: Config, source: string, toFormat: string, body: string)
    ensures body == "" || codec.unmarshal(body).None? || !codec.unmarshal(body).value.Obj? ==>
              ApplyFingerprintBody(codec, kit, cfg, source, toFormat, body) == (body, false)
  {
    hide Shape;
  }

  /** Applied to its own output, it returns the same bytes and reports no change, for every input, unless
      the first run took the only carrier of the environment. */
  lemma BytesSettle(codec: Codec, kit: Kit, cfg: Config, source: string, toFormat: string, body: string, root: Object)
    requires Names(cfg.tools)
    requires codec.unmarshal(body) == Some(Obj(root)) && PrintsBack(codec, Shape(kit, cfg, source, toFormat, root).root)
    ensures var (out, changed) := ApplyFingerprintBody(codec, kit, cfg, source, toFormat, body);
            var again := ApplyFingerprintBody(codec, kit, cfg, source, toFormat, out);
            && (again.1 <==> changed && CarrierLost(cfg, toFormat, root) && Supported(root, source))
            && (!again.1 ==> again.0 == out)
  {
    hide Shape, CarrierLost, Supported;
    ShapingAgain(kit, cfg, source, toFormat, root);
  }
}
