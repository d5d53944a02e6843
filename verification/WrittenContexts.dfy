/** The system context of a shaped body as it is written, protocol by protocol. */
module WrittenContexts {
  import opened Text
  import opened Json
  import opened Pointwise
  import opened Shaping
  import opened EnvironmentBlock
  import opened ShapingTheorems
  import Sequences

  // ----- the block itself, and how it is recognized -----

  lemma EnvironmentReads(kit: Kit)
    ensures Environment(kit) == "You are a coding agent.\n<env>\nWorking directory: " + kit.directory + "\n</env>"
  {
    assert "You are a coding agent.\n" + ENV_TAG + "\n" + DIRECTORY_LABEL + " "
        == "You are a coding agent.\n<env>\nWorking directory: ";
  }

  /** A text has the environment by its two marks; a list or an object, when anything in it has. */
  lemma PresenceReads(text: string, items: seq<Json>, fields: Object)
    ensures HasEnvironment(Str(text)) <==> Contains(text, "<env>") && Contains(text, "Working directory:")
    ensures HasEnvironment(Arr(items)) <==> exists item <- items :: HasEnvironment(item)
    ensures HasEnvironment(Obj(fields)) <==> exists key <- fields :: HasEnvironment(fields[key])
  {
    hide Contains;
  }

  /** Of messages only those of system and developers count. */
  lemma MessagePresenceReads(messages: seq<Json>)
    ensures MessagesHaveEnvironment(Arr(messages)) <==>
            exists m <- messages ::
              && m.Obj? && Get(m.fields, "role") in {Str("system"), Str("developer")}
              && HasEnvironment(Get(m.fields, "content"))
  {
    hide HasEnvironment;
    forall m | m in messages && m.Obj?
      ensures IsSystem(m) <==> Get(m.fields, "role") in {Str("system"), Str("developer")}
    {
    }
  }

  // ----- what is written -----

  /** A text with another behind it, a blank line between them. */
  function Behind(text: string, env: string): string {
    if text == "" then env else text + "\n\n" + env
  }

  /** A context of the kinds that can take a text, with it at the end. */
  function Written(content: Json, env: string): Json {
    match content
    case Arr(items) => Arr(items + [Obj(map["type" := Str("text"), "text" := Str(env)])])
    case _ => Str(Behind(TextOr(content), env))
  }

  lemma ExtendedIsWritten(kit: Kit, content: Json)
    ensures Extended(kit, content).Some? ==> Extended(kit, content).value == Written(content, Environment(kit))
  {
    hide Environment;
  }

  lemma OpeningKeepsContext(kit: Kit, cfg: Config, source: string, toFormat: string, root: Object, key: string)
    requires Names(cfg.tools) && key in CONTEXTS
    ensures Get(Shape(kit, cfg, source, toFormat, root).root, key) ==
            Get(EnsureEnvironment(kit, root, source).root, key)
  {
    hide Shape, EnsureEnvironment, ToolsShaped, InputShaped, ForceStream;
    var a := EnsureEnvironment(kit, root, source).root;
    Shaped(kit, cfg, source, toFormat, root);
    StreamOutcome(a);
    assert Lookup(a, key) == Lookup(Opening(kit, cfg, source, root).root, key);
  }

  /** Instructions and Claude's system, when the environment is missing and they can take it. */
  lemma TextContextIsWritten(kit: Kit, cfg: Config, source: string, toFormat: string, root: Object)
    requires Names(cfg.tools) && !Present(root, source) && Supported(root, source)
    ensures var f := Shape(kit, cfg, source, toFormat, root).root;
            && ("input" in root ==>
                  Get(f, "instructions") == Str(Behind(TextOr(Get(root, "instructions")), Environment(kit))))
            && ("input" !in root && source == "claude" ==>
                  Get(f, "system") == Written(Get(root, "system"), Environment(kit)))
  {
    hide Shape, HasEnvironment, MessagesHaveEnvironment, Environment, Extended;
    OpeningKeepsContext(kit, cfg, source, toFormat, root, "instructions");
    OpeningKeepsContext(kit, cfg, source, toFormat, root, "system");
    ExtendedIsWritten(kit, Get(root, "system"));
    ExtendedIffCanTake(kit, Get(root, "system"));
  }

  /** Gemini's system instruction, under the name that the client used. */
  lemma PartsAreWritten(kit: Kit, cfg: Config, toFormat: string, root: Object)
    requires Names(cfg.tools) && "input" !in root && !Present(root, "gemini") && Supported(root, "gemini")
    ensures var f := Shape(kit, cfg, "gemini", toFormat, root).root;
            var key := if "systemInstruction" !in root && "system_instruction" in root then "system_instruction"
                       else "systemInstruction";
            var system := FieldsOr(Get(root, key));
            Get(f, key) == Obj(system["parts" :=
              Arr(ItemsOr(Get(system, "parts")) + [Obj(map["text" := Str(Environment(kit))])])])
  {
    hide Shape, HasEnvironment, Environment;
    OpeningKeepsContext(kit, cfg, "gemini", toFormat, root, GeminiKey(root));
  }

  lemma FirstSystemIs(messages: seq<Json>, i: nat)
    requires i <= |messages|
    requires forall k :: 0 <= k < i ==>
               !messages[k].Obj? || Get(messages[k].fields, "role") !in {Str("system"), Str("developer")}
    requires i < |messages| ==>
               messages[i].Obj? && Get(messages[i].fields, "role") in {Str("system"), Str("developer")}
    ensures FirstSystem(messages) == i
  {
    hide FirstSystem;
    assert forall k :: 0 <= k < i ==> !IsSystem(messages[k]);
    assert i < |messages| ==> IsSystem(messages[i]);
  }

  /** Messages: the first of system or developers takes it, or a new one in front. */
  lemma MessagesAreWritten(kit: Kit, cfg: Config, source: string, toFormat: string, root: Object, messages: seq<Json>,
                           i: nat)
    requires Names(cfg.tools) && "input" !in root && source != "claude" && source != "gemini"
    requires !Present(root, source) && Supported(root, source) && messages == ItemsOr(Get(root, "messages"))
    requires i <= |messages|
    requires forall k :: 0 <= k < i ==>
               !messages[k].Obj? || Get(messages[k].fields, "role") !in {Str("system"), Str("developer")}
    requires i < |messages| ==>
               messages[i].Obj? && Get(messages[i].fields, "role") in {Str("system"), Str("developer")}
    ensures Get(Shape(kit, cfg, source, toFormat, root).root, "messages") ==
            if i == |messages| then
              Arr([Obj(map["role" := Str("system"), "content" := Str(Environment(kit))])] + messages)
            else
              var content := Get(messages[i].fields, "content");
              Arr(messages[i := Obj(messages[i].fields["content" := Written(content, Environment(kit))])])
  {
    hide Shape, HasEnvironment, MessagesHaveEnvironment, Environment, Extended, FirstSystem;
    OpeningKeepsContext(kit, cfg, source, toFormat, root, "messages");
    FirstSystemIs(messages, i);
    if i < |messages| {
      ExtendedIsWritten(kit, Get(messages[i].fields, "content"));
      ExtendedIffCanTake(kit, Get(messages[i].fields, "content"));
    }
  }
}
