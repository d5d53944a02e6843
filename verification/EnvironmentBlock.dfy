/** When the environment block is there, when it is added, and that it is added once. */
module EnvironmentBlock {
  import opened Text
  import opened Json
  import opened Pointwise
  import opened Shaping
  import Sequences

  lemma ContainsItself(sub: string)
    ensures Contains(sub, sub)
  {
    assert sub <= sub[0..];
  }

  lemma ContainsPart(before: string, a: string, part: string, b: string, rest: string)
    ensures Contains(before + (a + part + b + rest), part)
  {
    ContainsItself(part);
    ContainsWithin(before + a, part, b + rest, part);
    assert before + (a + part + b + rest) == before + a + part + (b + rest);
  }

  lemma Regroup(a: string, b: string, c: string, d: string, e: string, f: string, g: string)
    ensures a + b + c + d + e + f + g == a + b + (c + d + e + f) + g
    ensures a + b + c + d + e + f + g == (a + b + c) + d + (e + f) + g
  {
  }

  /** The environment, at the end of any text, is recognized. */
  lemma EnvironmentIsMarked(kit: Kit, before: string)
    ensures Marked(before + Environment(kit))
  {
    hide Contains;
    var a, c, e, g := "You are a coding agent.\n", "\n", " ", "\n</env>";
    Regroup(a, ENV_TAG, c, DIRECTORY_LABEL, e, kit.directory, g);
    ContainsPart(before, a, ENV_TAG, c + DIRECTORY_LABEL + e + kit.directory, g);
    ContainsPart(before, a + ENV_TAG + c, DIRECTORY_LABEL, e + kit.directory, g);
  }

  lemma AppendedIsMarked(kit: Kit, text: string)
    ensures Marked(AppendEnvironment(kit, text)) && text <= AppendEnvironment(kit, text)
  {
    hide Marked, Environment;
    EnvironmentIsMarked(kit, "");
    EnvironmentIsMarked(kit, text + "\n\n");
    Sequences.Unit(Environment(kit));
  }

  lemma InItems(items: seq<Json>, item: Json)
    requires item in items && HasEnvironment(item)
    ensures HasEnvironment(Arr(items))
  {
  }

  lemma InFields(fields: Object, key: string)
    requires key in fields && HasEnvironment(fields[key])
    ensures HasEnvironment(Obj(fields))
  {
  }

  lemma BlockIsMarked(kit: Kit)
    ensures HasEnvironment(TextBlock(kit)) && HasEnvironment(GeminiPart(kit))
  {
    hide Marked, Environment;
    EnvironmentIsMarked(kit, "");
    Sequences.Unit(Environment(kit));
    InFields(TextBlock(kit).fields, "text");
    InFields(GeminiPart(kit).fields, "text");
  }

  /** A context that has taken the environment has it. */
  lemma ExtendedHasIt(kit: Kit, content: Json)
    requires Extended(kit, content).Some?
    ensures HasEnvironment(Extended(kit, content).value)
  {
    hide Marked, Environment, AppendEnvironment, TextBlock;
    if content.Arr? {
      BlockIsMarked(kit);
      InItems(content.items + [TextBlock(kit)], TextBlock(kit));
    } else {
      AppendedIsMarked(kit, TextOr(content));
      EnvironmentIsMarked(kit, "");
      Sequences.Unit(Environment(kit));
    }
  }

  // ----- presence -----

  predicate CanTake(content: Json) {
    content.Null? || content.Str? || content.Arr?
  }

  /** Whether the system context of the body has the environment. */
  predicate Present(root: Object, source: string) {
    if "input" in root then HasEnvironment(Get(root, "instructions")) || MessagesHaveEnvironment(root["input"])
    else if source == "claude" then HasEnvironment(Get(root, "system"))
    else if source == "gemini" then HasEnvironment(Obj(FieldsOr(Get(root, GeminiKey(root)))))
    else MessagesHaveEnvironment(Get(root, "messages"))
  }

  predicate TakesInParts(system: Json) {
    || system.Null?
    || (system.Obj? && (Get(system.fields, "parts").Null? || Get(system.fields, "parts").Arr?))
  }

  predicate TakesInMessages(messages: Json) {
    var list := ItemsOr(messages);
    && (messages.Null? || messages.Arr?)
    && (FirstSystem(list) < |list| ==> CanTake(Get(list[FirstSystem(list)].fields, "content")))
  }

  /** Whether that context is of a type that can take it. */
  predicate Supported(root: Object, source: string) {
    if "input" in root then Get(root, "instructions").Null? || Get(root, "instructions").Str?
    else if source == "claude" then CanTake(Get(root, "system"))
    else if source == "gemini" then TakesInParts(Get(root, GeminiKey(root)))
    else TakesInMessages(Get(root, "messages"))
  }

  /** The one key that may change. */
  function ContextKey(root: Object, source: string): string {
    if "input" in root then "instructions"
    else if source == "claude" then "system"
    else if source == "gemini" then GeminiKey(root)
    else "messages"
  }

  /** Two bodies differ at most at some keys. */
  ghost predicate Differ(a: Object, b: Object, keys: set<string>) {
    forall key | key !in keys :: Lookup(a, key) == Lookup(b, key)
  }

  lemma ExtendedIffCanTake(kit: Kit, content: Json)
    ensures Extended(kit, content).Some? <==> CanTake(content)
  {
  }

  lemma InstructionsOutcome(kit: Kit, root: Object)
    requires "input" in root
    ensures var e := AddToInstructions(kit, root);
            && (e.changed <==> !Present(root, "") && Supported(root, ""))
            && Differ(root, e.root, {"instructions"})
            && (e.changed ==> HasEnvironment(Get(e.root, "instructions")) && Get(e.root, "instructions").Str?)
  {
    hide HasEnvironment, MessagesHaveEnvironment, AppendEnvironment, Environment, Marked;
    var text := TextOr(Get(root, "instructions"));
    AppendedIsMarked(kit, text);
    MarkedText(AppendEnvironment(kit, text));
  }

  lemma MarkedText(text: string)
    requires Marked(text)
    ensures HasEnvironment(Str(text))
  {
  }

  lemma SystemOutcome(kit: Kit, root: Object)
    requires "input" !in root
    ensures var e := AddToSystem(kit, root);
            && (e.changed <==> !Present(root, "claude") && Supported(root, "claude"))
            && Differ(root, e.root, {"system"})
            && (e.changed ==> HasEnvironment(Get(e.root, "system")))
  {
    hide HasEnvironment, Extended;
    var system := Get(root, "system");
    ExtendedIffCanTake(kit, system);
    if Extended(kit, system).Some? {
      ExtendedHasIt(kit, system);
    }
  }

  function PartsWith(kit: Kit, system: Json): Object {
    FieldsOr(system)["parts" := Arr(ItemsOr(Get(FieldsOr(system), "parts")) + [GeminiPart(kit)])]
  }

  lemma PartsHaveIt(kit: Kit, system: Json)
    ensures HasEnvironment(Obj(PartsWith(kit, system)))
  {
    hide HasEnvironment, GeminiPart;
    var parts := ItemsOr(Get(FieldsOr(system), "parts"));
    BlockIsMarked(kit);
    InItems(parts + [GeminiPart(kit)], GeminiPart(kit));
    InFields(PartsWith(kit, system), "parts");
  }

  lemma SystemInstructionOutcome(kit: Kit, root: Object)
    requires "input" !in root
    ensures var e, key := AddToSystemInstruction(kit, root), GeminiKey(root);
            && (e.changed <==> !Present(root, "gemini") && Supported(root, "gemini"))
            && Differ(root, e.root, {key})
            && (e.changed ==> Get(e.root, key).Obj? && HasEnvironment(Get(e.root, key)))
  {
    hide HasEnvironment, GeminiPart, GeminiKey;
    PartsHaveIt(kit, Get(root, GeminiKey(root)));
    NoSystemHasNone();
  }

  lemma NoSystemHasNone()
    ensures Get(map[], "parts") == Null && !HasEnvironment(Obj(map[]))
  {
  }

  /** The list after the environment went into it: the messages of the client are all there, in order,
      equal but for the content of the first system message, which is extended. */
  ghost predicate MessagesKept(before: seq<Json>, after: seq<Json>, i: nat) {
    if i == |before| then |after| == |before| + 1 && after[1..] == before && IsSystem(after[0])
    else
      && i < |before| == |after|
      && (forall k :: 0 <= k < |before| && k != i ==> after[k] == before[k])
      && IsSystem(before[i]) && IsSystem(after[i])
      && Differ(before[i].fields, after[i].fields, {"content"})
      && Grows(Get(before[i].fields, "content"), Get(after[i].fields, "content"))
  }

  /** The client's text or blocks come first. */
  ghost predicate Grows(before: Json, after: Json) {
    match before
    case Null => after.Null? || after.Str?
    case Str(text) => after.Str? && text <= after.text
    case Arr(items) => after.Arr? && items <= after.items
    case _ => after == before
  }

  lemma ExtendedGrows(kit: Kit, content: Json)
    requires Extended(kit, content).Some?
    ensures Grows(content, Extended(kit, content).value)
  {
    hide Environment, TextBlock, AppendEnvironment, Marked;
    if content.Str? {
      AppendedIsMarked(kit, content.text);
    }
  }

  lemma SystemMessageIsOne(kit: Kit)
    ensures IsSystem(SystemMessage(kit)) && HasEnvironment(Get(SystemMessage(kit).fields, "content"))
  {
    hide Environment, Marked;
    EnvironmentIsMarked(kit, "");
    Sequences.Unit(Environment(kit));
  }

  lemma WithContentIs(message: Json, content: Json)
    requires IsSystem(message)
    ensures IsSystem(WithContent(message, content))
    ensures Get(WithContent(message, content).fields, "content") == content
    ensures Differ(message.fields, WithContent(message, content).fields, {"content"})
  {
  }

  lemma SystemMessageCarries(messages: seq<Json>, i: nat)
    requires i < |messages| && IsSystem(messages[i]) && HasEnvironment(Get(messages[i].fields, "content"))
    ensures MessagesHaveEnvironment(Arr(messages))
  {
    assert messages[i] in messages;
  }

  lemma MessageListOutcome(kit: Kit, messages: seq<Json>)
    ensures var i, added := FirstSystem(messages), AddToMessageList(kit, messages);
            && (added.Some? <==> i < |messages| ==> CanTake(Get(messages[i].fields, "content")))
            && (added.Some? ==> MessagesHaveEnvironment(Arr(added.value)) && MessagesKept(messages, added.value, i))
  {
    hide HasEnvironment, IsSystem, Extended, WithContent, SystemMessage, MessagesHaveEnvironment, Differ, Grows;
    var i, added := FirstSystem(messages), AddToMessageList(kit, messages);
    if i == |messages| {
      SystemMessageIsOne(kit);
      Sequences.ConsTail(SystemMessage(kit), messages);
      SystemMessageCarries(added.value, 0);
    } else {
      var content := Get(messages[i].fields, "content");
      ExtendedIffCanTake(kit, content);
      if added.Some? {
        ExtendedHasIt(kit, content);
        ExtendedGrows(kit, content);
        WithContentIs(messages[i], Extended(kit, content).value);
        SystemMessageCarries(added.value, i);
      }
    }
  }

  lemma MessagesOutcome(kit: Kit, root: Object)
    requires "input" !in root
    ensures var e := AddToMessages(kit, root);
            && (e.changed <==> !Present(root, "") && Supported(root, ""))
            && Differ(root, e.root, {"messages"})
            && (e.changed ==> Get(e.root, "messages").Arr? && MessagesHaveEnvironment(Get(e.root, "messages")))
            && (e.changed ==> MessagesKept(ItemsOr(Get(root, "messages")), Get(e.root, "messages").items,
                                           FirstSystem(ItemsOr(Get(root, "messages")))))
  {
    hide AddToMessageList, MessagesHaveEnvironment, FirstSystem, CanTake, MessagesKept;
    MessageListOutcome(kit, ItemsOr(Get(root, "messages")));
  }

  // ----- the four protocols together -----

  /** The parts of a system instruction grow; a value that is no object stays what it is. */
  ghost predicate SystemKept(before: Json, after: Json) {
    || before == after
    || (&& TakesInParts(before) && after.Obj?
        && Differ(FieldsOr(before), after.fields, {"parts"})
        && Get(after.fields, "parts").Arr?
        && ItemsOr(Get(FieldsOr(before), "parts")) <= Get(after.fields, "parts").items)
  }

  /** What the client's system context keeps: its text, blocks or parts come first, of messages only the
      content of the first system one may grow, and a value of an unsupported type stays what it is. */
  ghost predicate ContextKept(before: Object, after: Object, source: string) {
    if "input" in before then Grows(Get(before, "instructions"), Get(after, "instructions"))
    else if source == "claude" then Grows(Get(before, "system"), Get(after, "system"))
    else if source == "gemini" then SystemKept(Get(before, GeminiKey(before)), Get(after, GeminiKey(before)))
    else MessageListKept(Get(before, "messages"), Get(after, "messages"))
  }

  ghost predicate MessageListKept(before: Json, after: Json) {
    || before == after
    || (&& (before.Null? || before.Arr?) && after.Arr?
        && MessagesKept(ItemsOr(before), after.items, FirstSystem(ItemsOr(before))))
  }

  lemma GrowsItself(content: Json)
    ensures Grows(content, content)
  {
  }

  lemma InstructionsGrow(kit: Kit, root: Object)
    requires "input" in root
    ensures Grows(Get(root, "instructions"), Get(AddToInstructions(kit, root).root, "instructions"))
  {
    hide HasEnvironment, MessagesHaveEnvironment, AppendEnvironment;
    GrowsItself(Get(root, "instructions"));
    AppendedIsMarked(kit, TextOr(Get(root, "instructions")));
  }

  lemma SystemGrows(kit: Kit, root: Object)
    ensures Grows(Get(root, "system"), Get(AddToSystem(kit, root).root, "system"))
  {
    hide HasEnvironment, Extended, Grows;
    GrowsItself(Get(root, "system"));
    if Extended(kit, Get(root, "system")).Some? {
      ExtendedGrows(kit, Get(root, "system"));
    }
  }

  lemma SystemInstructionGrows(kit: Kit, root: Object)
    ensures SystemKept(Get(root, GeminiKey(root)), Get(AddToSystemInstruction(kit, root).root, GeminiKey(root)))
  {
    hide HasEnvironment, GeminiPart, GeminiKey;
  }

  lemma MessageListGrows(kit: Kit, root: Object)
    requires "input" !in root
    ensures MessageListKept(Get(root, "messages"), Get(AddToMessages(kit, root).root, "messages"))
  {
    hide AddToMessageList, MessagesHaveEnvironment, MessagesKept, FirstSystem;
    MessagesOutcome(kit, root);
  }

  lemma StaysApart(root: Object, after: Object, key: string)
    requires Differ(root, after, {key}) && key != "input" && key in {"instructions", "system", "messages"}
    ensures Lookup(root, "input") == Lookup(after, "input") && GeminiKey(root) == GeminiKey(after)
  {
    assert Lookup(root, "systemInstruction") == Lookup(after, "systemInstruction");
    assert Lookup(root, "system_instruction") == Lookup(after, "system_instruction");
  }

  lemma GeminiKeyStays(root: Object, after: Object)
    requires Differ(root, after, {GeminiKey(root)}) && (Get(after, GeminiKey(root)).Null? ==> after == root)
    ensures GeminiKey(after) == GeminiKey(root) && Lookup(root, "input") == Lookup(after, "input")
  {
    assert Lookup(root, "input") == Lookup(after, "input");
    if GeminiKey(root) == "system_instruction" {
      assert Lookup(root, "systemInstruction") == Lookup(after, "systemInstruction");
    }
  }

  /** The environment goes in exactly when it is not there and the context can take it; afterwards it is
      there exactly when it was there or could be taken; only one key differs, and that one only grows. */
  lemma EnvironmentOutcome(kit: Kit, root: Object, source: string)
    ensures var e := EnsureEnvironment(kit, root, source);
            && (e.changed <==> !Present(root, source) && Supported(root, source))
            && (!e.changed ==> e.root == root)
            && (Present(e.root, source) <==> Present(root, source) || Supported(root, source))
            && Differ(root, e.root, {ContextKey(root, source)})
            && ContextKey(e.root, source) == ContextKey(root, source)
            && Lookup(e.root, "input") == Lookup(root, "input")
            && ContextKept(root, e.root, source)
  {
    hide HasEnvironment, MessagesHaveEnvironment, AppendEnvironment, Extended, AddToMessageList, Environment,
         Grows, SystemKept, MessageListKept, GeminiKey, TakesInParts, TakesInMessages, CanTake, GeminiPart;
    var e := EnsureEnvironment(kit, root, source);
    if "input" in root {
      InstructionsOutcome(kit, root);
      InstructionsGrow(kit, root);
      StaysApart(root, e.root, "instructions");
    } else if source == "claude" {
      SystemOutcome(kit, root);
      SystemGrows(kit, root);
      StaysApart(root, e.root, "system");
    } else if source == "gemini" {
      SystemInstructionOutcome(kit, root);
      SystemInstructionGrows(kit, root);
      GeminiKeyStays(root, e.root);
    } else {
      MessagesOutcome(kit, root);
      MessageListGrows(kit, root);
      StaysApart(root, e.root, "messages");
    }
  }
}
