/** The text of a conversation before and after `applyFingerprintBody`. */
module SessionShaping {
  import opened Text
  import opened Json
  import opened Pointwise
  import opened Shaping
  import opened ShapingLists
  import opened EnvironmentBlock
  import opened ShapingTheorems
  import opened ShapedBodies
  import opened SessionText
  import Sequences

  // ----- messages -----

  lemma SystemIsPassed(lenient: bool, message: Json)
    requires IsSystem(message)
    ensures MessageReader(lenient)(message) == Aside
  {
    hide ContentText;
  }

  lemma {:induction false} SameTurnsSameRun(read: Reader, a: seq<Json>, b: seq<Json>, started: bool)
    requires |a| == |b| && forall k :: 0 <= k < |a| ==> read(a[k]) == read(b[k])
    ensures Run(read, a, started) == Run(read, b, started)
    decreases |a|
  {
    if a != [] {
      assert forall k :: 0 <= k < |a[1..]| ==> a[1..][k] == a[k + 1] && b[1..][k] == b[k + 1];
      SameTurnsSameRun(read, a[1..], b[1..], true);
      SameTurnsSameRun(read, a[1..], b[1..], started);
    }
  }

  /** Messages into which the environment went read the same. */
  lemma KeptMessagesReadTheSame(lenient: bool, before: seq<Json>, after: seq<Json>, i: nat)
    requires MessagesKept(before, after, i)
    ensures Run(MessageReader(lenient), after, false) == Run(MessageReader(lenient), before, false)
  {
    hide IsSystem, MessageReader, Differ, Grows;
    var read := MessageReader(lenient);
    if i == |before| {
      SystemIsPassed(lenient, after[0]);
      Sequences.HeadTail(after);
      PreambleIsIgnored(read, [after[0]], before);
    } else {
      SystemIsPassed(lenient, before[i]);
      SystemIsPassed(lenient, after[i]);
      SameTurnsSameRun(read, before, after, false);
    }
  }

  lemma TurnsOfItems(root: Object, lenient: bool)
    ensures MessageTurns(root, lenient) == Run(MessageReader(lenient), ItemsOr(Get(root, "messages")), false)
  {
    hide MessageReader;
  }

  lemma OneContextChanges(cfg: Config, root: Object, f: Object, source: string)
    requires ContextKept(root, f, source) && Differ(root, f, Settable(cfg, source, root))
    ensures MessageListKept(Get(root, "messages"), Get(f, "messages"))
  {
    hide MessagesKept, FirstSystem, Grows, SystemKept, Present, Supported;
    if ContextKey(root, source) != "messages" {
      assert Lookup(root, "messages") == Lookup(f, "messages");
    }
  }

  /** Shaping leaves the turns in the messages alone, in every format. */
  lemma MessagesReadTheSame(kit: Kit, cfg: Config, source: string, toFormat: string, root: Object, lenient: bool)
    requires Names(cfg.tools)
    ensures MessageTurns(Shape(kit, cfg, source, toFormat, root).root, lenient) == MessageTurns(root, lenient)
  {
    hide Shape, MessagesKept, Run, FirstSystem, ContextKept, Settable, MessageTurns;
    var f := Shape(kit, cfg, source, toFormat, root).root;
    TheRestIsConserved(kit, cfg, source, toFormat, root);
    OneContextChanges(cfg, root, f, source);
    TurnsOfItems(root, lenient);
    TurnsOfItems(f, lenient);
    var before, after := ItemsOr(Get(root, "messages")), ItemsOr(Get(f, "messages"));
    if Get(root, "messages") != Get(f, "messages") {
      KeptMessagesReadTheSame(lenient, before, after, FirstSystem(before));
    }
  }

  // ----- input -----

  /** The text of the user items that come before the next object that stays and is no user turn. */
  function Behind(strips: Strips, items: seq<Json>): string {
    if items == [] then ""
    else if ReadItem(items[0]).User? then ReadItem(items[0]).text + Behind(strips, items[1..])
    else if !items[0].Obj? || Goes(strips, items[0]) then Behind(strips, items[1..])
    else ""
  }

  /** The text of the user items that only stripped items separate from the leading user run. */
  function Exposed(strips: Strips, items: seq<Json>, started: bool): string {
    if items == [] then ""
    else if ReadItem(items[0]).User? then Exposed(strips, items[1..], true)
    else if !items[0].Obj? then Exposed(strips, items[1..], started)
    else if !started then Exposed(strips, items[1..], false)
    else if Goes(strips, items[0]) then Behind(strips, items[1..])
    else ""
  }

  lemma {:induction false} StrippedOfSum(strips: Strips, a: seq<Json>, b: seq<Json>)
    ensures Stripped(strips, a + b) == Stripped(strips, a) + Stripped(strips, b)
  {
    hide Goes, Kept;
    if b == [] {
      Sequences.Unit(a);
      Sequences.Unit(Stripped(strips, a));
    } else {
      var init, item := b[..|b| - 1], b[|b| - 1];
      StrippedOfSum(strips, a, init);
      Sequences.AppendLast(a, b);
      StrippedLast(strips, a + b);
      StrippedLast(strips, b);
      Sequences.Assoc(Stripped(strips, a), Stripped(strips, init), [Kept(strips, item)]);
    }
  }

  lemma StrippedFirst(strips: Strips, items: seq<Json>)
    requires items != []
    ensures Stripped(strips, items) ==
            (if Goes(strips, items[0]) then [] else [Kept(strips, items[0])]) + Stripped(strips, items[1..])
  {
    hide Goes, Kept;
    var one := [items[0]];
    Sequences.HeadTail(items);
    StrippedOfSum(strips, one, items[1..]);
    StrippedLast(strips, one);
    assert one[..|one| - 1] == [];
    Sequences.Unit([Kept(strips, items[0])]);
  }

  /** A kept item reads as before; what goes is never a user turn. */
  lemma KeptItemReadsTheSame(strips: Strips, item: Json)
    ensures ReadItem(Kept(strips, item)) == ReadItem(item)
    ensures Goes(strips, item) && item.Obj? ==> ReadItem(item) == Aside
    ensures Goes(strips, item) ==> item.Obj?
  {
    hide ContentText, TrimSpace, Fold;
    KeptReadsTheSame(strips, item);
    ItemKeysAreNotEncrypted();
    StrippedTypesAreOthers();
  }

  /** The types of user items are none of those that are stripped. */
  lemma StrippedTypesAreOthers()
    ensures !EqualFold(TrimSpace(""), "reasoning") && !EqualFold(TrimSpace(""), "additional_tools")
    ensures !EqualFold(TrimSpace("message"), "reasoning") && !EqualFold(TrimSpace("message"), "additional_tools")
  {
    hide TrimSpace, Fold;
    TrimNothing();
    AsciiFolds("");
    assert IsWord("message");
    WordIsItself("message");
  }

  lemma ReadKinds(item: Json)
    ensures ReadItem(item).Foreign? <==> !item.Obj?
    ensures !ReadItem(item).Bar? && ItemReader()(item) == ReadItem(item)
  {
    hide ContentText;
  }

  lemma {:induction false} RunBehind(strips: Strips, items: seq<Json>)
    ensures Run(ItemReader(), Stripped(strips, items), true) == Found(true, Behind(strips, items))
    decreases |items|
  {
    hide Goes, Kept, ReadItem, ItemReader;
    if items != [] {
      var rest := Stripped(strips, items[1..]);
      StrippedFirst(strips, items);
      KeptItemReadsTheSame(strips, items[0]);
      ReadKinds(items[0]);
      ReadKinds(Kept(strips, items[0]));
      RunBehind(strips, items[1..]);
      Sequences.Unit(rest);
      Sequences.ConsTail(Kept(strips, items[0]), rest);
    }
  }

  /** Stripping keeps the leading user run and appends what it exposes. */
  lemma {:induction false} StrippedRun(strips: Strips, items: seq<Json>, started: bool)
    ensures var before, after := Run(ItemReader(), items, started), Run(ItemReader(), Stripped(strips, items), started);
            && after.started == before.started
            && after.text == before.text + Exposed(strips, items, started)
    decreases |items|
  {
    hide Goes, Kept, ReadItem, ItemReader;
    if items != [] {
      var rest := Stripped(strips, items[1..]);
      StrippedFirst(strips, items);
      KeptItemReadsTheSame(strips, items[0]);
      ReadKinds(items[0]);
      ReadKinds(Kept(strips, items[0]));
      Sequences.Unit(rest);
      Sequences.ConsTail(Kept(strips, items[0]), rest);
      StrippedRun(strips, items[1..], true);
      StrippedRun(strips, items[1..], started);
      RunBehind(strips, items[1..]);
      if ReadItem(items[0]).User? {
        Sequences.Assoc(ReadItem(items[0]).text, Run(ItemReader(), items[1..], true).text,
                        Exposed(strips, items[1..], true));
      }
    }
  }

  /** What shaping exposes in the input of a body. */
  function ExposedBy(cfg: Config, toFormat: string, root: Object): string {
    var input := Get(root, "input");
    if input.Arr? then Exposed(StripsOf(cfg, toFormat), input.items, false) else ""
  }

  lemma InputReadsOn(kit: Kit, cfg: Config, source: string, toFormat: string, root: Object)
    requires Names(cfg.tools)
    ensures var f := Shape(kit, cfg, source, toFormat, root).root;
            var before, after := InputTurns(Get(root, "input")), InputTurns(Get(f, "input"));
            && after.started == before.started
            && after.text == before.text + ExposedBy(cfg, toFormat, root)
  {
    hide Shape, ToolsShaped, RestShaped, Run, Stripped, Exposed, TakeCap, StripsOf;
    Shaped(kit, cfg, source, toFormat, root);
    Sequences.Unit(InputTurns(Get(root, "input")).text);
    if "input" in root && root["input"].Arr? {
      StrippedRun(StripsOf(cfg, toFormat), root["input"].items, false);
    }
  }

  // ----- the conversation -----

  /** The text that identifies a conversation is the same before and after shaping for every body of the
      formats that read the messages, and for the others exactly when no user text stands behind the
      leading run with only stripped items between. */
  lemma TextSurvivesShaping(kit: Kit, cfg: Config, source: string, toFormat: string, root: Object)
    requires Names(cfg.tools)
    ensures var f := Shape(kit, cfg, source, toFormat, root).root;
            && (source == "openai" || source == "claude" ==>
                  ConversationText(source, f) == ConversationText(source, root))
            && (ConversationText(source, f) == ConversationText(source, root) <==>
                (ReadsInput(source, root) ==> ExposedBy(cfg, toFormat, root) == ""))
  {
    hide Shape, MessageTurns, InputTurns, ExposedBy;
    MessagesReadTheSame(kit, cfg, source, toFormat, root, false);
    MessagesReadTheSame(kit, cfg, source, toFormat, root, true);
    InputReadsOn(kit, cfg, source, toFormat, root);
    NothingIsExposedWithoutRun(cfg, toFormat, root);
    LongerUnlessEmpty(InputTurns(Get(root, "input")).text, ExposedBy(cfg, toFormat, root));
  }

  lemma LongerUnlessEmpty(a: string, b: string)
    ensures a + b == a <==> b == ""
  {
    assert |a + b| == |a| + |b|;
  }

  /** Shaping never takes text away. */
  lemma TextOnlyGrows(kit: Kit, cfg: Config, source: string, toFormat: string, root: Object)
    requires Names(cfg.tools)
    ensures ConversationText(source, root) <= ConversationText(source, Shape(kit, cfg, source, toFormat, root).root)
  {
    hide Shape, MessageTurns, InputTurns, ExposedBy;
    MessagesReadTheSame(kit, cfg, source, toFormat, root, false);
    MessagesReadTheSame(kit, cfg, source, toFormat, root, true);
    InputReadsOn(kit, cfg, source, toFormat, root);
  }

  lemma NothingIsExposedWithoutRun(cfg: Config, toFormat: string, root: Object)
    ensures !InputTurns(Get(root, "input")).started ==> ExposedBy(cfg, toFormat, root) == ""
  {
    hide StripsOf;
    if Get(root, "input").Arr? && !InputTurns(Get(root, "input")).started {
      NoRunNothingExposed(StripsOf(cfg, toFormat), Get(root, "input").items);
    }
  }

  lemma {:induction false} NoRunNothingExposed(strips: Strips, items: seq<Json>)
    requires !Run(ItemReader(), items, false).started
    ensures Exposed(strips, items, false) == ""
    decreases |items|
  {
    hide Goes, ContentText;
    if items != [] && !ReadItem(items[0]).User? {
      NoRunNothingExposed(strips, items[1..]);
    }
  }

  function UserItem(text: string): Json {
    Obj(map["role" := Str("user"), "content" := Str(text)])
  }

  lemma UserItemReads(text: string)
    ensures ReadItem(UserItem(text)) == User(text)
  {
  }

  lemma ExposedBetween(strips: Strips, a: Json, gone: Json, b: Json)
    requires ReadItem(a).User? && ReadItem(b).User? && Goes(strips, gone)
    ensures Exposed(strips, [a, gone, b], false) == ReadItem(b).text
  {
    hide ReadItem, Goes;
    KeptItemReadsTheSame(strips, gone);
    assert [a, gone, b][1..] == [gone, b] && [gone, b][1..] == [b] && [b][1..] == [];
    assert Behind(strips, [b]) == ReadItem(b).text + "";
    assert Exposed(strips, [gone, b], true) == Behind(strips, [b]);
    Sequences.Unit(ReadItem(b).text);
  }

  /** A reasoning item between two user items: stripping it joins them. */
  lemma TextCanChange(kit: Kit, cfg: Config, toFormat: string, reasoning: Json)
    requires Names(cfg.tools) && cfg.stripReasoning && IsReasoning(reasoning)
    ensures var root := map["input" := Arr([UserItem("A"), reasoning, UserItem("B")])];
            var f := Shape(kit, cfg, "openai-response", toFormat, root).root;
            ConversationText("openai-response", f) != ConversationText("openai-response", root)
  {
    hide Shape, IsReasoning, IsAdditional, ReadItem, ConversationText, UserItem, Exposed, IsResponsesWire;
    var root := map["input" := Arr([UserItem("A"), reasoning, UserItem("B")])];
    UserItemReads("A");
    UserItemReads("B");
    ExposedBetween(StripsOf(cfg, toFormat), UserItem("A"), reasoning, UserItem("B"));
    assert ExposedBy(cfg, toFormat, root) == "B";
    assert ReadsInput("openai-response", root);
    TextSurvivesShaping(kit, cfg, "openai-response", toFormat, root);
  }
}
