/** The text that identifies a conversation: the leading user turns of a request body. */
module SessionText {
  import opened Text
  import opened Json
  import Sequences

  // ----- content -----

  /** The data or URL of an attachment's source. */
  function SourceText(source: Object): string {
    if Get(source, "data").Str? then Get(source, "data").text else TextOr(Get(source, "url"))
  }

  function PartText(part: Json): string {
    match part
    case Str(text) => text
    case Obj(fields) =>
      if Get(fields, "text").Str? then Get(fields, "text").text
      else if Get(fields, "image_url").Str? then Get(fields, "image_url").text
      else if Get(fields, "source").Obj? then SourceText(Get(fields, "source").fields)
      else ""
    case _ => ""
  }

  function PartsText(parts: seq<Json>): string {
    if parts == [] then "" else PartsText(parts[..|parts| - 1]) + PartText(parts[|parts| - 1])
  }

  function ContentText(content: Json): string {
    match content
    case Str(text) => text
    case Arr(parts) => PartsText(parts)
    case _ => ""
  }

  /** `appendContentParts`: `sb` is the builder. */
  method AppendContentParts(content: Json, sb: string) returns (after: string)
    ensures after == sb + ContentText(content)
  {
    hide SourceText;
    after := sb;
    Sequences.Unit(sb);
    match content {
      case Str(text) => after := sb + text;
      case Arr(parts) =>
        for i := 0 to |parts|
          invariant after == sb + PartsText(parts[..i])
        {
          var part := parts[i];
          Sequences.TakeSnoc(parts, i);
          Sequences.DropLast(parts[..i], part);
          Sequences.Assoc(sb, PartsText(parts[..i]), PartText(part));
          Sequences.Unit(after);
          if !part.Obj? {
            if part.Str? {
              after := after + part.text;
            }
            continue;
          }
          if Get(part.fields, "text").Str? {
            after := after + Get(part.fields, "text").text;
            continue;
          }
          if Get(part.fields, "image_url").Str? {
            after := after + Get(part.fields, "image_url").text;
            continue;
          }
          if Get(part.fields, "source").Obj? {
            after := after + SourceText(Get(part.fields, "source").fields);
          }
        }
        Sequences.Ends(parts);
      case _ =>
    }
  }

  // ----- turns -----

  /** What one element of a conversation is to the search for the leading user run. */
  datatype Turn =
    | Foreign             // no object: passed over, even within the run
    | User(text: string)
    | Aside               // passed over before the run, ends it after
    | Bar                 // ends the search in any case

  /** The two ways of reading an element of `messages`: strict (OpenAI) and lenient (Claude). */
  function ReadMessage(lenient: bool, message: Json): Turn {
    if !message.Obj? then Foreign
    else
      var role := TextOr(Get(message.fields, "role"));
      if role == "user" then User(ContentText(Get(message.fields, "content")))
      else if lenient || role == "system" || role == "developer" then Aside
      else Bar
  }

  /** An item of a Responses `input`. */
  function ReadItem(item: Json): Turn {
    if !item.Obj? then Foreign
    else
      var kind := TextOr(Get(item.fields, "type"));
      if TextOr(Get(item.fields, "role")) == "user" && (kind == "message" || kind == "") then
        User(ContentText(Get(item.fields, "content")))
      else
        Aside
  }

  type Reader = Json -> Turn

  function MessageReader(lenient: bool): Reader {
    m => ReadMessage(lenient, m)
  }

  function ItemReader(): Reader {
    m => ReadItem(m)
  }

  /** Whether a user run was found, and its text. */
  datatype Found = Found(started: bool, text: string)

  function Run(read: Reader, items: seq<Json>, started: bool): Found {
    if items == [] then Found(started, "")
    else
      match read(items[0])
      case Foreign => Run(read, items[1..], started)
      case User(text) => Found(true, text + Run(read, items[1..], true).text)
      case Aside => if started then Found(true, "") else Run(read, items[1..], false)
      case Bar => Found(started, "")
  }

  function MessageTurns(root: Object, lenient: bool): Found {
    if Get(root, "messages").Arr? then Run(MessageReader(lenient), Get(root, "messages").items, false)
    else Found(false, "")
  }

  function InputTurns(input: Json): Found {
    match input
    case Str(text) => Found(text != "", text)
    case Arr(items) => Run(ItemReader(), items, false)
    case _ => Found(false, "")
  }

  /** The whole search goes on from where it has come. */
  lemma Onward(read: Reader, items: seq<Json>, i: nat, started: bool, sb: string, whole: Found)
    requires i < |items|
    requires var r := Run(read, items[i..], started); whole == Found(r.started, sb + r.text)
    ensures match read(items[i])
            case Foreign => var r := Run(read, items[i + 1..], started); whole == Found(r.started, sb + r.text)
            case User(text) => var r := Run(read, items[i + 1..], true); whole == Found(true, sb + text + r.text)
            case Aside => if started then whole == Found(true, sb)
                          else var r := Run(read, items[i + 1..], false); whole == Found(r.started, sb + r.text)
            case Bar => whole == Found(started, sb)
  {
    Sequences.SplitAt(items, i);
    Sequences.ConsTail(items[i], items[i + 1..]);
    Sequences.Unit(sb);
    if read(items[i]).User? {
      Sequences.Assoc(sb, read(items[i]).text, Run(read, items[i + 1..], true).text);
    }
  }

  lemma {:induction false} StartedStays(read: Reader, items: seq<Json>)
    ensures Run(read, items, true).started
    decreases |items|
  {
    if items != [] {
      StartedStays(read, items[1..]);
    }
  }

  /** `collectMessageTurns` */
  method CollectMessageTurns(root: Object, sb: string, lenient: bool) returns (found: bool, after: string)
    ensures Found(found, after) == Found(MessageTurns(root, lenient).started, sb + MessageTurns(root, lenient).text)
  {
    hide ContentText;
    after := sb;
    Sequences.Unit(sb);
    if !Get(root, "messages").Arr? {
      return false, after;
    }
    var messages := Get(root, "messages").items;
    var started := false;
    ghost var read, whole := MessageReader(lenient), Run(MessageReader(lenient), messages, false);
    Sequences.Ends(messages);
    for i := 0 to |messages|
      invariant var r := Run(read, messages[i..], started);
                Found(whole.started, sb + whole.text) == Found(r.started, after + r.text)
    {
      Onward(read, messages, i, started, after, Found(whole.started, sb + whole.text));
      if !messages[i].Obj? {
        continue;
      }
      var msg := messages[i].fields;
      var role := TextOr(Get(msg, "role"));
      if !started {
        if role == "user" {
          started := true;
        } else if lenient || role == "system" || role == "developer" {
          continue;
        } else {
          return false, after;
        }
      } else if role != "user" {
        break;
      }
      StartedStays(read, messages[i + 1..]);
      after := AppendContentParts(Get(msg, "content"), after);
    }
    return started, after;
  }

  /** `collectResponsesTurns` */
  method CollectResponsesTurns(root: Object, sb: string) returns (found: bool, after: string)
    ensures var turns := InputTurns(Get(root, "input")); Found(found, after) == Found(turns.started, sb + turns.text)
  {
    hide ContentText;
    var input := Get(root, "input");
    after := sb;
    Sequences.Unit(sb);
    if input.Str? {
      return input.text != "", sb + input.text;
    }
    if !input.Arr? {
      return false, after;
    }
    var started := false;
    ghost var read, whole := ItemReader(), Run(ItemReader(), input.items, false);
    Sequences.Ends(input.items);
    for i := 0 to |input.items|
      invariant var r := Run(read, input.items[i..], started);
                Found(whole.started, sb + whole.text) == Found(r.started, after + r.text)
    {
      Onward(read, input.items, i, started, after, Found(whole.started, sb + whole.text));
      if !input.items[i].Obj? {
        continue;
      }
      var item := input.items[i].fields;
      var role, kind := TextOr(Get(item, "role")), TextOr(Get(item, "type"));
      var isUser := role == "user" && (kind == "message" || kind == "");
      if !started {
        if !isUser {
          continue;
        }
        started := true;
      } else if !isUser {
        break;
      }
      StartedStays(read, input.items[i + 1..]);
      after := AppendContentParts(Get(item, "content"), after);
    }
    return started, after;
  }

  function FirstOf(a: Found, b: Found, c: Found): string {
    if a.started then a.text else if b.started then b.text else if c.started then c.text else ""
  }

  /** The search of `firstUserContent` in a decoded body; the format comes trimmed and in lower case. */
  function ConversationText(source: string, root: Object): string {
    if source == "openai" then MessageTurns(root, false).text
    else if source == "claude" then MessageTurns(root, true).text
    else if source == "openai-response" then InputTurns(Get(root, "input")).text
    else FirstOf(MessageTurns(root, false), MessageTurns(root, true), InputTurns(Get(root, "input")))
  }

  /** The format reads the input: by its name, or because the messages hold no user run. */
  predicate ReadsInput(source: string, root: Object) {
    || source == "openai-response"
    || (&& source != "openai" && source != "claude"
        && !MessageTurns(root, false).started && !MessageTurns(root, true).started)
  }

  /** `firstUserContent`, where `body` is what parsing gave, None when it failed.  A `null` body reads as
      an object without keys. */
  method FirstUserContent(source: string, body: Option<Json>) returns (text: string)
    ensures text == match body
                    case Some(Obj(root)) => ConversationText(source, root)
                    case _ => ""
  {
    hide MessageTurns, InputTurns;
    if body.None? || !body.value.Obj? {
      return "";
    }
    var root := body.value.fields;
    var found;
    Sequences.Unit(MessageTurns(root, false).text);
    Sequences.Unit(MessageTurns(root, true).text);
    Sequences.Unit(InputTurns(Get(root, "input")).text);
    NothingFound(root);
    if source == "openai" {
      found, text := CollectMessageTurns(root, "", false);
    } else if source == "claude" {
      found, text := CollectMessageTurns(root, "", true);
    } else if source == "openai-response" {
      found, text := CollectResponsesTurns(root, "");
    } else {
      found, text := CollectMessageTurns(root, "", false);
      if found {
        return;
      }
      found, text := CollectMessageTurns(root, "", true);
      if found {
        return;
      }
      found, text := CollectResponsesTurns(root, "");
    }
  }

  lemma {:induction false} NoRunNoText(read: Reader, items: seq<Json>)
    ensures !Run(read, items, false).started ==> Run(read, items, false).text == ""
    decreases |items|
  {
    if items != [] {
      NoRunNoText(read, items[1..]);
    }
  }

  lemma NothingFound(root: Object)
    ensures !MessageTurns(root, false).started ==> MessageTurns(root, false).text == ""
    ensures !MessageTurns(root, true).started ==> MessageTurns(root, true).text == ""
    ensures !InputTurns(Get(root, "input")).started ==> InputTurns(Get(root, "input")).text == ""
  {
    var messages, items := ItemsOr(Get(root, "messages")), ItemsOr(Get(root, "input"));
    NoRunNoText(MessageReader(false), messages);
    NoRunNoText(MessageReader(true), messages);
    NoRunNoText(ItemReader(), items);
  }

  // ----- a conversation that grows -----

  /** The search ends within the items. */
  predicate Ends(read: Reader, items: seq<Json>, started: bool) {
    items != [] &&
    match read(items[0])
    case Foreign => Ends(read, items[1..], started)
    case User(_) => Ends(read, items[1..], true)
    case Aside => started || Ends(read, items[1..], false)
    case Bar => true
  }

  function Then(a: Found, b: Found): Found {
    Found(b.started, a.text + b.text)
  }

  /** The search through a longer list: what the first part gives, and what follows only while the search
      is still going on. */
  lemma {:induction false} RunOfSum(read: Reader, a: seq<Json>, b: seq<Json>, started: bool)
    ensures var first := Run(read, a, started);
            Run(read, a + b, started) ==
            if Ends(read, a, started) then first else Then(first, Run(read, b, first.started))
    decreases |a|
  {
    if a == [] {
      Sequences.Unit(b);
      Sequences.Unit(Run(read, b, started).text);
    } else {
      Sequences.AppendTail(a, b);
      var turn := read(a[0]);
      if turn.User? {
        RunOfSum(read, a[1..], b, true);
        StartedStays(read, a[1..]);
        StartedStays(read, b);
        Sequences.Assoc(turn.text, Run(read, a[1..], true).text, Run(read, b, true).text);
      } else {
        RunOfSum(read, a[1..], b, started);
      }
    }
  }

  /** The first object, if any, is no user turn. */
  predicate StartsAside(read: Reader, items: seq<Json>) {
    items == [] || (if read(items[0]).Foreign? then StartsAside(read, items[1..]) else !read(items[0]).User?)
  }

  lemma {:induction false} AsideAddsNothing(read: Reader, items: seq<Json>)
    requires StartsAside(read, items)
    ensures Run(read, items, true) == Found(true, "")
    decreases |items|
  {
    if items != [] && read(items[0]).Foreign? {
      AsideAddsNothing(read, items[1..]);
    }
  }

  /** Once the user run has started, the answer and all that follows it change nothing. */
  lemma GrowthIsIgnored(read: Reader, items: seq<Json>, more: seq<Json>)
    requires Run(read, items, false).started && StartsAside(read, more)
    ensures Run(read, items + more, false) == Run(read, items, false)
  {
    RunOfSum(read, items, more, false);
    AsideAddsNothing(read, more);
    Sequences.Unit(Run(read, items, false).text);
  }

  /** An element that the search passes over while it looks for the user run. */
  predicate Passed(turn: Turn) {
    turn.Foreign? || turn.Aside?
  }

  /** Whatever stands before the first user turn, as long as it is passed over, is of no account. */
  lemma {:induction false} PreambleIsIgnored(read: Reader, before: seq<Json>, rest: seq<Json>)
    requires forall m <- before :: Passed(read(m))
    ensures Run(read, before + rest, false) == Run(read, rest, false)
    decreases |before|
  {
    if before == [] {
      Sequences.Unit(rest);
    } else {
      Sequences.AppendTail(before, rest);
      assert before[0] in before;
      PreambleIsIgnored(read, before[1..], rest);
    }
  }

  /** A bar ends the strict search, and then the longer list is no different. */
  lemma {:induction false} NotStartedEnds(items: seq<Json>, started: bool)
    requires !Run(MessageReader(false), items, started).started && Run(MessageReader(true), items, started).started
    ensures Ends(MessageReader(false), items, started)
    decreases |items|
  {
    hide ContentText;
    if items != [] {
      var strict, lenient := MessageReader(false)(items[0]), MessageReader(true)(items[0]);
      if strict.User? {
        StartedStays(MessageReader(false), items[1..]);
      } else if !strict.Bar? && !(strict.Aside? && started) {
        NotStartedEnds(items[1..], started);
      }
    }
  }

  function WithMessages(root: Object, messages: seq<Json>): Object {
    root["messages" := Arr(messages)]
  }

  function WithInput(root: Object, items: seq<Json>): Object {
    root["input" := Arr(items)]
  }

  lemma ReadersAgree(items: seq<Json>)
    ensures StartsAside(MessageReader(false), items) <==> StartsAside(MessageReader(true), items)
  {
    hide ContentText;
  }

  /** The text of a conversation does not change as messages follow the first user run, in any format
      that finds the run in the messages. */
  lemma GrowingConversation(source: string, root: Object, messages: seq<Json>, more: seq<Json>)
    requires source != "openai-response" && StartsAside(MessageReader(true), more)
    requires Run(MessageReader(source != "openai"), messages, false).started
    ensures ConversationText(source, WithMessages(root, messages + more)) ==
            ConversationText(source, WithMessages(root, messages))
  {
    hide MessageReader, Ends, StartsAside;
    ReadersAgree(more);
    var strict, lenient := MessageReader(false), MessageReader(true);
    if Run(strict, messages, false).started {
      GrowthIsIgnored(strict, messages, more);
    } else {
      NotStartedEnds(messages, false);
      RunOfSum(strict, messages, more, false);
    }
    if Run(lenient, messages, false).started {
      GrowthIsIgnored(lenient, messages, more);
    }
  }

  lemma InputText(source: string, root: Object, items: seq<Json>)
    ensures ReadsInput(source, root) ==>
              ConversationText(source, WithInput(root, items)) == Run(ItemReader(), items, false).text
    ensures !ReadsInput(source, root) ==>
              ConversationText(source, WithInput(root, items)) == ConversationText(source, root)
  {
    hide Run;
    var r := WithInput(root, items);
    assert Get(r, "messages") == Get(root, "messages");
    NothingFound(r);
  }

  /** The same for the items of an input, in every format that reads it: by its name, or because the
      messages hold no user run.  In the others the input does not count at all. */
  lemma GrowingResponses(source: string, root: Object, items: seq<Json>, more: seq<Json>)
    requires Run(ItemReader(), items, false).started && StartsAside(ItemReader(), more)
    ensures ConversationText(source, WithInput(root, items + more)) == ConversationText(source, WithInput(root, items))
    ensures ReadsInput(source, root) ==>
              ConversationText(source, WithInput(root, items + more)) == Run(ItemReader(), items, false).text
  {
    hide Run, StartsAside, ConversationText, ReadsInput;
    GrowthIsIgnored(ItemReader(), items, more);
    InputText(source, root, items);
    InputText(source, root, items + more);
  }

  predicate IsPreamble(message: Json) {
    message.Obj? && (Get(message.fields, "role") == Str("system") || Get(message.fields, "role") == Str("developer"))
  }

  lemma PreambleIsPassed(lenient: bool, message: Json)
    requires IsPreamble(message)
    ensures Passed(MessageReader(lenient)(message))
  {
    hide ContentText;
  }

  /** Elements without a user turn are passed over, or one of them ends the search. */
  lemma {:induction false} NoUserBefore(read: Reader, before: seq<Json>, rest: seq<Json>)
    requires forall m <- before :: !read(m).User?
    ensures Run(read, before + rest, false) ==
            if forall m <- before :: Passed(read(m)) then Run(read, rest, false) else Found(false, "")
    decreases |before|
  {
    if before == [] {
      Sequences.Unit(rest);
    } else {
      var first, tail := before[0], before[1..];
      Sequences.AppendTail(before, rest);
      Sequences.HeadTail(before);
      assert first in before;
      NoUserBefore(read, tail, rest);
      assert (forall m <- before :: Passed(read(m))) <==> Passed(read(first)) && forall m <- tail :: Passed(read(m));
    }
  }

  /** Both readers see the same user turns. */
  lemma UserForBoth(m: Json)
    ensures MessageReader(false)(m).User? <==> MessageReader(true)(m).User?
  {
    hide ContentText;
  }

  /** Inserting, editing or dropping system and developer messages anywhere before the first user turn
      of the messages does not change the text, in any format, whatever else stands there. */
  lemma PreambleDoesNotCount(source: string, root: Object, before: seq<Json>, a: seq<Json>, b: seq<Json>,
                             rest: seq<Json>)
    requires forall m <- before :: !MessageReader(false)(m).User?
    requires forall m <- a + b :: IsPreamble(m)
    ensures ConversationText(source, WithMessages(root, before + a + rest)) ==
            ConversationText(source, WithMessages(root, before + b + rest))
  {
    hide MessageReader, IsPreamble, Run;
    forall lenient: bool
      ensures Run(MessageReader(lenient), before + a + rest, false) ==
              Run(MessageReader(lenient), before + b + rest, false)
    {
      PreambleInside(lenient, before, a, rest);
      PreambleInside(lenient, before, b, rest);
    }
    assert Run(MessageReader(true), before + a + rest, false) == Run(MessageReader(true), before + b + rest, false);
    assert Run(MessageReader(false), before + a + rest, false) == Run(MessageReader(false), before + b + rest, false);
  }

  lemma PreambleInside(lenient: bool, before: seq<Json>, a: seq<Json>, rest: seq<Json>)
    requires forall m <- before :: !MessageReader(false)(m).User?
    requires forall m <- a :: IsPreamble(m)
    ensures Run(MessageReader(lenient), before + a + rest, false) ==
            if forall m <- before :: Passed(MessageReader(lenient)(m)) then Run(MessageReader(lenient), rest, false)
            else Found(false, "")
  {
    hide MessageReader, IsPreamble, Run;
    var read := MessageReader(lenient);
    forall m | m in before
      ensures !read(m).User?
    {
      UserForBoth(m);
    }
    forall m | m in a
      ensures Passed(read(m))
    {
      PreambleIsPassed(lenient, m);
    }
    Sequences.Assoc(before, a, rest);
    NoUserBefore(read, before, a + rest);
    NoUserBefore(read, a, rest);
  }

  /** System and developer items, as all items that are no user turns, are passed over in an input. */
  lemma PreambleItemIsPassed(item: Json)
    requires IsPreamble(item)
    ensures Passed(ItemReader()(item))
  {
    hide ContentText;
  }

  /** Nor do such items of an input count before its first user turn, in every format that reads the
      input; in the others nothing in the input does. */
  lemma PreambleItemsDoNotCount(source: string, root: Object, before: seq<Json>, a: seq<Json>, b: seq<Json>,
                                rest: seq<Json>)
    requires forall m <- before + a + b :: Passed(ItemReader()(m))
    ensures ConversationText(source, WithInput(root, before + a + rest)) ==
            ConversationText(source, WithInput(root, before + b + rest))
    ensures ReadsInput(source, root) ==>
              ConversationText(source, WithInput(root, before + a + rest)) == Run(ItemReader(), rest, false).text
  {
    hide Run, ItemReader, Passed, ConversationText, ReadsInput;
    assert forall m <- before + a :: m in before + a + b;
    assert forall m <- before + b :: m in before + a + b;
    PreambleIsIgnored(ItemReader(), before + a, rest);
    PreambleIsIgnored(ItemReader(), before + b, rest);
    InputText(source, root, before + a + rest);
    InputText(source, root, before + b + rest);
  }

  // ----- one step of growth -----

  /** More messages, or more items of an input, behind those of a body. */
  datatype Growth = MoreMessages(messages: seq<Json>, more: seq<Json>) | MoreItems(items: seq<Json>, more: seq<Json>)

  function Before(root: Object, growth: Growth): Object {
    match growth
    case MoreMessages(messages, _) => WithMessages(root, messages)
    case MoreItems(items, _) => WithInput(root, items)
  }

  function After(root: Object, growth: Growth): Object {
    match growth
    case MoreMessages(messages, more) => WithMessages(root, messages + more)
    case MoreItems(items, more) => WithInput(root, items + more)
  }

  /** The user run has started where the growth takes place, and what follows starts with no user turn. */
  predicate Continues(source: string, growth: Growth) {
    match growth
    case MoreMessages(messages, more) =>
      Run(MessageReader(source != "openai"), messages, false).started && StartsAside(MessageReader(true), more)
    case MoreItems(items, more) => Run(ItemReader(), items, false).started && StartsAside(ItemReader(), more)
  }

  /** A growing conversation keeps its text, in every format. */
  lemma GrowthKeepsText(source: string, root: Object, growth: Growth)
    requires Continues(source, growth)
    ensures ConversationText(source, After(root, growth)) == ConversationText(source, Before(root, growth))
  {
    hide Run, StartsAside, InputTurns;
    match growth {
      case MoreMessages(messages, more) =>
        if source != "openai-response" {
          GrowingConversation(source, root, messages, more);
        }
      case MoreItems(items, more) =>
        GrowingResponses(source, root, items, more);
    }
  }
}
