/** The turns of a conversation, read off the fields as clients write them. */
module SessionTurns {
  import opened Text
  import opened Json
  import opened SessionText
  import Sequences

  // ----- one element -----

  /** What a part of a content list says: its text, else its image, else the data or the URL of its
      source. */
  lemma PartReads(fields: Object)
    ensures Get(fields, "text").Str? ==> PartText(Obj(fields)) == Get(fields, "text").text
    ensures !Get(fields, "text").Str? && Get(fields, "image_url").Str? ==>
              PartText(Obj(fields)) == Get(fields, "image_url").text
    ensures !Get(fields, "text").Str? && !Get(fields, "image_url").Str? ==>
              var source := FieldsOr(Get(fields, "source"));
              && (Get(source, "data").Str? ==> PartText(Obj(fields)) == Get(source, "data").text)
              && (!Get(source, "data").Str? && Get(source, "url").Str? ==>
                    PartText(Obj(fields)) == Get(source, "url").text)
              && (!Get(source, "data").Str? && !Get(source, "url").Str? ==> PartText(Obj(fields)) == "")
  {
  }

  lemma ContentReads(text: string, part: Json)
    ensures ContentText(Str(text)) == text && PartText(Str(text)) == text
    ensures ContentText(Arr([part])) == PartText(part)
    ensures !part.Str? && !part.Arr? ==> ContentText(part) == ""
    ensures !part.Str? && !part.Obj? ==> PartText(part) == ""
  {
    hide SourceText;
    assert [part][..0] == [] && PartsText([part]) == PartsText([part][..0]) + PartText(part);
    Sequences.Unit(PartText(part));
  }

  /** A message is a user turn, with the text of its content, exactly when its role is `user`; of the
      others, system and developer messages are passed over by both readers, the rest by one. */
  lemma MessageReads(lenient: bool, message: Json)
    requires message.Obj?
    ensures var role, turn := Get(message.fields, "role"), MessageReader(lenient)(message);
            && (turn.User? <==> role == Str("user"))
            && (turn.User? ==> turn.text == ContentText(Get(message.fields, "content")))
            && (role == Str("system") || role == Str("developer") ==> turn == Aside)
            && (role !in {Str("user"), Str("system"), Str("developer")} ==> turn == if lenient then Aside else Bar)
  {
    hide ContentText;
  }

  /** An item is one exactly when its role is `user` and its type is `message`, empty or no text at all. */
  lemma ItemReads(item: Json)
    requires item.Obj?
    ensures var role, kind, turn := Get(item.fields, "role"), Get(item.fields, "type"), ItemReader()(item);
            && (turn.User? <==> role == Str("user") && (kind == Str("message") || kind == Str("") || !kind.Str?))
            && (turn.User? ==> turn.text == ContentText(Get(item.fields, "content")))
            && (!turn.User? ==> turn == Aside)
  {
    hide ContentText;
  }

  lemma OthersAreForeign(v: Json)
    requires !v.Obj?
    ensures MessageReader(false)(v) == Foreign && MessageReader(true)(v) == Foreign && ItemReader()(v) == Foreign
  {
  }

  // ----- whole conversations -----

  /** The three ways in which clients write an element: bare, typed, and typed with content parts. */
  datatype Form = Bare | Typed | InParts

  datatype Said = Said(role: string, form: Form, text: string)

  function Content(said: Said): Json {
    if said.form.InParts? then Arr([Obj(map["type" := Str("input_text"), "text" := Str(said.text)])])
    else Str(said.text)
  }

  function Element(said: Said): Json {
    if said.form.Bare? then Obj(map["role" := Str(said.role), "content" := Content(said)])
    else Obj(map["type" := Str("message"), "role" := Str(said.role), "content" := Content(said)])
  }

  function Elements(talk: seq<Said>): seq<Json> {
    if talk == [] then [] else [Element(talk[0])] + Elements(talk[1..])
  }

  function TextOf(talk: seq<Said>): string {
    if talk == [] then "" else talk[0].text + TextOf(talk[1..])
  }

  datatype Mode = Strict | Lenient | Items

  function ReaderOf(mode: Mode): Reader {
    if mode.Items? then ItemReader() else MessageReader(mode.Lenient?)
  }

  lemma ContentOfSaid(said: Said)
    ensures ContentText(Content(said)) == said.text
  {
    hide ContentText, PartText;
    if said.form.InParts? {
      ContentReads(said.text, Content(said).items[0]);
      PartReads(Content(said).items[0].fields);
    } else {
      ContentReads(said.text, Null);
    }
  }

  lemma ElementReads(mode: Mode, said: Said)
    ensures var turn := ReaderOf(mode)(Element(said));
            && (said.role == "user" ==> turn == User(said.text))
            && (said.role == "system" || said.role == "developer" ==> turn == Aside)
            && (said.role == "assistant" ==> turn == if mode.Strict? then Bar else Aside)
  {
    hide ContentText, Content, ItemReader, MessageReader;
    ContentOfSaid(said);
    MessageReads(mode.Lenient?, Element(said));
    ItemReads(Element(said));
  }

  lemma {:induction false} PreambleOfTalk(mode: Mode, talk: seq<Said>, rest: seq<Json>)
    requires forall s <- talk :: s.role == "system" || s.role == "developer" || (s.role == "assistant" && !mode.Strict?)
    ensures Run(ReaderOf(mode), Elements(talk) + rest, false) == Run(ReaderOf(mode), rest, false)
    decreases |talk|
  {
    hide ReaderOf, Element;
    if talk == [] {
      Sequences.Unit(rest);
    } else {
      assert talk[0] in talk;
      ElementReads(mode, talk[0]);
      Sequences.Assoc([Element(talk[0])], Elements(talk[1..]), rest);
      Sequences.ConsTail(Element(talk[0]), Elements(talk[1..]) + rest);
      PreambleOfTalk(mode, talk[1..], rest);
    }
  }

  lemma {:induction false} UserTurnsOfTalk(mode: Mode, talk: seq<Said>, answer: Said, more: seq<Json>, started: bool)
    requires (forall s <- talk :: s.role == "user") && answer.role == "assistant"
    requires talk != [] || started
    ensures Run(ReaderOf(mode), Elements(talk) + ([Element(answer)] + more), started) == Found(true, TextOf(talk))
    decreases |talk|
  {
    hide ReaderOf, Element;
    var rest := [Element(answer)] + more;
    if talk == [] {
      Sequences.Unit(rest);
      Sequences.ConsTail(Element(answer), more);
      ElementReads(mode, answer);
    } else {
      assert talk[0] in talk;
      ElementReads(mode, talk[0]);
      Sequences.Assoc([Element(talk[0])], Elements(talk[1..]), rest);
      Sequences.ConsTail(Element(talk[0]), Elements(talk[1..]) + rest);
      UserTurnsOfTalk(mode, talk[1..], answer, more, true);
    }
  }

  lemma RunOfTalk(mode: Mode, preamble: seq<Said>, users: seq<Said>, answer: Said, more: seq<Json>)
    requires forall s <- preamble ::
               s.role == "system" || s.role == "developer" || (s.role == "assistant" && !mode.Strict?)
    requires users != [] && (forall s <- users :: s.role == "user") && answer.role == "assistant"
    ensures Run(ReaderOf(mode), Elements(preamble) + (Elements(users) + ([Element(answer)] + more)), false)
         == Found(true, TextOf(users))
  {
    hide ReaderOf, Element;
    PreambleOfTalk(mode, preamble, Elements(users) + ([Element(answer)] + more));
    UserTurnsOfTalk(mode, users, answer, more, false);
  }

  /** System and developer elements, then what the user says, then an answer and whatever else: the text is
      what the user says, in messages and in an input alike, and in every format that reads them. */
  lemma TextOfConversation(source: string, preamble: seq<Said>, users: seq<Said>, answer: Said, more: seq<Json>)
    requires forall s <- preamble :: s.role == "system" || s.role == "developer"
    requires users != [] && (forall s <- users :: s.role == "user") && answer.role == "assistant"
    ensures var all := Arr(Elements(preamble) + (Elements(users) + ([Element(answer)] + more)));
            && (source != "openai-response" ==> ConversationText(source, map["messages" := all]) == TextOf(users))
            && (source != "openai" && source != "claude" ==>
                  ConversationText(source, map["input" := all]) == TextOf(users))
  {
    hide Run, Element;
    RunOfTalk(Strict, preamble, users, answer, more);
    RunOfTalk(Lenient, preamble, users, answer, more);
    RunOfTalk(Items, preamble, users, answer, more);
  }

  /** An answer in front ends the search in OpenAI messages, and is passed over in the others. */
  lemma TextBehindAnAnswer(source: string, first: Said, users: seq<Said>, answer: Said, more: seq<Json>)
    requires first.role == "assistant" && answer.role == "assistant"
    requires users != [] && forall s <- users :: s.role == "user"
    ensures var all := Arr(Elements([first]) + (Elements(users) + ([Element(answer)] + more)));
            && ConversationText("openai", map["messages" := all]) == ""
            && (source != "openai" && source != "openai-response" ==>
                  ConversationText(source, map["messages" := all]) == TextOf(users))
            && (source != "openai" && source != "claude" ==>
                  ConversationText(source, map["input" := all]) == TextOf(users))
  {
    hide Run, Element;
    var rest := Elements(users) + ([Element(answer)] + more);
    RunOfTalk(Lenient, [first], users, answer, more);
    RunOfTalk(Items, [first], users, answer, more);
    BarredAtOnce(first, rest);
  }

  lemma BarredAtOnce(first: Said, rest: seq<Json>)
    requires first.role == "assistant"
    ensures Run(MessageReader(false), Elements([first]) + rest, false) == Found(false, "")
  {
    hide Element, MessageReader;
    ElementReads(Strict, first);
    assert Elements([first]) == [Element(first)];
    Sequences.ConsTail(Element(first), rest);
  }
}
