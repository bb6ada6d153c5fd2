/**
 * The request side of the Copilot Chat provider: `into_copilot_chat`, which
 * turns a host request into a Copilot Chat wire request, the guard that
 * `stream_completion` applies to the last message first, and the small
 * capability matches of `CopilotChatLanguageModel`.
 *
 * Foreign helpers enter as parameters:
 *   toJson         -- `serde_json::to_string` on a tool input, which may fail
 *   stringContents -- `LanguageModelRequestMessage::string_contents`
 *   contentsEmpty  -- `LanguageModelRequestMessage::contents_empty`
 */
module CopilotRequest {
  import opened Wrappers
  import Json
  import opened LanguageModel
  import CC = CopilotChat

  type Message = LanguageModelRequestMessage

  // ------------------------------------------------------------------
  // Coalescing consecutive messages of the same role
  // ------------------------------------------------------------------

  /** Appends `message`, folding it into the last message when their roles agree. */
  function MergeInto(merged: seq<Message>, message: Message): seq<Message>
  {
    if |merged| > 0 && merged[|merged| - 1].role == message.role then
      merged[..|merged| - 1] + [merged[|merged| - 1].(content := merged[|merged| - 1].content + message.content)]
    else
      merged + [message]
  }

  /** The messages after coalescing, as the merge loop builds them from left to right. */
  function Coalesced(messages: seq<Message>): seq<Message>
  {
    if messages == [] then [] else MergeInto(Coalesced(messages[..|messages| - 1]), messages[|messages| - 1])
  }

  /** No two neighbouring messages share a role. */
  predicate RolesAlternate(messages: seq<Message>)
  {
    forall i | 1 <= i < |messages| :: messages[i - 1].role != messages[i].role
  }

  /** The content blocks of one message, each tagged with the message's role. */
  function Tagged(message: Message): seq<(Role, MessageContent)>
  {
    seq(|message.content|, k requires 0 <= k < |message.content| => (message.role, message.content[k]))
  }

  /** All content blocks in reading order, each tagged with the role of its message. */
  function TaggedBlocks(messages: seq<Message>): seq<(Role, MessageContent)>
  {
    if messages == [] then [] else TaggedBlocks(messages[..|messages| - 1]) + Tagged(messages[|messages| - 1])
  }

  lemma TaggedBlocksSnoc(messages: seq<Message>, message: Message)
    ensures TaggedBlocks(messages + [message]) == TaggedBlocks(messages) + Tagged(message)
  {
    assert (messages + [message])[..|messages|] == messages;
  }

  lemma TaggedMerge(a: Message, b: Message)
    requires a.role == b.role
    ensures Tagged(a.(content := a.content + b.content)) == Tagged(a) + Tagged(b)
  {
  }

  lemma CoalescedSnoc(prefix: seq<Message>, message: Message)
    ensures Coalesced(prefix + [message]) == MergeInto(Coalesced(prefix), message)
  {
    assert (prefix + [message])[..|prefix|] == prefix;
  }

  /** Coalescing never adds messages, yields none only for no input, and keeps the role of the last message. */
  lemma {:induction false} CoalescedShape(messages: seq<Message>)
    ensures |Coalesced(messages)| <= |messages|
    ensures messages == [] <==> Coalesced(messages) == []
    ensures messages != [] ==> Coalesced(messages)[|Coalesced(messages)| - 1].role == messages[|messages| - 1].role
  {
    if messages != [] {
      var prefix, message := messages[..|messages| - 1], messages[|messages| - 1];
      CoalescedShape(prefix);
      var merged := Coalesced(prefix);
      var result := MergeInto(merged, message);
      assert Coalesced(messages) == result;
      if |merged| > 0 && merged[|merged| - 1].role == message.role {
        assert |result| == |merged| && result[|result| - 1].role == message.role;
      } else {
        assert |result| == |merged| + 1 && result[|result| - 1] == message;
      }
    }
  }

  /** After coalescing, no two neighbouring messages share a role. */
  lemma {:induction false} CoalescedAlternates(messages: seq<Message>)
    ensures RolesAlternate(Coalesced(messages))
  {
    if messages != [] {
      var prefix, message := messages[..|messages| - 1], messages[|messages| - 1];
      CoalescedAlternates(prefix);
      CoalescedShape(prefix);
      var merged := Coalesced(prefix);
      var result := Coalesced(messages);
      assert result == MergeInto(merged, message);
      if |merged| > 0 && merged[|merged| - 1].role == message.role {
        assert |result| == |merged|;
        assert forall i | 0 <= i < |merged| :: result[i].role == merged[i].role;
      } else {
        assert result == merged + [message];
      }
    }
  }

  /**
   * Coalescing keeps every content block with its role, in reading order:
   * nothing is reordered, dropped or added.
   */
  lemma {:induction false} CoalescedKeepsBlocks(messages: seq<Message>)
    ensures TaggedBlocks(Coalesced(messages)) == TaggedBlocks(messages)
  {
    if messages != [] {
      var prefix, message := messages[..|messages| - 1], messages[|messages| - 1];
      CoalescedKeepsBlocks(prefix);
      TaggedMergeInto(Coalesced(prefix), message);
    }
  }

  /** One merge step appends the message's tagged blocks. */
  lemma TaggedMergeInto(merged: seq<Message>, message: Message)
    ensures TaggedBlocks(MergeInto(merged, message)) == TaggedBlocks(merged) + Tagged(message)
  {
    if |merged| > 0 && merged[|merged| - 1].role == message.role {
      var init, last := merged[..|merged| - 1], merged[|merged| - 1];
      assert merged == init + [last];
      TaggedBlocksSnoc(init, last);
      TaggedBlocksSnoc(init, last.(content := last.content + message.content));
      TaggedMerge(last, message);
    } else {
      TaggedBlocksSnoc(merged, message);
    }
  }

  /** The merge loop of `into_copilot_chat`, which extends the last message's content in place. */
  method MergeConsecutiveRoles(messages: seq<Message>) returns (merged: seq<Message>)
    ensures merged == Coalesced(messages)
    ensures RolesAlternate(merged)
    ensures TaggedBlocks(merged) == TaggedBlocks(messages)
  {
    merged := [];
    for i := 0 to |messages|
      invariant merged == Coalesced(messages[..i])
    {
      var message := messages[i];
      if |merged| > 0 && merged[|merged| - 1].role == message.role {
        var last := merged[|merged| - 1];
        merged := merged[..|merged| - 1] + [last.(content := last.content + message.content)];
      } else {
        merged := merged + [message];
      }
      assert messages[..i + 1][..i] == messages[..i];
    }
    assert messages[..|messages|] == messages;
    CoalescedAlternates(messages);
    CoalescedKeepsBlocks(messages);
  }

  // ------------------------------------------------------------------
  // User messages: one Tool message per tool result
  // ------------------------------------------------------------------

  /** The tool results of a message, in order. */
  function ToolResultsOf(content: seq<MessageContent>): seq<LanguageModelToolResult>
  {
    if content == [] then []
    else
      ToolResultsOf(content[..|content| - 1])
      + (match content[|content| - 1]
         case ToolResult(result) => [result]
         case _ => [])
  }

  /** Every tool result block of a message occurs in `ToolResultsOf` exactly as often as in the message. */
  lemma {:induction false} ToolResultsOfCount(content: seq<MessageContent>, result: LanguageModelToolResult)
    ensures multiset(ToolResultsOf(content))[result] == multiset(content)[MessageContent.ToolResult(result)]
  {
    if content != [] {
      var prefix, last := content[..|content| - 1], content[|content| - 1];
      assert content == prefix + [last];
      assert multiset(content) == multiset(prefix) + multiset{last};
      ToolResultsOfCount(prefix, result);
      if last.ToolResult? {
        assert ToolResultsOf(content) == ToolResultsOf(prefix) + [last.toolResult];
      } else {
        assert ToolResultsOf(content) == ToolResultsOf(prefix);
      }
    }
  }

  /** Substituted for an image tool result when the model has no vision support. */
  const ImageWithoutVisionText: string :=
    "[Tool responded with an image, but this model does not support vision]"

  /** The Tool message for one tool result. */
  function ToolResultMessage(result: LanguageModelToolResult, supportsVision: bool): (m: CC.ChatMessage)
    ensures m.Tool? && m.toolCallId == result.toolUseId
    ensures result.content.Text? ==> m.content == CC.Plain(result.content.text)
    ensures result.content.Image? && supportsVision ==>
              m.content == CC.Multipart([CC.ChatMessagePart.Image(CC.ImageUrl(result.content.image.source))])
    ensures result.content.Image? && !supportsVision ==> m.content == CC.Plain(ImageWithoutVisionText)
  {
    var content :=
      match result.content
      case Text(text) => CC.Plain(text)
      case Image(image) =>
        if supportsVision then CC.Multipart([CC.ChatMessagePart.Image(CC.ImageUrl(image.source))])
        else CC.Plain(ImageWithoutVisionText);
    CC.ChatMessage.Tool(result.toolUseId, content)
  }

  /** The first loop over a User message: its Tool messages, in block order. */
  method ToolResultMessages(content: seq<MessageContent>, supportsVision: bool) returns (messages: seq<CC.ChatMessage>)
    ensures |messages| == |ToolResultsOf(content)|
    ensures forall k :: 0 <= k < |messages| ==> messages[k] == ToolResultMessage(ToolResultsOf(content)[k], supportsVision)
  {
    messages := [];
    for i := 0 to |content|
      invariant |messages| == |ToolResultsOf(content[..i])|
      invariant forall k :: 0 <= k < |messages| ==>
                  messages[k] == ToolResultMessage(ToolResultsOf(content[..i])[k], supportsVision)
    {
      assert content[..i + 1][..i] == content[..i];
      if content[i].ToolResult? {
        messages := messages + [ToolResultMessage(content[i].toolResult, supportsVision)];
      }
    }
    assert content[..|content|] == content;
  }

  // ------------------------------------------------------------------
  // User messages: the content parts
  // ------------------------------------------------------------------

  /**
   * What a reader of the parts sees: each character of a text part, and
   * each image part as one picture. Part boundaries between texts are not
   * visible at this level.
   */
  datatype Atom = Char(c: char) | Picture(url: string)

  function Chars(s: string): (r: seq<Atom>)
    ensures |r| == |s|
  {
    seq(|s|, k requires 0 <= k < |s| => Char(s[k]))
  }

  function PartAtoms(part: CC.ChatMessagePart): seq<Atom>
  {
    match part
    case Text(text) => Chars(text)
    case Image(imageUrl) => [Picture(imageUrl.url)]
  }

  function PartsAtoms(parts: seq<CC.ChatMessagePart>): seq<Atom>
  {
    if parts == [] then [] else PartsAtoms(parts[..|parts| - 1]) + PartAtoms(parts[|parts| - 1])
  }

  /** What a content block contributes to the User message: its text, or its image when the model has vision. */
  function BlockAtoms(block: MessageContent, supportsVision: bool): seq<Atom>
  {
    match block
    case Text(text) => Chars(text)
    case Thinking(text, _) => Chars(text)
    case Image(image) => if supportsVision then [Picture(image.source)] else []
    case _ => []
  }

  function ContentAtoms(content: seq<MessageContent>, supportsVision: bool): seq<Atom>
  {
    if content == [] then []
    else ContentAtoms(content[..|content| - 1], supportsVision) + BlockAtoms(content[|content| - 1], supportsVision)
  }

  /** Content parts with no empty text part and no two neighbouring text parts. */
  predicate WellFormedParts(parts: seq<CC.ChatMessagePart>)
  {
    && (forall k | 0 <= k < |parts| :: parts[k].Text? ==> parts[k].text != "")
    && (forall k | 1 <= k < |parts| :: !(parts[k - 1].Text? && parts[k].Text?))
  }

  /** One step of the parts loop: merge non-empty text into a trailing text part, gate images on vision. */
  function AddUserBlock(parts: seq<CC.ChatMessagePart>, block: MessageContent, supportsVision: bool): seq<CC.ChatMessagePart>
  {
    match block
    case Text(text) => AddText(parts, text)
    case Thinking(text, _) => AddText(parts, text)
    case Image(image) => if supportsVision then parts + [CC.ChatMessagePart.Image(CC.ImageUrl(image.source))] else parts
    case _ => parts
  }

  function AddText(parts: seq<CC.ChatMessagePart>, text: string): seq<CC.ChatMessagePart>
  {
    if text == "" then parts
    else if |parts| > 0 && parts[|parts| - 1].Text? then
      parts[..|parts| - 1] + [CC.ChatMessagePart.Text(parts[|parts| - 1].text + text)]
    else
      parts + [CC.ChatMessagePart.Text(text)]
  }

  /** The content parts of a User message. */
  function UserParts(content: seq<MessageContent>, supportsVision: bool): seq<CC.ChatMessagePart>
  {
    if content == [] then []
    else AddUserBlock(UserParts(content[..|content| - 1], supportsVision), content[|content| - 1], supportsVision)
  }

  lemma PartsAtomsSnoc(parts: seq<CC.ChatMessagePart>, part: CC.ChatMessagePart)
    ensures PartsAtoms(parts + [part]) == PartsAtoms(parts) + PartAtoms(part)
  {
    assert (parts + [part])[..|parts|] == parts;
  }

  lemma ContentAtomsSnoc(content: seq<MessageContent>, block: MessageContent, supportsVision: bool)
    ensures ContentAtoms(content + [block], supportsVision) == ContentAtoms(content, supportsVision) + BlockAtoms(block, supportsVision)
  {
    assert (content + [block])[..|content|] == content;
  }

  lemma CharsAppend(a: string, b: string)
    ensures Chars(a + b) == Chars(a) + Chars(b)
  {
  }

  /** Each step of the parts loop keeps the parts well formed and adds exactly the block's atoms. */
  lemma AddUserBlockSpec(parts: seq<CC.ChatMessagePart>, block: MessageContent, supportsVision: bool)
    requires WellFormedParts(parts)
    ensures WellFormedParts(AddUserBlock(parts, block, supportsVision))
    ensures PartsAtoms(AddUserBlock(parts, block, supportsVision)) == PartsAtoms(parts) + BlockAtoms(block, supportsVision)
  {
    match block {
      case Text(text) =>
        AddTextWellFormed(parts, text);
        AddTextAtoms(parts, text);
      case Thinking(text, _) =>
        AddTextWellFormed(parts, text);
        AddTextAtoms(parts, text);
      case Image(image) =>
        if supportsVision {
          var part := CC.ChatMessagePart.Image(CC.ImageUrl(image.source));
          WellFormedSnoc(parts, part);
          PartsAtomsSnoc(parts, part);
        }
      case _ =>
    }
  }

  /** Appending a part keeps the parts well formed unless it is an empty text or a text after a text. */
  lemma WellFormedSnoc(parts: seq<CC.ChatMessagePart>, part: CC.ChatMessagePart)
    requires WellFormedParts(parts)
    requires part.Text? ==> part.text != "" && !(|parts| > 0 && parts[|parts| - 1].Text?)
    ensures WellFormedParts(parts + [part])
  {
  }

  lemma AddTextWellFormed(parts: seq<CC.ChatMessagePart>, text: string)
    requires WellFormedParts(parts)
    ensures WellFormedParts(AddText(parts, text))
  {
    if text != "" {
      if |parts| > 0 && parts[|parts| - 1].Text? {
        var init, last := parts[..|parts| - 1], parts[|parts| - 1];
        var merged := CC.ChatMessagePart.Text(last.text + text);
        assert AddText(parts, text) == init + [merged];
        WellFormedPrefix(parts);
        WellFormedSnoc(init, merged);
      } else {
        WellFormedSnoc(parts, CC.ChatMessagePart.Text(text));
      }
    }
  }

  lemma AddTextAtoms(parts: seq<CC.ChatMessagePart>, text: string)
    ensures PartsAtoms(AddText(parts, text)) == PartsAtoms(parts) + Chars(text)
  {
    if text == "" {
      assert Chars(text) == [];
    } else if |parts| > 0 && parts[|parts| - 1].Text? {
      var init, last := parts[..|parts| - 1], parts[|parts| - 1];
      var merged := CC.ChatMessagePart.Text(last.text + text);
      assert parts == init + [last];
      PartsAtomsSnoc(init, last);
      PartsAtomsSnoc(init, merged);
      CharsAppend(last.text, text);
    } else {
      PartsAtomsSnoc(parts, CC.ChatMessagePart.Text(text));
    }
  }

  /** The parts of a User message are well formed and show exactly the message's text and, with vision, its images. */
  lemma {:induction false} UserPartsSpec(content: seq<MessageContent>, supportsVision: bool)
    ensures WellFormedParts(UserParts(content, supportsVision))
    ensures PartsAtoms(UserParts(content, supportsVision)) == ContentAtoms(content, supportsVision)
  {
    if content != [] {
      var prefix := content[..|content| - 1];
      UserPartsSpec(prefix, supportsVision);
      AddUserBlockSpec(UserParts(prefix, supportsVision), content[|content| - 1], supportsVision);
    }
  }

  /** The number of characters at the end of a list of atoms, up to the last picture. */
  function TrailingChars(atoms: seq<Atom>): nat
  {
    if atoms == [] || atoms[|atoms| - 1].Picture? then 0 else TrailingChars(atoms[..|atoms| - 1]) + 1
  }

  lemma {:induction false} TrailingCharsAppend(atoms: seq<Atom>, s: string)
    ensures TrailingChars(atoms + Chars(s)) == TrailingChars(atoms) + |s|
    decreases |s|
  {
    if s != [] {
      var init := s[..|s| - 1];
      assert s == init + [s[|s| - 1]];
      CharsAppend(init, [s[|s| - 1]]);
      assert atoms + Chars(s) == (atoms + Chars(init)) + [Char(s[|s| - 1])];
      assert (atoms + Chars(s))[..|atoms + Chars(s)| - 1] == atoms + Chars(init);
      TrailingCharsAppend(atoms, init);
    } else {
      assert atoms + Chars(s) == atoms;
    }
  }

  lemma {:induction false} PartsAtomsEmpty(parts: seq<CC.ChatMessagePart>)
    requires WellFormedParts(parts)
    ensures PartsAtoms(parts) == [] <==> parts == []
  {
    if parts != [] {
      var last := parts[|parts| - 1];
      assert parts == parts[..|parts| - 1] + [last];
      PartsAtomsSnoc(parts[..|parts| - 1], last);
      assert |PartAtoms(last)| > 0;
    }
  }

  /** Well-formed parts whose atoms end in a picture or nothing have no trailing characters. */
  lemma {:induction false} PartsTrailing(parts: seq<CC.ChatMessagePart>)
    requires WellFormedParts(parts)
    requires parts != [] ==> parts[|parts| - 1].Image?
    ensures TrailingChars(PartsAtoms(parts)) == 0
  {
    if parts != [] {
      var init, last := parts[..|parts| - 1], parts[|parts| - 1];
      assert parts == init + [last];
      PartsAtomsSnoc(init, last);
    }
  }

  lemma WellFormedPrefix(parts: seq<CC.ChatMessagePart>)
    requires WellFormedParts(parts) && parts != []
    ensures WellFormedParts(parts[..|parts| - 1])
  {
  }

  /** In well-formed parts ending in text, that text is exactly the trailing run of characters. */
  lemma TextTail(parts: seq<CC.ChatMessagePart>)
    requires WellFormedParts(parts) && parts != [] && parts[|parts| - 1].Text?
    ensures var atoms, t := PartsAtoms(parts), parts[|parts| - 1].text;
      && 0 < |t| <= |atoms|
      && TrailingChars(atoms) == |t|
      && atoms[..|atoms| - |t|] == PartsAtoms(parts[..|parts| - 1])
      && atoms[|atoms| - |t|..] == Chars(t)
  {
    var init, t := parts[..|parts| - 1], parts[|parts| - 1].text;
    WellFormedPrefix(parts);
    PartsTrailing(init);
    TrailingCharsAppend(PartsAtoms(init), t);
  }

  lemma CharsInjective(t: string, s: string)
    requires Chars(t) == Chars(s)
    ensures t == s
  {
    assert forall k | 0 <= k < |t| :: Chars(t)[k] == Char(t[k]) && Chars(s)[k] == Char(s[k]);
  }

  /** The last atom of non-empty well-formed parts is a picture exactly when the last part is an image. */
  lemma LastAtom(parts: seq<CC.ChatMessagePart>)
    requires WellFormedParts(parts) && parts != []
    ensures PartsAtoms(parts) != []
    ensures PartsAtoms(parts)[|PartsAtoms(parts)| - 1].Picture? <==> parts[|parts| - 1].Image?
  {
  }

  /** Two well-formed part lists with the same atoms end in the same part, after equal prefixes of atoms. */
  lemma SameLastPart(p: seq<CC.ChatMessagePart>, q: seq<CC.ChatMessagePart>)
    requires WellFormedParts(p) && WellFormedParts(q) && p != [] && q != []
    requires PartsAtoms(p) == PartsAtoms(q)
    ensures p[|p| - 1] == q[|q| - 1]
    ensures PartsAtoms(p[..|p| - 1]) == PartsAtoms(q[..|q| - 1])
  {
    LastAtom(p);
    LastAtom(q);
    if p[|p| - 1].Image? {
    } else {
      TextTail(p);
      TextTail(q);
      CharsInjective(p[|p| - 1].text, q[|q| - 1].text);
    }
  }

  /**
   * Well-formed parts are determined by their atoms: the contract of the
   * parts loop (well formed, showing the blocks' atoms) pins its result down.
   */
  lemma {:induction false} PartsDeterminedByAtoms(p: seq<CC.ChatMessagePart>, q: seq<CC.ChatMessagePart>)
    requires WellFormedParts(p) && WellFormedParts(q)
    requires PartsAtoms(p) == PartsAtoms(q)
    ensures p == q
    decreases |p|
  {
    PartsAtomsEmpty(p);
    PartsAtomsEmpty(q);
    if p != [] && q != [] {
      SameLastPart(p, q);
      WellFormedPrefix(p);
      WellFormedPrefix(q);
      PartsDeterminedByAtoms(p[..|p| - 1], q[..|q| - 1]);
      SnocEqual(p, q);
    }
  }

  lemma SnocEqual(p: seq<CC.ChatMessagePart>, q: seq<CC.ChatMessagePart>)
    requires p != [] && q != []
    requires p[..|p| - 1] == q[..|q| - 1] && p[|p| - 1] == q[|q| - 1]
    ensures p == q
  {
    assert p == p[..|p| - 1] + [p[|p| - 1]];
    assert q == q[..|q| - 1] + [q[|q| - 1]];
  }

  /** A model without vision gets no image parts. */
  lemma {:induction false} NoPicturesWithoutVision(content: seq<MessageContent>)
    ensures forall a | a in ContentAtoms(content, false) :: a.Char?
  {
    if content != [] {
      NoPicturesWithoutVision(content[..|content| - 1]);
    }
  }

  /** Every Image part is shown as a picture. */
  lemma {:induction false} ImagePartsAreShown(parts: seq<CC.ChatMessagePart>, k: nat)
    requires k < |parts| && parts[k].Image?
    ensures Picture(parts[k].imageUrl.url) in PartsAtoms(parts)
  {
    var init, last := parts[..|parts| - 1], parts[|parts| - 1];
    assert parts == init + [last];
    PartsAtomsSnoc(init, last);
    if k < |parts| - 1 {
      ImagePartsAreShown(init, k);
    }
  }

  /** Every picture the parts show comes from an Image part with that URL. */
  lemma {:induction false} PicturesComeFromImageParts(parts: seq<CC.ChatMessagePart>, url: string)
    requires Picture(url) in PartsAtoms(parts)
    ensures exists k | 0 <= k < |parts| :: parts[k] == CC.ChatMessagePart.Image(CC.ImageUrl(url))
  {
    var init, last := parts[..|parts| - 1], parts[|parts| - 1];
    assert parts == init + [last];
    PartsAtomsSnoc(init, last);
    if Picture(url) in PartAtoms(last) {
      assert parts[|parts| - 1] == CC.ChatMessagePart.Image(CC.ImageUrl(url));
    } else {
      PicturesComeFromImageParts(init, url);
      var k :| 0 <= k < |init| && init[k] == CC.ChatMessagePart.Image(CC.ImageUrl(url));
      assert parts[k] == init[k];
    }
  }

  /** The second loop over a User message: its content parts. */
  method UserContentParts(content: seq<MessageContent>, supportsVision: bool) returns (parts: seq<CC.ChatMessagePart>)
    ensures WellFormedParts(parts)
    ensures PartsAtoms(parts) == ContentAtoms(content, supportsVision)
    ensures !supportsVision ==> forall k | 0 <= k < |parts| :: parts[k].Text?
    ensures parts == [] <==> ContentAtoms(content, supportsVision) == []
  {
    parts := [];
    for i := 0 to |content|
      invariant WellFormedParts(parts)
      invariant PartsAtoms(parts) == ContentAtoms(content[..i], supportsVision)
    {
      ghost var before := parts;
      var block := content[i];
      if (block.Text? || block.Thinking?) && block.text != "" {
        if |parts| > 0 && parts[|parts| - 1].Text? {
          parts := parts[..|parts| - 1] + [CC.ChatMessagePart.Text(parts[|parts| - 1].text + block.text)];
        } else {
          parts := parts + [CC.ChatMessagePart.Text(block.text)];
        }
        assert parts == AddText(before, block.text);
      } else if block.Image? && supportsVision {
        parts := parts + [CC.ChatMessagePart.Image(CC.ImageUrl(block.image.source))];
      }
      assert parts == AddUserBlock(before, content[i], supportsVision);
      UserPartsLoopStep(content, i, before, supportsVision);
    }
    assert content[..|content|] == content;
    PartsAtomsEmpty(parts);
    if !supportsVision {
      TextOnlyWithoutVision(content, parts);
    }
  }

  lemma UserPartsLoopStep(
    content: seq<MessageContent>, i: nat, before: seq<CC.ChatMessagePart>, supportsVision: bool)
    requires i < |content|
    requires WellFormedParts(before) && PartsAtoms(before) == ContentAtoms(content[..i], supportsVision)
    ensures WellFormedParts(AddUserBlock(before, content[i], supportsVision))
    ensures PartsAtoms(AddUserBlock(before, content[i], supportsVision)) == ContentAtoms(content[..i + 1], supportsVision)
  {
    AddUserBlockSpec(before, content[i], supportsVision);
    ContentAtomsStep(content, i, supportsVision);
  }

  lemma ContentAtomsStep(content: seq<MessageContent>, i: nat, supportsVision: bool)
    requires i < |content|
    ensures ContentAtoms(content[..i + 1], supportsVision) == ContentAtoms(content[..i], supportsVision) + BlockAtoms(content[i], supportsVision)
  {
    assert content[..i + 1][..i] == content[..i];
  }

  /** Parts that show a message's content to a model without vision are all text. */
  lemma TextOnlyWithoutVision(content: seq<MessageContent>, parts: seq<CC.ChatMessagePart>)
    requires PartsAtoms(parts) == ContentAtoms(content, false)
    ensures forall k | 0 <= k < |parts| :: parts[k].Text?
  {
    NoPicturesWithoutVision(content);
    forall k | 0 <= k < |parts| ensures parts[k].Text? {
      if parts[k].Image? {
        ImagePartsAreShown(parts, k);
      }
    }
  }

  /**
   * The messages a User message becomes: one Tool message per tool result,
   * in order, then one User message if any part remains.
   */
  function UserMessages(content: seq<MessageContent>, supportsVision: bool): seq<CC.ChatMessage>
  {
    var tools := seq(|ToolResultsOf(content)|, k requires 0 <= k < |ToolResultsOf(content)| =>
                       ToolResultMessage(ToolResultsOf(content)[k], supportsVision));
    var parts := UserParts(content, supportsVision);
    tools + (if parts == [] then [] else [CC.User(CC.Multipart(parts))])
  }

  /**
   * A User message becomes its Tool messages, one per tool result and in
   * order, followed by exactly one User message when some text or permitted
   * image remains, and by none otherwise; that User message's parts are well
   * formed and show exactly the message's text and permitted images.
   */
  lemma UserMessagesSpec(content: seq<MessageContent>, supportsVision: bool)
    ensures var r := UserMessages(content, supportsVision);
      && |r| == |ToolResultsOf(content)| + (if ContentAtoms(content, supportsVision) == [] then 0 else 1)
      && (forall k | 0 <= k < |ToolResultsOf(content)| :: r[k] == ToolResultMessage(ToolResultsOf(content)[k], supportsVision))
      && (forall k | 0 <= k < |r| :: r[k].User? <==> k == |ToolResultsOf(content)|)
      && (ContentAtoms(content, supportsVision) != [] ==>
            var user := r[|r| - 1];
            && user.content.Multipart?
            && WellFormedParts(user.content.parts)
            && PartsAtoms(user.content.parts) == ContentAtoms(content, supportsVision))
  {
    UserPartsSpec(content, supportsVision);
    PartsAtomsEmpty(UserParts(content, supportsVision));
  }

  /**
   * A worked example: two consecutive User messages "a" and "b" are merged
   * into one, and their adjacent texts into the single part "ab".
   */
  lemma CoalescingExample(supportsVision: bool)
    ensures var merged := Coalesced([LanguageModelRequestMessage(User, [MessageContent.Text("a")]),
                                     LanguageModelRequestMessage(User, [MessageContent.Text("b")])]);
      && merged == [LanguageModelRequestMessage(User, [MessageContent.Text("a"), MessageContent.Text("b")])]
      && UserMessages(merged[0].content, supportsVision)
         == [CC.ChatMessage.User(CC.Multipart([CC.ChatMessagePart.Text("ab")]))]
  {
    var a := LanguageModelRequestMessage(User, [MessageContent.Text("a")]);
    var b := LanguageModelRequestMessage(User, [MessageContent.Text("b")]);
    assert [a, b][..1] == [a] && [a][..0] == [];
    assert Coalesced([a]) == [a];
    var ab := a.(content := a.content + b.content);
    assert Coalesced([a, b]) == MergeInto([a], b);
    assert MergeInto([a], b) == [ab];
    var content := [MessageContent.Text("a"), MessageContent.Text("b")];
    assert ab.content == content;
    assert content[..1] == [MessageContent.Text("a")];
    assert ToolResultsOf(content) == [];
    assert UserParts(content[..1], supportsVision) == [CC.ChatMessagePart.Text("a")];
    assert "a" + "b" == "ab";
    assert UserParts(content, supportsVision) == [CC.ChatMessagePart.Text("ab")];
  }

  // ------------------------------------------------------------------
  // Assistant messages
  // ------------------------------------------------------------------

  /** The tool uses of a message, in order. */
  function ToolUsesOf(content: seq<MessageContent>): seq<LanguageModelToolUse>
  {
    if content == [] then []
    else
      ToolUsesOf(content[..|content| - 1])
      + (match content[|content| - 1]
         case ToolUse(use) => [use]
         case _ => [])
  }

  /** Every tool use block of a message occurs in `ToolUsesOf` exactly as often as in the message. */
  lemma {:induction false} ToolUsesOfCount(content: seq<MessageContent>, use: LanguageModelToolUse)
    ensures multiset(ToolUsesOf(content))[use] == multiset(content)[MessageContent.ToolUse(use)]
  {
    if content != [] {
      var prefix, last := content[..|content| - 1], content[|content| - 1];
      assert content == prefix + [last];
      assert multiset(content) == multiset(prefix) + multiset{last};
      ToolUsesOfCount(prefix, use);
      if last.ToolUse? {
        assert ToolUsesOf(content) == ToolUsesOf(prefix) + [last.toolUse];
      } else {
        assert ToolUsesOf(content) == ToolUsesOf(prefix);
      }
    }
  }

  /** The text of an Assistant message: its Text and Thinking texts, concatenated in order. */
  function AssistantText(content: seq<MessageContent>): string
  {
    if content == [] then ""
    else
      AssistantText(content[..|content| - 1])
      + (match content[|content| - 1]
         case Text(text) => text
         case Thinking(text, _) => text
         case _ => "")
  }

  /** The content field of an Assistant message: explicit empty content exactly when there is no text. */
  function AssistantContent(text: string): (c: CC.ChatMessageContent)
    ensures c == CC.EmptyContent <==> text == ""
    ensures text != "" ==> c == CC.Plain(text)
  {
    if text == "" then CC.EmptyContent else CC.Plain(text)
  }

  /** The wire tool call for a tool use whose input serialised to `arguments`. */
  function WireToolCall(use: LanguageModelToolUse, arguments: string): CC.ToolCall
  {
    CC.ToolCall(use.id, CC.FunctionContent(use.name, arguments))
  }

  /**
   * The tool calls of an Assistant message, or the error of the first tool
   * input that does not serialise.
   */
  function SerializeToolCalls(uses: seq<LanguageModelToolUse>, toJson: Json.Value -> Result<string, string>): Result<seq<CC.ToolCall>, string>
  {
    if uses == [] then Ok([])
    else
      match SerializeToolCalls(uses[..|uses| - 1], toJson)
      case Err(e) => Err(e)
      case Ok(calls) =>
        match toJson(uses[|uses| - 1].input)
        case Err(e) => Err(e)
        case Ok(arguments) => Ok(calls + [WireToolCall(uses[|uses| - 1], arguments)])
  }

  /**
   * Serialisation succeeds exactly when every tool input serialises, and then
   * gives one wire call per tool use, in order, with its id, name and
   * serialised input; otherwise it fails with the error of the first input
   * that does not serialise.
   */
  lemma {:induction false} SerializeToolCallsSpec(uses: seq<LanguageModelToolUse>, toJson: Json.Value -> Result<string, string>)
    ensures var r := SerializeToolCalls(uses, toJson);
      && (r.Ok? <==> forall k | 0 <= k < |uses| :: toJson(uses[k].input).Ok?)
      && (r.Ok? ==> |r.value| == |uses|)
      && (r.Ok? ==> forall k | 0 <= k < |uses| :: r.value[k] == WireToolCall(uses[k], toJson(uses[k].input).value))
      && (r.Err? ==> exists k | 0 <= k < |uses| :: toJson(uses[k].input) == Err(r.error)
                                                && forall j | 0 <= j < k :: toJson(uses[j].input).Ok?)
  {
    if uses != [] {
      var init, last := uses[..|uses| - 1], uses[|uses| - 1];
      SerializeToolCallsSpec(init, toJson);
      var r := SerializeToolCalls(uses, toJson);
      var p := SerializeToolCalls(init, toJson);
      if p.Err? {
        var k :| 0 <= k < |init| && toJson(init[k].input) == Err(p.error) && forall j | 0 <= j < k :: toJson(init[j].input).Ok?;
        assert uses[k] == init[k];
      } else if toJson(last.input).Err? {
        assert toJson(uses[|uses| - 1].input) == Err(r.error);
      } else {
        assert forall k | 0 <= k < |init| :: uses[k] == init[k];
      }
    }
  }

  /**
   * The tool-call loop over an Assistant message. It sets the sticky
   * tool-called flag on every tool use it meets and stops at the first
   * input that does not serialise.
   */
  method AssistantToolCalls(content: seq<MessageContent>, toJson: Json.Value -> Result<string, string>, toolCalled: bool)
    returns (r: Result<seq<CC.ToolCall>, string>, toolCalledAfter: bool)
    ensures r == SerializeToolCalls(ToolUsesOf(content), toJson)
    ensures r.Ok? ==> toolCalledAfter == (toolCalled || ToolUsesOf(content) != [])
  {
    var calls: seq<CC.ToolCall> := [];
    toolCalledAfter := toolCalled;
    for i := 0 to |content|
      invariant SerializeToolCalls(ToolUsesOf(content[..i]), toJson) == Ok(calls)
      invariant toolCalledAfter == (toolCalled || ToolUsesOf(content[..i]) != [])
    {
      assert content[..i + 1][..i] == content[..i];
      if content[i].ToolUse? {
        var use := content[i].toolUse;
        toolCalledAfter := true;
        var arguments := toJson(use.input);
        if arguments.Err? {
          assert ToolUsesOf(content[..i + 1]) == ToolUsesOf(content[..i]) + [use];
          assert (ToolUsesOf(content[..i]) + [use])[..|ToolUsesOf(content[..i])|] == ToolUsesOf(content[..i]);
          SerializeErrSticky(content[..i + 1], content, toJson);
          return Err(arguments.error), toolCalledAfter;
        }
        calls := calls + [WireToolCall(use, arguments.value)];
        assert ToolUsesOf(content[..i + 1]) == ToolUsesOf(content[..i]) + [use];
        assert (ToolUsesOf(content[..i]) + [use])[..|ToolUsesOf(content[..i])|] == ToolUsesOf(content[..i]);
      } else {
        assert ToolUsesOf(content[..i + 1]) == ToolUsesOf(content[..i]);
      }
    }
    assert content[..|content|] == content;
    r := Ok(calls);
  }

  lemma ToolUsesOfPrefix(prefix: seq<MessageContent>, content: seq<MessageContent>)
    requires prefix <= content
    ensures ToolUsesOf(prefix) <= ToolUsesOf(content)
    decreases |content|
  {
    if |prefix| < |content| {
      var init := content[..|content| - 1];
      assert prefix <= init;
      ToolUsesOfPrefix(prefix, init);
    } else {
      assert prefix == content;
    }
  }

  /** Once a tool input fails to serialise, the message's serialisation fails with that error. */
  lemma SerializeErrSticky(prefix: seq<MessageContent>, content: seq<MessageContent>, toJson: Json.Value -> Result<string, string>)
    requires prefix <= content
    requires SerializeToolCalls(ToolUsesOf(prefix), toJson).Err?
    ensures SerializeToolCalls(ToolUsesOf(content), toJson) == SerializeToolCalls(ToolUsesOf(prefix), toJson)
  {
    ToolUsesOfPrefix(prefix, content);
    SerializeFirstError(ToolUsesOf(prefix), ToolUsesOf(content), toJson);
  }

  lemma {:induction false} SerializeFirstError(a: seq<LanguageModelToolUse>, b: seq<LanguageModelToolUse>, toJson: Json.Value -> Result<string, string>)
    requires a <= b
    requires SerializeToolCalls(a, toJson).Err?
    ensures SerializeToolCalls(b, toJson) == SerializeToolCalls(a, toJson)
    decreases |b|
  {
    if |a| < |b| {
      assert a <= b[..|b| - 1];
      SerializeFirstError(a, b[..|b| - 1], toJson);
    } else {
      assert a == b;
    }
  }

  /** The text loop over an Assistant message. */
  method AssistantTextContent(content: seq<MessageContent>) returns (buffer: string)
    ensures buffer == AssistantText(content)
  {
    buffer := "";
    for i := 0 to |content|
      invariant buffer == AssistantText(content[..i])
    {
      assert content[..i + 1][..i] == content[..i];
      match content[i] {
        case Text(text) => buffer := buffer + text;
        case Thinking(text, _) => buffer := buffer + text;
        case _ =>
      }
    }
    assert content[..|content|] == content;
  }

  // ------------------------------------------------------------------
  // The message list
  // ------------------------------------------------------------------

  /** The wire messages for one coalesced host message, or a serialisation error. */
  function TranslateMessage(
    message: Message,
    supportsVision: bool,
    toJson: Json.Value -> Result<string, string>,
    stringContents: seq<MessageContent> -> string): Result<seq<CC.ChatMessage>, string>
  {
    match message.role
    case User => Ok(UserMessages(message.content, supportsVision))
    case Assistant =>
      (match SerializeToolCalls(ToolUsesOf(message.content), toJson)
       case Err(e) => Err(e)
       case Ok(calls) => Ok([CC.Assistant(AssistantContent(AssistantText(message.content)), calls)]))
    case System => Ok([CC.System(stringContents(message.content))])
  }

  /** The wire messages for coalesced host messages, in order; the first failing message decides the error. */
  function TranslateMessages(
    messages: seq<Message>,
    supportsVision: bool,
    toJson: Json.Value -> Result<string, string>,
    stringContents: seq<MessageContent> -> string): Result<seq<CC.ChatMessage>, string>
  {
    if messages == [] then Ok([])
    else
      match TranslateMessages(messages[..|messages| - 1], supportsVision, toJson, stringContents)
      case Err(e) => Err(e)
      case Ok(prefix) =>
        match TranslateMessage(messages[|messages| - 1], supportsVision, toJson, stringContents)
        case Err(e) => Err(e)
        case Ok(last) => Ok(prefix + last)
  }

  lemma {:induction false} TranslateErrSticky(
    prefix: seq<Message>, messages: seq<Message>, supportsVision: bool,
    toJson: Json.Value -> Result<string, string>, stringContents: seq<MessageContent> -> string)
    requires prefix <= messages
    requires TranslateMessages(prefix, supportsVision, toJson, stringContents).Err?
    ensures TranslateMessages(messages, supportsVision, toJson, stringContents)
         == TranslateMessages(prefix, supportsVision, toJson, stringContents)
    decreases |messages|
  {
    if |prefix| < |messages| {
      assert prefix <= messages[..|messages| - 1];
      TranslateErrSticky(prefix, messages[..|messages| - 1], supportsVision, toJson, stringContents);
    } else {
      assert prefix == messages;
    }
  }

  /** Some tool use sits in an Assistant message. */
  predicate CallsTool(tagged: seq<(Role, MessageContent)>)
  {
    exists k | 0 <= k < |tagged| :: tagged[k].0 == Assistant && tagged[k].1.ToolUse?
  }

  /** Some tool use in an Assistant message has an input that does not serialise. */
  predicate FailsToSerialize(tagged: seq<(Role, MessageContent)>, toJson: Json.Value -> Result<string, string>)
  {
    exists k | 0 <= k < |tagged| :: tagged[k].0 == Assistant && tagged[k].1.ToolUse? && toJson(tagged[k].1.toolUse.input).Err?
  }

  lemma ToolUsesOfMembers(content: seq<MessageContent>)
    ensures forall u :: u in ToolUsesOf(content) <==> MessageContent.ToolUse(u) in content
  {
    forall u ensures u in ToolUsesOf(content) <==> MessageContent.ToolUse(u) in content {
      ToolUsesOfCount(content, u);
    }
  }

  lemma TaggedCallsTool(message: Message)
    ensures CallsTool(Tagged(message)) <==> message.role == Assistant && ToolUsesOf(message.content) != []
  {
    ToolUsesOfMembers(message.content);
    var tagged := Tagged(message);
    var uses := ToolUsesOf(message.content);
    if CallsTool(tagged) {
      var k :| 0 <= k < |tagged| && tagged[k].0 == Assistant && tagged[k].1.ToolUse?;
      assert message.content[k] == tagged[k].1;
      assert tagged[k].1.toolUse in uses;
    }
    if message.role == Assistant && uses != [] {
      assert uses[0] in uses;
      var k :| 0 <= k < |message.content| && message.content[k] == MessageContent.ToolUse(uses[0]);
      assert tagged[k] == (Assistant, MessageContent.ToolUse(uses[0]));
    }
  }

  lemma TaggedFailsToSerialize(message: Message, toJson: Json.Value -> Result<string, string>)
    ensures FailsToSerialize(Tagged(message), toJson)
        <==> message.role == Assistant && exists k | 0 <= k < |ToolUsesOf(message.content)| :: toJson(ToolUsesOf(message.content)[k].input).Err?
  {
    ToolUsesOfMembers(message.content);
    var tagged := Tagged(message);
    var uses := ToolUsesOf(message.content);
    if FailsToSerialize(tagged, toJson) {
      var k :| 0 <= k < |tagged| && tagged[k].0 == Assistant && tagged[k].1.ToolUse? && toJson(tagged[k].1.toolUse.input).Err?;
      assert message.content[k] == tagged[k].1 && tagged[k].0 == message.role;
      var u := tagged[k].1.toolUse;
      assert u in uses;
      var j :| 0 <= j < |uses| && uses[j] == u;
      assert toJson(uses[j].input).Err?;
      assert message.role == Assistant;
      assert exists i | 0 <= i < |uses| :: toJson(uses[i].input).Err?;
    }
    if message.role == Assistant && exists k | 0 <= k < |uses| :: toJson(uses[k].input).Err? {
      var j :| 0 <= j < |uses| && toJson(uses[j].input).Err?;
      assert uses[j] in uses;
      var k :| 0 <= k < |message.content| && message.content[k] == MessageContent.ToolUse(uses[j]);
      assert tagged[k] == (Assistant, MessageContent.ToolUse(uses[j]));
      assert tagged[k].0 == Assistant && tagged[k].1.ToolUse? && toJson(tagged[k].1.toolUse.input).Err?;
      assert FailsToSerialize(tagged, toJson);
      assert exists i | 0 <= i < |ToolUsesOf(message.content)| :: toJson(ToolUsesOf(message.content)[i].input).Err?;
    }
  }

  lemma ConcatExists(a: seq<(Role, MessageContent)>, b: seq<(Role, MessageContent)>, toJson: Json.Value -> Result<string, string>)
    ensures CallsTool(a + b) <==> CallsTool(a) || CallsTool(b)
    ensures FailsToSerialize(a + b, toJson) <==> FailsToSerialize(a, toJson) || FailsToSerialize(b, toJson)
  {
    var c := a + b;
    if CallsTool(a) {
      var k :| 0 <= k < |a| && a[k].0 == Assistant && a[k].1.ToolUse?;
      assert c[k] == a[k];
    }
    if FailsToSerialize(a, toJson) {
      var k :| 0 <= k < |a| && a[k].0 == Assistant && a[k].1.ToolUse? && toJson(a[k].1.toolUse.input).Err?;
      assert c[k] == a[k];
    }
    if CallsTool(c) {
      var k :| 0 <= k < |c| && c[k].0 == Assistant && c[k].1.ToolUse?;
      if k >= |a| { assert b[k - |a|] == c[k]; }
    }
    if CallsTool(b) {
      var k :| 0 <= k < |b| && b[k].0 == Assistant && b[k].1.ToolUse?;
      assert c[k + |a|] == b[k];
    }
    if FailsToSerialize(c, toJson) {
      var k :| 0 <= k < |c| && c[k].0 == Assistant && c[k].1.ToolUse? && toJson(c[k].1.toolUse.input).Err?;
      if k >= |a| { assert b[k - |a|] == c[k]; }
    }
    if FailsToSerialize(b, toJson) {
      var k :| 0 <= k < |b| && b[k].0 == Assistant && b[k].1.ToolUse? && toJson(b[k].1.toolUse.input).Err?;
      assert c[k + |a|] == b[k];
    }
  }

  /**
   * Translating the messages fails exactly when some tool use of an
   * Assistant message has an input that does not serialise, and then with
   * the error of such an input.
   */
  lemma {:induction false} TranslateMessagesFailure(
    messages: seq<Message>, supportsVision: bool,
    toJson: Json.Value -> Result<string, string>, stringContents: seq<MessageContent> -> string)
    ensures TranslateMessages(messages, supportsVision, toJson, stringContents).Err?
        <==> FailsToSerialize(TaggedBlocks(messages), toJson)
    ensures TranslateMessages(messages, supportsVision, toJson, stringContents).Err? ==>
              exists u :: u in ToolUsesOfAssistants(messages)
                       && toJson(u.input) == Err(TranslateMessages(messages, supportsVision, toJson, stringContents).error)
  {
    if messages != [] {
      var prefix, last := messages[..|messages| - 1], messages[|messages| - 1];
      assert messages == prefix + [last];
      TranslateMessagesFailure(prefix, supportsVision, toJson, stringContents);
      TaggedBlocksSnoc(prefix, last);
      ConcatExists(TaggedBlocks(prefix), Tagged(last), toJson);
      TaggedCallsTool(last);
      TaggedFailsToSerialize(last, toJson);
      var r := TranslateMessages(messages, supportsVision, toJson, stringContents);
      SerializeToolCallsSpec(ToolUsesOf(last.content), toJson);
      if TranslateMessages(prefix, supportsVision, toJson, stringContents).Ok? && r.Err? {
        var uses := ToolUsesOf(last.content);
        var k :| 0 <= k < |uses| && toJson(uses[k].input) == Err(r.error);
        assert uses[k] in ToolUsesOfAssistants(messages);
      }
    }
  }

  /** The tool uses of all Assistant messages, in order. */
  function ToolUsesOfAssistants(messages: seq<Message>): seq<LanguageModelToolUse>
  {
    if messages == [] then []
    else
      ToolUsesOfAssistants(messages[..|messages| - 1])
      + (if messages[|messages| - 1].role == Assistant then ToolUsesOf(messages[|messages| - 1].content) else [])
  }

  // ------------------------------------------------------------------
  // Tools, tool choice and the request
  // ------------------------------------------------------------------

  function TranslateTool(tool: LanguageModelRequestTool): CC.Tool
  {
    CC.Tool.Tool(CC.Function(tool.name, tool.description, tool.inputSchema))
  }

  /** The request's tool definitions on the wire, one for one and in order. */
  function TranslateTools(tools: seq<LanguageModelRequestTool>): (r: seq<CC.Tool>)
    ensures |r| == |tools|
    ensures forall k | 0 <= k < |tools| ::
              && r[k].definition.name == tools[k].name
              && r[k].definition.description == tools[k].description
              && r[k].definition.parameters == tools[k].inputSchema
  {
    if tools == [] then [] else TranslateTools(tools[..|tools| - 1]) + [TranslateTool(tools[|tools| - 1])]
  }

  /** The placeholder tool sent when the history has tool calls but the request offers no tools. */
  const NoopTool: CC.Tool :=
    CC.Tool.Tool(CC.Function("noop", "No operation", Json.Object([("type", Json.Str("object"))])))

  function HostToolChoice(choice: CC.ToolChoice): LanguageModelToolChoice
  {
    match choice
    case Auto => LanguageModelToolChoice.Auto
    case Any => LanguageModelToolChoice.Any
    case None => LanguageModelToolChoice.None
  }

  /** The tool choice on the wire: absent when unset, and otherwise the same choice. */
  function MapToolChoice(choice: Option<LanguageModelToolChoice>): (r: Option<CC.ToolChoice>)
    ensures r.Some? <==> choice.Some?
    ensures r.Some? ==> HostToolChoice(r.value) == choice.value
  {
    match choice
    case None => Option.None
    case Some(c) =>
      Some(match c
           case Auto => CC.ToolChoice.Auto
           case Any => CC.ToolChoice.Any
           case None => CC.ToolChoice.None)
  }

  /** The fixed sampling temperature of every request (an `f32` constant in the source). */
  const Temperature: real := 0.1

  /**
   * The body of the message loop of `into_copilot_chat` for one coalesced
   * message, with the sticky tool-called flag.
   */
  method TranslateOneMessage(
    message: Message, supportsVision: bool,
    toJson: Json.Value -> Result<string, string>, stringContents: seq<MessageContent> -> string,
    toolCalled: bool)
    returns (r: Result<seq<CC.ChatMessage>, string>, toolCalledAfter: bool)
    ensures r == TranslateMessage(message, supportsVision, toJson, stringContents)
    ensures r.Ok? ==> toolCalledAfter == (toolCalled || (message.role == Assistant && ToolUsesOf(message.content) != []))
  {
    toolCalledAfter := toolCalled;
    match message.role {
      case User =>
        var toolMessages := ToolResultMessages(message.content, supportsVision);
        var parts := UserContentParts(message.content, supportsVision);
        UserPartsSpec(message.content, supportsVision);
        PartsDeterminedByAtoms(parts, UserParts(message.content, supportsVision));
        var messages := toolMessages;
        if parts != [] {
          messages := messages + [CC.User(CC.Multipart(parts))];
        }
        assert messages == UserMessages(message.content, supportsVision);
        r := Ok(messages);
      case Assistant =>
        var toolCalls;
        toolCalls, toolCalledAfter := AssistantToolCalls(message.content, toJson, toolCalled);
        if toolCalls.Err? {
          return Err(toolCalls.error), toolCalledAfter;
        }
        var text := AssistantTextContent(message.content);
        r := Ok([CC.Assistant(AssistantContent(text), toolCalls.value)]);
      case System =>
        r := Ok([CC.System(stringContents(message.content))]);
    }
  }

  /** How one more coalesced message extends the translation and the tool-called flag. */
  lemma MessageLoopStep(
    merged: seq<Message>, i: nat, supportsVision: bool,
    toJson: Json.Value -> Result<string, string>, stringContents: seq<MessageContent> -> string)
    requires i < |merged|
    ensures var before, one := TranslateMessages(merged[..i], supportsVision, toJson, stringContents),
                               TranslateMessage(merged[i], supportsVision, toJson, stringContents);
      && (before.Ok? && one.Ok? ==>
            TranslateMessages(merged[..i + 1], supportsVision, toJson, stringContents) == Ok(before.value + one.value))
      && (before.Ok? && one.Err? ==>
            TranslateMessages(merged[..i + 1], supportsVision, toJson, stringContents) == Err(one.error))
    ensures CallsTool(TaggedBlocks(merged[..i + 1]))
        <==> CallsTool(TaggedBlocks(merged[..i])) || (merged[i].role == Assistant && ToolUsesOf(merged[i].content) != [])
  {
    var message := merged[i];
    assert merged[..i + 1] == merged[..i] + [message];
    assert merged[..i + 1][..i] == merged[..i];
    TaggedBlocksSnoc(merged[..i], message);
    ConcatExists(TaggedBlocks(merged[..i]), Tagged(message), toJson);
    TaggedCallsTool(message);
    TaggedFailsToSerialize(message, toJson);
  }

  /**
   * What `into_copilot_chat` produces for `request`: it fails exactly when a
   * tool input of an Assistant message does not serialise; otherwise the
   * messages are the translation of the coalesced messages, the tools are
   * the request's tools plus the `noop` tool exactly when the history calls
   * a tool and the request offers none, and the fixed fields are set.
   */
  ghost predicate IsCopilotRequest(
    model: CC.Model, request: LanguageModelRequest,
    toJson: Json.Value -> Result<string, string>, stringContents: seq<MessageContent> -> string,
    r: Result<CC.Request, string>)
  {
    var translated := TranslateMessages(Coalesced(request.messages), model.supportsVision, toJson, stringContents);
    && (r.Err? <==> FailsToSerialize(TaggedBlocks(request.messages), toJson))
    && (r.Err? ==> translated.Err? && r.error == translated.error)
    && (r.Ok? ==>
          && translated.Ok?
          && r.value.messages == translated.value
          && r.value.tools == TranslateTools(request.tools)
                            + (if CallsTool(TaggedBlocks(request.messages)) && request.tools == [] then [NoopTool] else [])
          && r.value.toolChoice == MapToolChoice(request.toolChoice)
          && r.value.intent
          && r.value.n == 1
          && r.value.stream == model.usesStreaming
          && r.value.temperature == Temperature
          && r.value.model == model.id)
  }

  /** A failing translation of the coalesced messages is the adapter's failure. */
  lemma RequestFails(
    model: CC.Model, request: LanguageModelRequest,
    toJson: Json.Value -> Result<string, string>, stringContents: seq<MessageContent> -> string)
    requires TranslateMessages(Coalesced(request.messages), model.supportsVision, toJson, stringContents).Err?
    ensures IsCopilotRequest(model, request, toJson, stringContents,
                             Err(TranslateMessages(Coalesced(request.messages), model.supportsVision, toJson, stringContents).error))
  {
    TranslateMessagesFailure(Coalesced(request.messages), model.supportsVision, toJson, stringContents);
    CoalescedKeepsBlocks(request.messages);
  }

  /** A successful translation, with the flag the loop computed, gives the adapter's request. */
  lemma RequestSucceeds(
    model: CC.Model, request: LanguageModelRequest,
    toJson: Json.Value -> Result<string, string>, stringContents: seq<MessageContent> -> string,
    messages: seq<CC.ChatMessage>, toolCalled: bool)
    requires TranslateMessages(Coalesced(request.messages), model.supportsVision, toJson, stringContents) == Ok(messages)
    requires toolCalled == CallsTool(TaggedBlocks(Coalesced(request.messages)))
    ensures IsCopilotRequest(model, request, toJson, stringContents,
              Ok(CC.Request(true, 1, model.usesStreaming, Temperature, model.id, messages,
                            TranslateTools(request.tools) + (if toolCalled && request.tools == [] then [NoopTool] else []),
                            MapToolChoice(request.toolChoice))))
  {
    TranslateMessagesFailure(Coalesced(request.messages), model.supportsVision, toJson, stringContents);
    CoalescedKeepsBlocks(request.messages);
  }

  /** `into_copilot_chat`. */
  method IntoCopilotChat(
    model: CC.Model, request: LanguageModelRequest,
    toJson: Json.Value -> Result<string, string>, stringContents: seq<MessageContent> -> string)
    returns (r: Result<CC.Request, string>)
    ensures IsCopilotRequest(model, request, toJson, stringContents, r)
  {
    var merged := MergeConsecutiveRoles(request.messages);
    var toolCalled := false;
    var messages: seq<CC.ChatMessage> := [];
    for i := 0 to |merged|
      invariant TranslateMessages(merged[..i], model.supportsVision, toJson, stringContents) == Ok(messages)
      invariant toolCalled == CallsTool(TaggedBlocks(merged[..i]))
    {
      var message := merged[i];
      MessageLoopStep(merged, i, model.supportsVision, toJson, stringContents);
      var translated;
      translated, toolCalled := TranslateOneMessage(message, model.supportsVision, toJson, stringContents, toolCalled);
      if translated.Err? {
        TranslateErrSticky(merged[..i + 1], merged, model.supportsVision, toJson, stringContents);
        assert merged[..|merged|] == merged;
        RequestFails(model, request, toJson, stringContents);
        return Err(translated.error);
      }
      messages := messages + translated.value;
    }
    assert merged[..|merged|] == merged;

    var tools := TranslateTools(request.tools);
    if toolCalled && tools == [] {
      tools := tools + [NoopTool];
    }
    RequestSucceeds(model, request, toJson, stringContents, messages, toolCalled);

    r := Ok(CC.Request(
      intent := true,
      n := 1,
      stream := model.usesStreaming,
      temperature := Temperature,
      model := model.id,
      messages := messages,
      tools := tools,
      toolChoice := MapToolChoice(request.toolChoice)));
  }

  /** The adapter is a function of its inputs: two results for the same request are equal. */
  lemma AdapterDeterministic(
    model: CC.Model, request: LanguageModelRequest,
    toJson: Json.Value -> Result<string, string>, stringContents: seq<MessageContent> -> string,
    r1: Result<CC.Request, string>, r2: Result<CC.Request, string>)
    requires IsCopilotRequest(model, request, toJson, stringContents, r1)
    requires IsCopilotRequest(model, request, toJson, stringContents, r2)
    ensures r1 == r2
  {
  }

  // ------------------------------------------------------------------
  // The last-message guard of `stream_completion`
  // ------------------------------------------------------------------

  const EmptyPromptMessage: string := "Empty prompts aren't allowed. Please provide a non-empty prompt."

  const UserRoleMessage: string :=
    "The final message must be from the user. To provide a system prompt, you must provide the system prompt followed by a user prompt."

  /**
   * The check `stream_completion` makes before building a request: the last
   * message, if any, must have contents and be User-authored.
   */
  function CheckLastMessage(messages: seq<Message>, contentsEmpty: seq<MessageContent> -> bool): (r: Option<string>)
    ensures r.None? <==> messages == [] || (!contentsEmpty(messages[|messages| - 1].content) && messages[|messages| - 1].role == User)
    ensures messages != [] && contentsEmpty(messages[|messages| - 1].content) ==> r == Some(EmptyPromptMessage)
    ensures messages != [] && !contentsEmpty(messages[|messages| - 1].content) && messages[|messages| - 1].role != User ==>
              r == Some(UserRoleMessage)
  {
    if messages == [] then Option.None
    else if contentsEmpty(messages[|messages| - 1].content) then Some(EmptyPromptMessage)
    else if messages[|messages| - 1].role != User then Some(UserRoleMessage)
    else Option.None
  }

  /**
   * The synchronous part of `stream_completion`: the guard, then
   * `into_copilot_chat`. When the guard passes, the last coalesced message
   * is a User message.
   */
  method PrepareCompletion(
    model: CC.Model, request: LanguageModelRequest,
    toJson: Json.Value -> Result<string, string>,
    stringContents: seq<MessageContent> -> string,
    contentsEmpty: seq<MessageContent> -> bool)
    returns (r: Result<CC.Request, string>)
    ensures CheckLastMessage(request.messages, contentsEmpty).Some? ==>
              r == Err(CheckLastMessage(request.messages, contentsEmpty).value)
    ensures CheckLastMessage(request.messages, contentsEmpty).None? ==>
              IsCopilotRequest(model, request, toJson, stringContents, r)
    ensures CheckLastMessage(request.messages, contentsEmpty).None? && request.messages != [] ==>
              var merged := Coalesced(request.messages);
              merged != [] && merged[|merged| - 1].role == User
  {
    CoalescedShape(request.messages);
    var guard := CheckLastMessage(request.messages, contentsEmpty);
    if guard.Some? {
      return Err(guard.value);
    }
    r := IntoCopilotChat(model, request, toJson, stringContents);
  }

  // ------------------------------------------------------------------
  // Capability matches of `CopilotChatLanguageModel`
  // ------------------------------------------------------------------

  /** Every tool choice is supported exactly when the model supports tools. */
  function SupportsToolChoice(model: CC.Model, choice: LanguageModelToolChoice): (r: bool)
    ensures r <==> model.supportsTools
  {
    match choice
    case Auto => model.supportsTools
    case Any => model.supportsTools
    case None => model.supportsTools
  }

  /** Google models take the JSON-schema subset; OpenAI and Anthropic models take full JSON schema. */
  function ToolInputFormat(model: CC.Model): (r: LanguageModelToolSchemaFormat)
    ensures r == JsonSchemaSubset <==> model.vendor == CC.Google
  {
    match model.vendor
    case OpenAI => JsonSchema
    case Anthropic => JsonSchema
    case Google => JsonSchemaSubset
  }
}
