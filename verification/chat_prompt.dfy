/**
 * The chat-completion prompt renderer (chatai/prompt.py): a chat message,
 * with an optional quoted message and an optional inline image, becomes
 * either a plain string or a list of text and image blocks; `generate`
 * prefixes two system blocks and tags each message with its role.
 * The system prompt, which `Prompt.generate` reads from a file, is a parameter.
 */
module ChatPrompt {
  import opened Wrappers

  /** One chat turn; `reply` is the message it quotes, `imageB64` its image in base64. */
  datatype ChatMessage = ChatMessage(
    username: string,
    text: string,
    unixtime: int,
    imageB64: Option<string>,
    reply: Option<ChatMessage>)

  datatype ImageUrl = ImageUrl(url: string)

  datatype Block = TextBlock(text: string) | ImageBlock(imageUrl: ImageUrl)

  /** The two payload shapes the completion API accepts. */
  datatype Content = Plain(s: string) | Blocks(blocks: seq<Block>)

  datatype Role = System | User | Assistant

  datatype CompletionMessage = CompletionMessage(role: Role, content: Content)

  const DisplayNames: map<string, string> := map[
    "sanchar13" := "Александр Соболь",
    "yolo322" := "Андрей Гайбун",
    "ushanov_dmitriy" := "Дмитрий Ушанов",
    "vgrigorash" := "Виталий Григораш",
    "ZEMUSHKA" := "Андрей Зимовнов",
    "svyatslv" := "Святослав Юшин",
    "korolpiratov" := "Евгения Пономаренко",
    "bsharchilev" := "Борис Шарчилев",
    "boggeyman_ai_bot" := "Бугимен"
  ]

  /** The label used for an author missing from the table. */
  const Stranger := "Незнакомец"

  /** The bot's own username: its messages get the assistant role. */
  const BotUsername := "boggeyman_ai_bot"

  const ImageDataPrefix := "data:image/jpeg;base64,"

  const FocusPrompt := "Отвечай только на текст последнего сообщения. Иногда сообщение может начинаться с «(от: …)», тут будет написано имя того, кто тебе пишет, используй это, чтобы сделать ответ контекстным, но помимо этого не используй эту часть. Иногда сообщение может начинаться с «(ответ на: …)», в таких случаях сообщение - это ответ на другое сообщение, его текст приведен в этом блоке. Если нужно, используй его, чтобы сделать ответ контекстным. Но твоя основная задача - ответить на основной текст сообщения, для этого используй только текст после вступительных секций «от» и «ответ на». НИКОГДА и ни при каких условиях не добавляй в ответ цитируемые сообщения, «от» или «ответ на»."

  function DisplayName(username: string): string {
    if username in DisplayNames then DisplayNames[username] else Stranger
  }

  function SpeakerPrefix(name: string): string {
    "(от: " + name + ") "
  }

  function ReplyWrapper(quoted: string): string {
    "(ответ на: " + quoted + ")"
  }

  function ImageBlocks(images: seq<ImageUrl>): (r: seq<Block>)
    ensures |r| == |images|
    ensures forall i :: 0 <= i < |images| ==> r[i] == ImageBlock(images[i])
  {
    seq(|images|, i requires 0 <= i < |images| => ImageBlock(images[i]))
  }

  // ---------------------------------------------------------------------
  // What a message encodes to, described from the message itself.

  /** The last text block of a block list, if any. */
  function LastText(bs: seq<Block>): (r: Option<string>)
    ensures r.Some? ==> exists i :: (0 <= i < |bs| && bs[i] == TextBlock(r.value)
      && forall j :: i < j < |bs| ==> !bs[j].TextBlock?)
    ensures r.None? ==> forall j :: 0 <= j < |bs| ==> !bs[j].TextBlock?
  {
    if bs == [] then None
    else if bs[|bs| - 1].TextBlock? then Some(bs[|bs| - 1].text)
    else LastText(bs[..|bs| - 1])
  }

  /** The last image block's image of a block list, if any. */
  function LastImage(bs: seq<Block>): (r: Option<ImageUrl>)
    ensures r.Some? ==> exists i :: (0 <= i < |bs| && bs[i] == ImageBlock(r.value)
      && forall j :: i < j < |bs| ==> !bs[j].ImageBlock?)
    ensures r.None? ==> forall j :: 0 <= j < |bs| ==> !bs[j].ImageBlock?
  {
    if bs == [] then None
    else if bs[|bs| - 1].ImageBlock? then Some(bs[|bs| - 1].imageUrl)
    else LastImage(bs[..|bs| - 1])
  }

  /** The image a message's own `imageB64` contributes. */
  function OwnImages(m: ChatMessage): seq<ImageUrl> {
    if m.imageB64.Some? then [ImageUrl(ImageDataPrefix + m.imageB64.value)] else []
  }

  /**
   * The image a message hands on when it is quoted: its own image, or else
   * the one it carries from its own quote.
   */
  function CarriedImage(m: ChatMessage): Option<ImageUrl>
    decreases m
  {
    if m.imageB64.Some? then Some(ImageUrl(ImageDataPrefix + m.imageB64.value))
    else if m.reply.Some? then CarriedImage(m.reply.value)
    else None
  }

  /** The text payload: speaker, quoted payload (if any), then the message text. */
  function Payload(m: ChatMessage): string
    decreases m
  {
    SpeakerPrefix(DisplayName(m.username))
    + (if m.reply.Some? then ReplyWrapper(Payload(m.reply.value)) else "")
    + m.text
  }

  /** The images of a message: the quoted message's carried image first, then its own. */
  function Images(m: ChatMessage): seq<ImageUrl> {
    (if m.reply.Some? && CarriedImage(m.reply.value).Some? then [CarriedImage(m.reply.value).value] else [])
    + OwnImages(m)
  }

  /**
   * The encoding of a message: without images, its text payload as a plain
   * string; otherwise one text block holding that payload followed by one
   * image block per image.
   */
  function Expected(m: ChatMessage): Content {
    if Images(m) == [] then Plain(Payload(m))
    else Blocks([TextBlock(Payload(m))] + ImageBlocks(Images(m)))
  }

  /**
   * Quoting a message recovers its payload and the image it carries: from
   * a plain string directly, from a block list as its last text block and
   * its last image block.
   */
  lemma QuotedParts(q: ChatMessage)
    ensures Expected(q).Plain? ==> Expected(q).s == Payload(q) && CarriedImage(q).None?
    ensures Expected(q).Blocks? ==>
      && LastText(Expected(q).blocks) == Some(Payload(q))
      && LastImage(Expected(q).blocks) == CarriedImage(q)
  {
    match Expected(q)
    case Plain(s) =>
    case Blocks(bs) =>
      var imgs := Images(q);
      assert LastText(bs) == Some(Payload(q)) by {
        assert bs[0] == TextBlock(Payload(q));
        assert forall j :: 0 < j < |bs| ==> bs[j] == ImageBlock(imgs[j - 1]);
      }
      assert LastImage(bs) == Some(imgs[|imgs| - 1]);
      assert CarriedImage(q).Some? && imgs[|imgs| - 1] == CarriedImage(q).value;
  }

  /**
   * The scan of a quoted encoding in `encode`: a plain string is the quoted
   * text; in a block list every text block overwrites the quoted text and
   * every image block the quoted image, so the last of each wins.
   */
  method ReadQuote(replyContent: Content) returns (replyPart: string, replyImage: Option<ImageUrl>)
    ensures replyContent.Plain? ==> replyPart == replyContent.s && replyImage.None?
    ensures replyContent.Blocks? ==>
      && replyPart == LastText(replyContent.blocks).GetOr("")
      && replyImage == LastImage(replyContent.blocks)
  {
    replyPart := "";
    replyImage := None;
    match replyContent {
      case Plain(s) =>
        replyPart := s;
      case Blocks(bs) =>
        for k := 0 to |bs|
          invariant replyPart == LastText(bs[..k]).GetOr("")
          invariant replyImage == LastImage(bs[..k])
        {
          assert bs[..k + 1][..k] == bs[..k];
          match bs[k] {
            case TextBlock(t) => replyPart := t;
            case ImageBlock(u) => replyImage := Some(u);
          }
        }
        assert bs[..|bs|] == bs;
    }
  }

  /**
   * `encode`. The quoted message is encoded first; its text is the string
   * itself or the last text block, its image the last image block. The
   * text is the speaker, the wrapped quote and the message text; the
   * images are the quoted one, then the message's own.
   */
  method Encode(m: ChatMessage) returns (c: Content)
    ensures c == Expected(m)
    decreases m
  {
    var userPart := SpeakerPrefix(DisplayName(m.username));
    var replyPart := "";
    var replyImage: Option<ImageUrl> := None;
    if m.reply.Some? {
      var replyContent := Encode(m.reply.value);
      QuotedParts(m.reply.value);
      replyPart, replyImage := ReadQuote(replyContent);
      assert replyPart == Payload(m.reply.value) && replyImage == CarriedImage(m.reply.value);
      replyPart := ReplyWrapper(replyPart);
    }
    var text := userPart + replyPart + m.text;
    var images: seq<ImageUrl> := [];
    if replyImage.Some? {
      images := images + [replyImage.value];
    }
    if m.imageB64.Some? {
      images := images + [ImageUrl(ImageDataPrefix + m.imageB64.value)];
    }
    assert text == Payload(m);
    assert images == Images(m);
    assert |text| > 0 by {
      assert |userPart| > 0;
    }
    c := Assemble(text, images);
  }

  /**
   * The last step of `encode`: without images the text itself; otherwise
   * a text block (when the text is not empty) followed by one image block
   * per image, in order.
   */
  method Assemble(text: string, images: seq<ImageUrl>) returns (c: Content)
    ensures images == [] ==> c == Plain(text)
    ensures images != [] ==> c == Blocks((if |text| > 0 then [TextBlock(text)] else []) + ImageBlocks(images))
  {
    if |images| > 0 {
      var blocks: seq<Block> := [];
      if |text| > 0 {
        blocks := blocks + [TextBlock(text)];
      }
      ghost var lead := blocks;
      for k := 0 to |images|
        invariant |blocks| == |lead| + k && blocks[..|lead|] == lead
        invariant forall i :: 0 <= i < k ==> blocks[|lead| + i] == ImageBlock(images[i])
      {
        blocks := blocks + [ImageBlock(images[k])];
      }
      assert blocks == lead + ImageBlocks(images);
      c := Blocks(blocks);
    } else {
      c := Plain(text);
    }
  }

  /** A message encodes to a plain string exactly when neither it nor what it quotes carries an image. */
  lemma PlainIffNoImage(m: ChatMessage)
    ensures Expected(m).Plain? <==>
      m.imageB64.None? && (m.reply.None? || CarriedImage(m.reply.value).None?)
    ensures Expected(m).Blocks? ==>
      |Expected(m).blocks| == 1 + |Images(m)| && 1 <= |Images(m)| <= 2
      && Expected(m).blocks[0] == TextBlock(Payload(m))
  {
  }

  /** The text of an encoding: the plain string, or the first block's text. */
  function TextOf(c: Content): string {
    match c
    case Plain(s) => s
    case Blocks(bs) => if bs != [] && bs[0].TextBlock? then bs[0].text else ""
  }

  /**
   * The text starts with "(от: name) ", where the name comes from the table
   * and falls back to "Незнакомец", continues with the quoted text wrapped in
   * "(ответ на: …)" when there is a quote, and ends with the message text.
   */
  lemma EncodedText(m: ChatMessage)
    ensures var t := TextOf(Expected(m));
      var name := if m.username in DisplayNames then DisplayNames[m.username] else "Незнакомец";
      && t == "(от: " + name + ") " + (if m.reply.Some? then "(ответ на: " + TextOf(Expected(m.reply.value)) + ")" else "") + m.text
  {
    if m.reply.Some? {
      assert TextOf(Expected(m.reply.value)) == Payload(m.reply.value);
    }
  }

  /**
   * The images come in a fixed order: the image carried from the quoted
   * message first, then the message's own image as a JPEG data URI.
   */
  lemma ImageOrder(m: ChatMessage, b64: string, quoted: ImageUrl)
    requires m.imageB64 == Some(b64)
    requires m.reply.Some? && CarriedImage(m.reply.value) == Some(quoted)
    ensures Expected(m) == Blocks([
      TextBlock(Payload(m)),
      ImageBlock(quoted),
      ImageBlock(ImageUrl("data:image/jpeg;base64," + b64))])
  {
    assert Images(m) == [quoted, ImageUrl(ImageDataPrefix + b64)];
  }

  /**
   * A worked example: a reply "ok" by "yolo322" to the image message "go?"
   * of "sanchar13" becomes one text block, the speaker, the wrapped quote
   * and the text with no separator between the last two, then the quoted
   * image.
   */
  lemma QuotedImageExample()
    ensures Expected(ChatMessage("yolo322", "ok", 2,  None,
                  Some(ChatMessage("sanchar13", "go?", 1, Some("aW1n"), None))))
      == Blocks([
           TextBlock("(от: Андрей Гайбун) " + ("(ответ на: " + ("(от: Александр Соболь) " + "go?") + ")") + "ok"),
           ImageBlock(ImageUrl("data:image/jpeg;base64," + "aW1n"))])
  {
    var q := ChatMessage("sanchar13", "go?", 1, Some("aW1n"), None);
    var m := ChatMessage("yolo322", "ok", 2,  None, Some(q));
    assert SpeakerPrefix(DisplayName("sanchar13")) == "(от: Александр Соболь) ";
    assert SpeakerPrefix(DisplayName("yolo322")) == "(от: Андрей Гайбун) ";
    assert Payload(q) == SpeakerPrefix(DisplayName("sanchar13")) + "go?";
    assert Payload(m) == SpeakerPrefix(DisplayName("yolo322")) + ReplyWrapper(Payload(q)) + "ok";
    assert Images(m) == [ImageUrl(ImageDataPrefix + "aW1n")];
    assert [TextBlock(Payload(m))] + ImageBlocks(Images(m)) == [TextBlock(Payload(m)), ImageBlock(ImageUrl(ImageDataPrefix + "aW1n"))];
  }

  function RoleOf(username: string): Role {
    if username == BotUsername then Assistant else User
  }

  /**
   * `generate`: the system prompt and the focus prompt as system blocks,
   * then one block per message in order, the bot's own messages as the
   * assistant and everybody else's as the user.
   */
  method Generate(systemPrompt: string, messages: seq<ChatMessage>) returns (result: seq<CompletionMessage>)
    ensures |result| == |messages| + 2
    ensures result[0] == CompletionMessage(System, Plain(systemPrompt))
    ensures result[1] == CompletionMessage(System, Plain(FocusPrompt))
    ensures forall i :: 0 <= i < |messages| ==>
      && result[i + 2].content == Expected(messages[i])
      && (result[i + 2].role == Assistant <==> messages[i].username == "boggeyman_ai_bot")
      && (result[i + 2].role == User <==> messages[i].username != "boggeyman_ai_bot")
  {
    result := [CompletionMessage(System, Plain(systemPrompt)), CompletionMessage(System, Plain(FocusPrompt))];
    for k := 0 to |messages|
      invariant |result| == k + 2
      invariant result[0] == CompletionMessage(System, Plain(systemPrompt))
      invariant result[1] == CompletionMessage(System, Plain(FocusPrompt))
      invariant forall i :: 0 <= i < k ==>
        result[i + 2] == CompletionMessage(RoleOf(messages[i].username), Expected(messages[i]))
    {
      var role := RoleOf(messages[k].username);
      var content := Encode(messages[k]);
      result := result + [CompletionMessage(role, content)];
    }
  }
}
