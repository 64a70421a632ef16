/** ExecuteAction: compiles an `Action` into at most one outgoing message.
    Unsupported streams are a quiet no-op; a failed bot initialisation is
    reported; the text is formatted by parse mode; an optional chat action
    is sent first; the content type picks a sender; the text path attaches
    the reply markup, saving callback records first; the send's reply
    becomes the result. */
module Actions {
  import opened Values
  import opened Keyboard
  import opened ActionTypes
  import opened Markups

  // ---------------------------------------------------------------------
  // Stream, parse mode and the outcome
  // ---------------------------------------------------------------------

  /** Only the direct Telegram stream (named, or left empty) is handled. */
  predicate StreamSupported(c: Content)
  {
    c.stream == "tg_direct" || c.stream == ""
  }

  /** `Spices["parse_mode"]` when it is a string, else no parse mode. */
  function ParseMode(spices: map<string, Value>): string
  {
    var pm := OptString(spices, "parse_mode");
    if pm.Some? then pm.value else ""
  }

  /** Text in MarkdownV2 mode goes through the formatter; any other text
      is sent as written. */
  function Formatted(text: string, parseMode: string, format: string -> string): string
  {
    if parseMode == "MarkdownV2" then format(text) else text
  }

  /** The formatter runs exactly when the parse mode is the string
      "MarkdownV2"; another string is passed on as the parse mode with the
      text unchanged; a missing or non-string value gives no parse mode. */
  lemma ParseModeHandling(spices: map<string, Value>, text: string, format: string -> string)
    ensures OptString(spices, "parse_mode") == Some("MarkdownV2") ==>
      ParseMode(spices) == "MarkdownV2" && Formatted(text, ParseMode(spices), format) == format(text)
    ensures OptString(spices, "parse_mode") != Some("MarkdownV2") ==>
      Formatted(text, ParseMode(spices), format) == text
    ensures OptString(spices, "parse_mode").Some? ==> ParseMode(spices) == spices["parse_mode"].s
    ensures OptString(spices, "parse_mode").None? ==> ParseMode(spices) == ""
  {
  }

  /** What a sender hands back to ExecuteAction, and the calls it made. */
  datatype Delivery = Delivery(reply: SendReply, calls: seq<Effect>)

  /** The reply of an empty message and no error, when nothing is sent. */
  const NothingSent := Delivery(SendReply(0, None), [])

  function SendOnce(env: Env, message: Outbound): Delivery
  {
    Delivery(env.send(message), [Sent(message)])
  }

  /** The markup step of `plan`, then the send unless the markup step
      failed, in which case its error is the reply. */
  function SendAfterMarkup(env: Env, plan: Plan, message: Outbound): Delivery
  {
    var saveErr := SaveError(plan, env.saver);
    if saveErr.Some? then Delivery(SendReply(0, saveErr), SaveCalls(plan, env.saver))
    else Delivery(env.send(message), SaveCalls(plan, env.saver) + [Sent(message)])
  }

  /** A send error fails the action; otherwise it succeeds with the id of
      the sent message. */
  function Outcome(reply: SendReply): ActionResult
  {
    if reply.err.Some? then ActionResult(false, 0, reply.err) else ActionResult(true, reply.messageId, None)
  }

  // ---------------------------------------------------------------------
  // The senders
  // ---------------------------------------------------------------------

  /** A sticker is sent by URL when it is longer than 100 bytes or starts
      with `h`, else as a file id. */
  function StickerFile(sticker: string): RequestFile
  {
    if |sticker| > 100 || (|sticker| > 0 && sticker[0] == 'h') then FileURL(sticker) else FileID(sticker)
  }

  /** The sticker keeps its text either way; it is a URL exactly under the
      rule above, so every `http` or `https` link is sent as a URL. */
  lemma StickerRule(sticker: string)
    ensures StickerFile(sticker) == FileURL(sticker) || StickerFile(sticker) == FileID(sticker)
    ensures StickerFile(sticker).FileURL? <==> |sticker| > 100 || (|sticker| > 0 && sticker[0] == 'h')
    ensures |sticker| >= 4 && sticker[..4] == "http" ==> StickerFile(sticker) == FileURL(sticker)
  {
  }

  /** The dice emoji is set only when there is an attachment with a
      non-empty `Dice`. */
  function DiceOutbound(chatId: int, attachment: Option<Attachment>): Outbound
  {
    DiceMessage(chatId, if attachment.Some? && attachment.value.dice != "" then Some(attachment.value.dice) else None)
  }

  /** Phone number and first name default to "" when missing or not
      strings; last name and vCard are set only when they are strings. */
  function ContactOutbound(chatId: int, contact: map<string, Value>): Outbound
  {
    ContactMessage(chatId, StringField(contact, "phone_number"), StringField(contact, "first_name"),
                   OptString(contact, "last_name"), OptString(contact, "vcard"))
  }

  /** The string elements of a list, in order; the others are dropped. */
  function StringElements(vs: seq<Value>): seq<string>
  {
    if vs == [] then []
    else StringElements(vs[..|vs| - 1]) + (if vs[|vs| - 1].Str? then [vs[|vs| - 1].s] else [])
  }

  /** The poll options loop of sendPollAction. */
  method PollOptions(opts: seq<Value>) returns (options: seq<string>)
    ensures options == StringElements(opts)
  {
    options := [];
    for i := 0 to |opts|
      invariant options == StringElements(opts[..i])
    {
      assert opts[..i + 1][..i] == opts[..i];
      if opts[i].Str? {
        options := options + [opts[i].s];
      }
    }
    assert opts[..|opts|] == opts;
  }

  /** Keeping the string elements distributes over concatenation, so the
      options keep their order. */
  lemma {:induction false} StringElementsAppend(a: seq<Value>, b: seq<Value>)
    ensures StringElements(a + b) == StringElements(a) + StringElements(b)
    decreases |b|
  {
    if b == [] {
      assert a + b == a;
    } else {
      var b' := b[..|b| - 1];
      assert (a + b)[..|a + b| - 1] == a + b';
      StringElementsAppend(a, b');
    }
  }

  /** A string is an option exactly when the list holds it as a string, and
      there are never more options than elements. */
  lemma {:induction false} StringElementsKeepStrings(vs: seq<Value>)
    ensures forall s :: s in StringElements(vs) <==> Str(s) in vs
    ensures |StringElements(vs)| <= |vs|
    decreases |vs|
  {
    if vs != [] {
      var init := vs[..|vs| - 1];
      StringElementsKeepStrings(init);
      assert vs == init + [vs[|vs| - 1]];
      forall s
        ensures s in StringElements(vs) <==> Str(s) in vs
      {
        assert Str(s) in vs <==> Str(s) in init || Str(s) == vs[|vs| - 1];
      }
    }
  }

  /** A list of strings gives all of them, in order. */
  lemma {:induction false} AllStringsKept(labels: seq<string>)
    ensures StringElements(seq(|labels|, i requires 0 <= i < |labels| => Str(labels[i]))) == labels
    decreases |labels|
  {
    if labels != [] {
      var init := labels[..|labels| - 1];
      var vs := seq(|labels|, i requires 0 <= i < |labels| => Str(labels[i]));
      assert vs[..|vs| - 1] == seq(|init|, i requires 0 <= i < |init| => Str(init[i]));
      AllStringsKept(init);
      assert labels == init + [labels[|labels| - 1]];
    }
  }

  /** The options of a poll: the string elements of `options` when it is a
      list, else none. */
  function PollOptionsOf(poll: map<string, Value>): seq<string>
  {
    if "options" in poll && poll["options"].List? then StringElements(poll["options"].items) else []
  }

  /** The explanation, when it is a string, is formatted like the text and
      carries the parse mode. */
  function PollOutbound(chatId: int, poll: map<string, Value>, parseMode: string, format: string -> string): Outbound
  {
    var explanation := OptString(poll, "explanation");
    PollMessage(chatId, StringField(poll, "question"), PollOptionsOf(poll),
                OptBool(poll, "is_anonymous"), OptString(poll, "type"), OptBool(poll, "allows_multiple_answers"),
                if explanation.Some? then Some(Explanation(Formatted(explanation.value, parseMode, format), parseMode)) else None)
  }

  /** Coordinates default to the bits of 0.0 when missing or not numbers. */
  function VenueOutbound(chatId: int, venue: map<string, Value>): Outbound
  {
    VenueMessage(chatId, StringField(venue, "title"), StringField(venue, "address"),
                 NumberField(venue, "latitude"), NumberField(venue, "longitude"),
                 OptString(venue, "foursquare_id"), OptString(venue, "foursquare_type"))
  }

  method SendStickerAction(action: Action, env: Env) returns (reply: SendReply, calls: seq<Effect>)
    requires action.content.attachment.Some?
    ensures Delivery(reply, calls)
         == SendOnce(env, StickerMessage(action.user.tgId, StickerFile(action.content.attachment.value.sticker)))
  {
    var file: RequestFile;
    var sticker := action.content.attachment.value.sticker;
    if |sticker| > 100 || (|sticker| > 0 && sticker[0] == 'h') {
      file := FileURL(sticker);
    } else {
      file := FileID(sticker);
    }
    var msg := StickerMessage(action.user.tgId, file);
    reply := env.send(msg);
    calls := [Sent(msg)];
  }

  method SendDiceAction(action: Action, env: Env) returns (reply: SendReply, calls: seq<Effect>)
    ensures Delivery(reply, calls) == SendOnce(env, DiceOutbound(action.user.tgId, action.content.attachment))
  {
    var msg := DiceMessage(action.user.tgId, None);
    if action.content.attachment.Some? && action.content.attachment.value.dice != "" {
      msg := msg.(emoji := Some(action.content.attachment.value.dice));
    }
    reply := env.send(msg);
    calls := [Sent(msg)];
  }

  method SendContactAction(action: Action, env: Env) returns (reply: SendReply, calls: seq<Effect>)
    requires action.content.attachment.Some?
    ensures var payload := action.content.attachment.value.contact;
      Delivery(reply, calls)
        == if payload.Object? then SendOnce(env, ContactOutbound(action.user.tgId, payload.fields)) else NothingSent
  {
    var payload := action.content.attachment.value.contact;
    if !payload.Object? {
      return SendReply(0, None), [];
    }
    var cont := payload.fields;
    var msg := ContactMessage(action.user.tgId, StringField(cont, "phone_number"), StringField(cont, "first_name"), None, None);
    var lastName := OptString(cont, "last_name");
    if lastName.Some? {
      msg := msg.(lastName := lastName);
    }
    var vcard := OptString(cont, "vcard");
    if vcard.Some? {
      msg := msg.(vcard := vcard);
    }
    reply := env.send(msg);
    calls := [Sent(msg)];
  }

  method SendPollAction(action: Action, parseMode: string, env: Env) returns (reply: SendReply, calls: seq<Effect>)
    requires action.content.attachment.Some?
    ensures var payload := action.content.attachment.value.poll;
      Delivery(reply, calls)
        == if payload.Object?
           then SendOnce(env, PollOutbound(action.user.tgId, payload.fields, parseMode, env.formatMarkdownV2))
           else NothingSent
  {
    var payload := action.content.attachment.value.poll;
    if !payload.Object? {
      return SendReply(0, None), [];
    }
    var poll := payload.fields;
    var question := StringField(poll, "question");
    var options: seq<string> := [];
    if "options" in poll && poll["options"].List? {
      options := PollOptions(poll["options"].items);
    }
    var msg := PollMessage(action.user.tgId, question, options, None, None, None, None);
    var isAnonymous := OptBool(poll, "is_anonymous");
    if isAnonymous.Some? {
      msg := msg.(isAnonymous := isAnonymous);
    }
    var pollType := OptString(poll, "type");
    if pollType.Some? {
      msg := msg.(pollType := pollType);
    }
    var allowsMultiple := OptBool(poll, "allows_multiple_answers");
    if allowsMultiple.Some? {
      msg := msg.(allowsMultipleAnswers := allowsMultiple);
    }
    var explanation := OptString(poll, "explanation");
    if explanation.Some? {
      var text := explanation.value;
      if parseMode == "MarkdownV2" {
        text := env.formatMarkdownV2(text);
      }
      msg := msg.(explanation := Some(Explanation(text, parseMode)));
    }
    reply := env.send(msg);
    calls := [Sent(msg)];
  }

  method SendGameAction(action: Action, env: Env) returns (reply: SendReply, calls: seq<Effect>)
    requires action.content.attachment.Some?
    ensures Delivery(reply, calls)
         == SendOnce(env, GameMessage(action.user.tgId, action.content.attachment.value.gameShortName))
  {
    var msg := GameMessage(action.user.tgId, action.content.attachment.value.gameShortName);
    reply := env.send(msg);
    calls := [Sent(msg)];
  }

  method SendVenueAction(action: Action, env: Env) returns (reply: SendReply, calls: seq<Effect>)
    requires action.content.attachment.Some?
    ensures var payload := action.content.attachment.value.venue;
      Delivery(reply, calls)
        == if payload.Object? then SendOnce(env, VenueOutbound(action.user.tgId, payload.fields)) else NothingSent
  {
    var payload := action.content.attachment.value.venue;
    if !payload.Object? {
      return SendReply(0, None), [];
    }
    var venue := payload.fields;
    var msg := VenueMessage(action.user.tgId, StringField(venue, "title"), StringField(venue, "address"),
                            NumberField(venue, "latitude"), NumberField(venue, "longitude"), None, None);
    var foursquareId := OptString(venue, "foursquare_id");
    if foursquareId.Some? {
      msg := msg.(foursquareId := foursquareId);
    }
    var foursquareType := OptString(venue, "foursquare_type");
    if foursquareType.Some? {
      msg := msg.(foursquareType := foursquareType);
    }
    reply := env.send(msg);
    calls := [Sent(msg)];
  }

  // ---------------------------------------------------------------------
  // The text path
  // ---------------------------------------------------------------------

  function MediaKindOf(t: string): Option<MediaKind>
  {
    if t == "photo" then Some(Photo)
    else if t == "document" then Some(Document)
    else if t == "video" then Some(Video)
    else if t == "audio" then Some(Audio)
    else if t == "voice" then Some(Voice)
    else None
  }

  /** sendMediaAction: photo, document, video, audio and voice carry the
      caption and parse mode; a video note has length 240 and no caption;
      any other type falls back to a text message with the caption as text. */
  function MediaOutbound(attachment: Attachment, chatId: int, caption: string, parseMode: string, markup: Markup): Outbound
  {
    var kind := MediaKindOf(attachment.attachmentType);
    if kind.Some? then MediaMessage(kind.value, chatId, FileURL(attachment.url), caption, parseMode, markup)
    else if attachment.attachmentType == "video_note" then VideoNoteMessage(chatId, 240, FileURL(attachment.url), markup)
    else TextMessage(chatId, caption, parseMode, markup)
  }

  /** sendTextBasedAction: an attachment with a URL makes a media message,
      anything else a text message. */
  function TextOutbound(c: Content, chatId: int, text: string, parseMode: string, markup: Markup): Outbound
  {
    if c.attachment.Some? && c.attachment.value.url != "" then MediaOutbound(c.attachment.value, chatId, text, parseMode, markup)
    else TextMessage(chatId, text, parseMode, markup)
  }

  /** Every message of the text path carries the markup and goes to the
      action's chat; all but a video note carry the text, as text or as
      caption, with the parse mode; a media file is always given by URL. */
  lemma TextPathMessages(c: Content, chatId: int, text: string, parseMode: string, markup: Markup)
    ensures var m := TextOutbound(c, chatId, text, parseMode, markup);
      && (m.TextMessage? || m.MediaMessage? || m.VideoNoteMessage?)
      && m.markup == markup && m.chatId == chatId
      && (m.TextMessage? ==> m.text == text && m.parseMode == parseMode)
      && (m.MediaMessage? ==> m.caption == text && m.parseMode == parseMode && m.file == FileURL(c.attachment.value.url))
      && (m.VideoNoteMessage? ==> m.length == 240 && m.file == FileURL(c.attachment.value.url))
      && (m.MediaMessage? || m.VideoNoteMessage? <==>
            c.attachment.Some? && c.attachment.value.url != ""
            && (MediaKindOf(c.attachment.value.attachmentType).Some? || c.attachment.value.attachmentType == "video_note"))
  {
  }

  method SendMediaAction(action: Action, env: Env, caption: string, parseMode: string) returns (reply: SendReply, calls: seq<Effect>)
    requires action.content.attachment.Some?
    requires LayoutWidthOk(action, env.mint, env.saver)
    ensures var plan := MarkupFor(action, env.mint);
      Delivery(reply, calls)
        == SendAfterMarkup(env, plan, MediaOutbound(action.content.attachment.value, action.user.tgId, caption, parseMode, plan.markup))
  {
    var chatId := action.user.tgId;
    var attachment := action.content.attachment.value;
    var markup, err, saves := ApplyReplyMarkup(action, env);
    if err.Some? {
      return SendReply(0, err), saves;
    }
    var msg: Outbound;
    var kind := MediaKindOf(attachment.attachmentType);
    if kind.Some? {
      msg := MediaMessage(kind.value, chatId, FileURL(attachment.url), caption, parseMode, markup);
    } else if attachment.attachmentType == "video_note" {
      msg := VideoNoteMessage(chatId, 240, FileURL(attachment.url), markup);
    } else {
      msg := TextMessage(chatId, caption, parseMode, markup);
    }
    reply := env.send(msg);
    calls := saves + [Sent(msg)];
  }

  method SendTextBasedAction(action: Action, env: Env, text: string, parseMode: string) returns (reply: SendReply, calls: seq<Effect>)
    requires LayoutWidthOk(action, env.mint, env.saver)
    ensures var plan := MarkupFor(action, env.mint);
      Delivery(reply, calls)
        == SendAfterMarkup(env, plan, TextOutbound(action.content, action.user.tgId, text, parseMode, plan.markup))
  {
    var chatId := action.user.tgId;
    if action.content.attachment.Some? && action.content.attachment.value.url != "" {
      reply, calls := SendMediaAction(action, env, text, parseMode);
      return;
    }
    var markup, err, saves := ApplyReplyMarkup(action, env);
    if err.Some? {
      return SendReply(0, err), saves;
    }
    var msg := TextMessage(chatId, text, parseMode, markup);
    reply := env.send(msg);
    calls := saves + [Sent(msg)];
  }

  // ---------------------------------------------------------------------
  // ExecuteAction
  // ---------------------------------------------------------------------

  /** The content types whose sender reads the attachment without checking
      it for nil. */
  predicate ReadsAttachment(t: string)
  {
    t == "sticker" || t == "contact" || t == "poll" || t == "game" || t == "venue"
  }

  /** The content types sent by the text path. */
  predicate TextPath(t: string)
  {
    !ReadsAttachment(t) && t != "dice"
  }

  /** What the source needs to run to completion once the action is
      accepted: an attachment where the sender dereferences it, and a
      positive column count where Buts are laid out, unless an inline
      keyboard's records fail to save before its layout. */
  predicate CanDispatch(action: Action, env: Env)
  {
    && (ReadsAttachment(action.content.contentType) ==> action.content.attachment.Some?)
    && LayoutWidthOk(action, env.mint, env.saver)
  }

  /** The switch on the content type. */
  function Dispatch(action: Action, env: Env): Delivery
    requires CanDispatch(action, env)
  {
    var c := action.content;
    var chatId := action.user.tgId;
    var parseMode := ParseMode(c.spices);
    var t := c.contentType;
    if t == "sticker" then SendOnce(env, StickerMessage(chatId, StickerFile(c.attachment.value.sticker)))
    else if t == "dice" then SendOnce(env, DiceOutbound(chatId, c.attachment))
    else if t == "contact" then
      if c.attachment.value.contact.Object? then SendOnce(env, ContactOutbound(chatId, c.attachment.value.contact.fields))
      else NothingSent
    else if t == "poll" then
      if c.attachment.value.poll.Object?
      then SendOnce(env, PollOutbound(chatId, c.attachment.value.poll.fields, parseMode, env.formatMarkdownV2))
      else NothingSent
    else if t == "game" then SendOnce(env, GameMessage(chatId, c.attachment.value.gameShortName))
    else if t == "venue" then
      if c.attachment.value.venue.Object? then SendOnce(env, VenueOutbound(chatId, c.attachment.value.venue.fields))
      else NothingSent
    else
      var plan := MarkupFor(action, env.mint);
      var text := Formatted(c.text, parseMode, env.formatMarkdownV2);
      SendAfterMarkup(env, plan, TextOutbound(c, chatId, text, parseMode, plan.markup))
  }

  /** The chat action sent before the message, when one is configured. */
  function ChatActionCalls(action: Action): seq<Effect>
  {
    if action.content.sendReaction.Some? then [ChatActionSent(action.user.tgId, action.content.sendReaction.value)] else []
  }

  /** ExecuteAction. An unsupported stream returns failure with no error
      and calls nothing; a failed initialisation returns its error; else
      the chat action, then the dispatched sender's calls, and the
      sender's reply as the result. */
  method ExecuteAction(action: Action, env: Env) returns (result: ActionResult, trace: seq<Effect>)
    requires StreamSupported(action.content) && env.initErr.None? ==> CanDispatch(action, env)
    ensures !StreamSupported(action.content) ==> result == ActionResult(false, 0, None) && trace == []
    ensures StreamSupported(action.content) && env.initErr.Some? ==>
      result == ActionResult(false, 0, env.initErr) && trace == []
    ensures StreamSupported(action.content) && env.initErr.None? ==>
      && result == Outcome(Dispatch(action, env).reply)
      && trace == ChatActionCalls(action) + Dispatch(action, env).calls
  {
    var c := action.content;
    if c.stream != "tg_direct" && c.stream != "" {
      return ActionResult(false, 0, None), [];
    }
    if env.initErr.Some? {
      return ActionResult(false, 0, env.initErr), [];
    }

    var text := c.text;
    var parseMode := "";
    var pm := OptString(c.spices, "parse_mode");
    if pm.Some? {
      parseMode := pm.value;
      if parseMode == "MarkdownV2" {
        text := env.formatMarkdownV2(text);
      }
    }

    trace := [];
    if c.sendReaction.Some? {
      trace := [ChatActionSent(action.user.tgId, c.sendReaction.value)];
    }

    var reply: SendReply;
    var calls: seq<Effect>;
    if c.contentType == "sticker" {
      reply, calls := SendStickerAction(action, env);
    } else if c.contentType == "dice" {
      reply, calls := SendDiceAction(action, env);
    } else if c.contentType == "contact" {
      reply, calls := SendContactAction(action, env);
    } else if c.contentType == "poll" {
      reply, calls := SendPollAction(action, parseMode, env);
    } else if c.contentType == "game" {
      reply, calls := SendGameAction(action, env);
    } else if c.contentType == "venue" {
      reply, calls := SendVenueAction(action, env);
    } else {
      reply, calls := SendTextBasedAction(action, env, text, parseMode);
    }
    trace := trace + calls;

    if reply.err.Some? {
      return ActionResult(false, 0, reply.err), trace;
    }
    return ActionResult(true, reply.messageId, None), trace;
  }

  // ---------------------------------------------------------------------
  // Laws of the dispatch
  // ---------------------------------------------------------------------

  /** The message kind each content type sends. */
  predicate SendsKindFor(t: string, m: Outbound)
  {
    if t == "sticker" then m.StickerMessage?
    else if t == "dice" then m.DiceMessage?
    else if t == "contact" then m.ContactMessage?
    else if t == "poll" then m.PollMessage?
    else if t == "game" then m.GameMessage?
    else if t == "venue" then m.VenueMessage?
    else m.TextMessage? || m.MediaMessage? || m.VideoNoteMessage?
  }

  /** At most a batch save and then one send: a save comes first, a send
      comes last, and the result is the reply of that send. The message goes
      to chat `chatId` and is of the kind content type `t` names. */
  predicate SaveThenSend(d: Delivery, env: Env, chatId: int, t: string)
  {
    && |d.calls| <= 2
    && (forall i :: 0 <= i < |d.calls| ==> !d.calls[i].ChatActionSent?)
    && (forall i :: 0 <= i < |d.calls| && d.calls[i].BatchSaved? ==> i == 0 && env.saver.Some?)
    && (forall i :: 0 <= i < |d.calls| && d.calls[i].Sent? ==>
          && i == |d.calls| - 1
          && d.reply == env.send(d.calls[i].message)
          && d.calls[i].message.chatId == chatId
          && SendsKindFor(t, d.calls[i].message))
  }

  lemma SendOnceShape(env: Env, message: Outbound, t: string)
    requires SendsKindFor(t, message)
    ensures SaveThenSend(SendOnce(env, message), env, message.chatId, t)
  {
  }

  lemma SendAfterMarkupShape(env: Env, plan: Plan, message: Outbound, t: string)
    requires SendsKindFor(t, message)
    ensures SaveThenSend(SendAfterMarkup(env, plan, message), env, message.chatId, t)
  {
    var d := SendAfterMarkup(env, plan, message);
    if SaveError(plan, env.saver).None? {
      assert d.calls == SaveCalls(plan, env.saver) + [Sent(message)];
    }
  }

  /** Every dispatched sender saves at most one batch and then sends at
      most one message, to the action's chat and of the kind its content
      type names, and reports the reply of that send. */
  lemma DispatchShape(action: Action, env: Env)
    requires CanDispatch(action, env)
    ensures var d := Dispatch(action, env);
      && |d.calls| <= 2
      && (forall i :: 0 <= i < |d.calls| ==> !d.calls[i].ChatActionSent?)
      && (forall i :: 0 <= i < |d.calls| && d.calls[i].BatchSaved? ==> i == 0 && env.saver.Some?)
      && (forall i :: 0 <= i < |d.calls| && d.calls[i].Sent? ==>
            && i == |d.calls| - 1
            && d.reply == env.send(d.calls[i].message)
            && d.calls[i].message.chatId == action.user.tgId
            && SendsKindFor(action.content.contentType, d.calls[i].message))
  {
    var c := action.content;
    var t := c.contentType;
    var chatId := action.user.tgId;
    var parseMode := ParseMode(c.spices);
    var d := Dispatch(action, env);
    if t == "sticker" {
      SendOnceShape(env, StickerMessage(chatId, StickerFile(c.attachment.value.sticker)), t);
    } else if t == "dice" {
      SendOnceShape(env, DiceOutbound(chatId, c.attachment), t);
    } else if t == "contact" {
      if c.attachment.value.contact.Object? {
        SendOnceShape(env, ContactOutbound(chatId, c.attachment.value.contact.fields), t);
      }
    } else if t == "poll" {
      if c.attachment.value.poll.Object? {
        SendOnceShape(env, PollOutbound(chatId, c.attachment.value.poll.fields, parseMode, env.formatMarkdownV2), t);
      }
    } else if t == "game" {
      SendOnceShape(env, GameMessage(chatId, c.attachment.value.gameShortName), t);
    } else if t == "venue" {
      if c.attachment.value.venue.Object? {
        SendOnceShape(env, VenueOutbound(chatId, c.attachment.value.venue.fields), t);
      }
    } else {
      var plan := MarkupFor(action, env.mint);
      var text := Formatted(c.text, parseMode, env.formatMarkdownV2);
      TextPathMessages(c, chatId, text, parseMode, plan.markup);
      SendAfterMarkupShape(env, plan, TextOutbound(c, chatId, text, parseMode, plan.markup), t);
    }
    assert SaveThenSend(d, env, chatId, t);
  }

  /** A failed batch save aborts the action before anything is sent, and
      the action fails with the saver's error. */
  lemma SaveErrorAbortsBeforeSend(action: Action, env: Env)
    requires CanDispatch(action, env)
    ensures var d := Dispatch(action, env);
      forall i :: 0 <= i < |d.calls| && d.calls[i].BatchSaved? && env.saver.value(d.calls[i].records).Some? ==>
        && i == |d.calls| - 1
        && (forall j :: 0 <= j < |d.calls| ==> !d.calls[j].Sent?)
        && Outcome(d.reply) == ActionResult(false, 0, env.saver.value(d.calls[i].records))
  {
    DispatchShape(action, env);
  }

  /** An inline keyboard with a column count of zero or less whose records
      fail to save: the batch is saved, nothing is sent, and the action
      fails with the saver's error. */
  lemma NonPositiveColumnsFailWithSaveError(action: Action, env: Env)
    requires CanDispatch(action, env)
    requires LaysOutButs(action.content) && Columns(action.content) <= 0
    ensures var records := InlineRecords(action, env.mint);
      && Dispatch(action, env).calls == [BatchSaved(records)]
      && env.saver.Some? && env.saver.value(records).Some?
      && Outcome(Dispatch(action, env).reply) == ActionResult(false, 0, env.saver.value(records))
  {
    SaveFailsBeforeLayout(action, env.mint, env.saver);
  }

  /** A contact, poll or venue payload that is not a map sends nothing, and
      the action succeeds with message id 0. */
  lemma PayloadNotAMapSendsNothing(action: Action, env: Env)
    requires CanDispatch(action, env)
    requires var c := action.content;
      || (c.contentType == "contact" && !c.attachment.value.contact.Object?)
      || (c.contentType == "poll" && !c.attachment.value.poll.Object?)
      || (c.contentType == "venue" && !c.attachment.value.venue.Object?)
    ensures Dispatch(action, env).calls == []
    ensures Outcome(Dispatch(action, env).reply) == ActionResult(true, 0, None)
  {
  }

  /** Only the text path lays out keyboards or saves callback records. */
  lemma OnlyTextPathSaves(action: Action, env: Env)
    requires CanDispatch(action, env) && !TextPath(action.content.contentType)
    ensures forall i :: 0 <= i < |Dispatch(action, env).calls| ==> Dispatch(action, env).calls[i].Sent?
  {
  }

  /** On the text path the message carries the formatted text, the parse
      mode and the markup of applyReplyMarkup. */
  lemma TextPathSendsFormattedText(action: Action, env: Env)
    requires CanDispatch(action, env) && TextPath(action.content.contentType)
    ensures var c := action.content;
      var d := Dispatch(action, env);
      var parseMode := ParseMode(c.spices);
      forall i :: 0 <= i < |d.calls| && d.calls[i].Sent? ==>
        && d.calls[i].message.markup == MarkupFor(action, env.mint).markup
        && (d.calls[i].message.TextMessage? ==>
              d.calls[i].message.text == Formatted(c.text, parseMode, env.formatMarkdownV2)
              && d.calls[i].message.parseMode == parseMode)
        && (d.calls[i].message.MediaMessage? ==>
              d.calls[i].message.caption == Formatted(c.text, parseMode, env.formatMarkdownV2)
              && d.calls[i].message.parseMode == parseMode)
  {
    var c := action.content;
    var plan := MarkupFor(action, env.mint);
    var parseMode := ParseMode(c.spices);
    var text := Formatted(c.text, parseMode, env.formatMarkdownV2);
    TextPathMessages(c, action.user.tgId, text, parseMode, plan.markup);
  }
}
