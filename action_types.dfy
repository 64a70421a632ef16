/** The entities of the action compiler: the action a handler asks for, the
    callback records saved for keyboard buttons, the outgoing message the
    bot library is asked to send, and the collaborators the compiler calls. */
module ActionTypes {
  import opened Values
  import opened Errors
  import opened Keyboard

  /** The raw JSON of a button's callback action, kept as its text. */
  type RawMessage = string

  /** `TgID` is the chat to send to; `ID` is the internal user id stored
      with callback records. */
  datatype ActionUser = ActionUser(tgId: int, id: string)

  /** Media and payloads carried with a message. Contact, poll and venue are
      loosely typed decoded JSON. */
  datatype Attachment = Attachment(
    attachmentType: string,
    url: string,
    sticker: string,
    dice: string,
    contact: Value,
    poll: Value,
    venue: Value,
    gameShortName: string)

  /** `Attachment`, `ReplyMarkup` and `ColumnNum` are references or maps that
      may be nil: `None`. A nil `Actions` list reads like an empty one.
      `SendReaction` is `Parameters.SendReaction`; `Parameters.Save` is
      never read and is not carried. */
  datatype Content = Content(
    contentType: string,
    stream: string,
    text: string,
    attachment: Option<Attachment>,
    buts: seq<string>,
    actions: seq<RawMessage>,
    replyMarkup: Option<map<string, Value>>,
    columnNum: Option<int>,
    spices: map<string, Value>,
    sendReaction: Option<string>)

  /** `project` is the JSON field `slag`. The bot token is part of the
      client's configuration and is not carried. */
  datatype Action = Action(activity: string, project: string, user: ActionUser, content: Content)

  /** What is stored for one callback button, keyed by its token. */
  datatype CallbackData = CallbackData(project: string, userId: string, queryData: string, action: Option<RawMessage>)

  /** A file given by URL, or by a file id already known to Telegram. */
  datatype RequestFile = FileURL(url: string) | FileID(id: string)

  datatype MediaKind = Photo | Document | Video | Audio | Voice

  datatype Explanation = Explanation(text: string, parseMode: string)

  /** The message handed to the bot library. An `Option` field is `None`
      when the compiler leaves it at the value the library's constructor
      gives it. */
  datatype Outbound =
    | TextMessage(chatId: int, text: string, parseMode: string, markup: Markup)
    | MediaMessage(kind: MediaKind, chatId: int, file: RequestFile, caption: string, parseMode: string, markup: Markup)
    | VideoNoteMessage(chatId: int, length: int, file: RequestFile, markup: Markup)
    | StickerMessage(chatId: int, file: RequestFile)
    | DiceMessage(chatId: int, emoji: Option<string>)
    | ContactMessage(chatId: int, phoneNumber: string, firstName: string, lastName: Option<string>, vcard: Option<string>)
    | PollMessage(
        chatId: int, question: string, options: seq<string>, isAnonymous: Option<bool>,
        pollType: Option<string>, allowsMultipleAnswers: Option<bool>, explanation: Option<Explanation>)
    | GameMessage(chatId: int, gameShortName: string)
    | VenueMessage(
        chatId: int, title: string, address: string, latitude: bv64, longitude: bv64,
        foursquareId: Option<string>, foursquareType: Option<string>)

  /** What the library's `Send` returns: the sent message's id and an error. */
  datatype SendReply = SendReply(messageId: int, err: Option<Error>)

  /** The callback saver is optional (a nil interface); saving a batch
      returns an error or nothing. */
  type Saver = Option<seq<CallbackData> -> Option<Error>>

  /** The collaborators the compiler calls and cannot see into:
      - `initErr`: the outcome of initialising the bot;
      - `formatMarkdownV2`: the span-aware MarkdownV2 formatter;
      - `mint`: GenerateCallbackHash, as a function of the button index;
      - `saver`: the callback saver's batch save;
      - `send`: the bot library's `Send`. */
  datatype Env = Env(
    initErr: Option<Error>,
    formatMarkdownV2: string -> string,
    mint: nat -> string,
    saver: Saver,
    send: Outbound -> SendReply)

  /** The calls the compiler makes on its collaborators, in order. */
  datatype Effect =
    | ChatActionSent(chatId: int, chatAction: string)
    | BatchSaved(records: seq<CallbackData>)
    | Sent(message: Outbound)

  /** The outcome reported to the handler. ExecuteAction also returns the
      error a second time; it is always `err`. */
  datatype ActionResult = ActionResult(success: bool, messageId: int, err: Option<Error>)
}
