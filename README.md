# Telegram client core, modelled in Dafny

This project models the core of a Go client for the Telegram Bot API. It
has four parts:

- **Text formatting** (`format.dfy`, module `Format`):
  - MarkdownV2 escaping of the 18 reserved characters, and HTML entity
    escaping;
  - the Bold/Italic/Underline/Strikethrough/Spoiler/Code/Link wrappers in
    their plain, MarkdownV2 and HTML flavours;
  - the URL escaping of `LinkV2`, and user mentions;
  - the hand-written int64-to-decimal converter `formatInt64`.
- **Error classification** (`errors.dfy`, module `Errors`): the six
  predicates on an API error's code, and `GetErrorCode`.
- **The API client** (`client.dfy`, module `Client`):
  - the parameter maps the `SendX` helpers build, with `opts` written
    over the base entries;
  - the mapping of a decoded response with `ok` false to an API error;
  - the retry policy of `requestWithRetry`;
  - the file download URL.
- **The action compiler**: ExecuteAction turns an `Action` into at most
  one outgoing message.
  - `action_types.dfy` (module `ActionTypes`) holds the entities.
  - `keyboard.dfy` (module `Keyboard`) holds keyboards and the row-major
    layout of labels into rows of `colNum`.
  - `markup.dfy` (module `Markups`) holds applyReplyMarkup and the three
    markup builders, with their callback records.
  - `action.dfy` (module `Actions`) holds ExecuteAction and the senders.
- `values.dfy` (module `Values`) holds the JSON-like `Value` that stands
  for Go's loosely typed `interface{}` payloads.

## How the model is organised

Strings are `seq<char>`, one character per byte of the Go string.

Code that loops or updates step by step is written as a method with a
loop. Each such method is proved equal to a specification function, and
lemmas about the functions state what the code promises. The loops are:

- the 18 `ReplaceAll` passes of EscapeMarkdownV2;
- the digit loop of formatInt64;
- the `range opts` merges of the parameter builders;
- the retry loop;
- the token and layout loops of the keyboard builders;
- the nested walk over a supplied `reply_markup`;
- the poll options loop.

The collaborators the compiler calls but cannot see are fields of the
`Env` datatype:

- the bot library's `Send`;
- the callback saver;
- `GenerateCallbackHash`, as a function of the button index;
- `FormatMarkdownV2`;
- the outcome of `initBot`.

The calls the compiler makes on them are returned as a trace of `Effect`s.

## Model

| member | source | states |
|---|---|---|
| Format.EscapeMarkdownV2 | format.go:16-25 | The 18 successive `ReplaceAll` passes give the single per-character escaping `MarkdownV2Escaped`. |
| Format.ReplacePassExtends | format.go:21-23 | One `ReplaceAll` pass for a character not yet handled (and not `\`) extends the escaping to that character. This holds because the inserted backslash is not reserved. |
| Format.SpecialCharsDistinct | format.go:18 | The 18 reserved characters are distinct, and `\` is not one of them. |
| Format.ReplaceAllAppend | format.go:22 | `ReplaceAll` distributes over concatenation. |
| Format.EscapedLength | format.go:18-24 | The escaped length is the input length plus the number of reserved characters. |
| Format.EscapedPlainText | format.go:18-24 | Text with no reserved character is unchanged. |
| Format.EscapedKeepsReserved | format.go:18-24 | Escaping adds no reserved character; only backslashes are inserted. |
| Format.EscapeNotIdempotent | format.go:21-23 | On text holding a reserved character, escaping again changes the result. |
| Format.DotEscapedTwice | format.go:21-23 | `.` becomes `\.`, and escaping that again gives `\\.`. |
| Format.EscapedIsSafe | format.go:16-25 | Every reserved character of the escaped text sits right after a backslash. |
| Format.UnescapeEscaped | format.go:16-25 | Removing the backslash before each reserved character gives back the input, so escaping loses nothing. |
| Format.UnescapeEscapedHTML | format.go:28-35 | Reading the three entities back gives the input. So the `&` of an inserted entity is never escaped again (a single pass). |
| Format.UnescapeEntity | format.go:29-33 | The entity of one character reads back as that character, followed by the rest. |
| Format.EscapedHTMLHasNoTags | format.go:28-35 | The HTML-escaped text holds no `<` and no `>`. |
| Format.EscapeHTMLPlainText | format.go:28-35 | Text without `&`, `<` or `>` is unchanged. |
| Format.EscapeHTML | format.go:28-35 | Each character is kept, except `&`, `<` and `>`, which become `&amp;`, `&lt;` and `&gt;`. Because each character is replaced in a single pass, an `&` inside an inserted entity is never escaped twice. |
| Format.DelimitedEscaped | format.go:43-85 | A delimiter placed around the escaped text can be read back: the delimiter on each side, and an inside that unescapes to the text. |
| Format.V2WrappersDelimitEscapedText | format.go:43-85 | BoldV2, ItalicV2, UnderlineV2, StrikethroughV2 and SpoilerV2 put `*`, `_`, `__`, `~` and `\|\|` around the MarkdownV2-escaped text. |
| Format.V2WrappersArePlainOfEscaped | format.go:38-85 | Each V2 wrapper is its plain wrapper applied to the escaped text. On text with no reserved character the two agree. |
| Format.PlainWrappersInsertVerbatim | format.go:38-105 | The plain, code and link wrappers insert the text, and the link its URL, verbatim at a fixed offset. |
| Format.Bold | format.go:38-40 | The text between `*` delimiters, unescaped. |
| Format.BoldV2 | format.go:43-45 | The MarkdownV2-escaped text between `*` delimiters. |
| Format.Italic | format.go:48-50 | The text between `_` delimiters, unescaped. |
| Format.ItalicV2 | format.go:53-55 | The MarkdownV2-escaped text between `_` delimiters. |
| Format.Underline | format.go:58-60 | The text between `__` delimiters, unescaped. |
| Format.UnderlineV2 | format.go:63-65 | The MarkdownV2-escaped text between `__` delimiters. |
| Format.Strikethrough | format.go:68-70 | The text between `~` delimiters, unescaped. |
| Format.StrikethroughV2 | format.go:73-75 | The MarkdownV2-escaped text between `~` delimiters. |
| Format.Spoiler | format.go:78-80 | The text between `\|\|` delimiters, unescaped. |
| Format.SpoilerV2 | format.go:83-85 | The MarkdownV2-escaped text between `\|\|` delimiters. |
| Format.Code | format.go:88-90 | The text between backticks, unescaped. |
| Format.CodeBlock | format.go:93-95 | The text on its own lines between triple-backtick fences, unescaped. |
| Format.CodeBlockWithLang | format.go:98-100 | As CodeBlock, with the language name right after the opening fence. |
| Format.Link | format.go:103-105 | `[text](url)`, neither part escaped. |
| Format.TaggedEscaped | format.go:128-170 | Tags around the HTML-escaped text read back as the tags and the text. The inside holds no angle bracket. |
| Format.HtmlWrappersTagEscapedText | format.go:128-170 | Each HTML wrapper, including the code block with a language and the link, puts its own tags around the HTML-escaped text. |
| Format.BoldHTML | format.go:128-130 | The HTML-escaped text inside `<b>` tags. |
| Format.ItalicHTML | format.go:133-135 | The HTML-escaped text inside `<i>` tags. |
| Format.UnderlineHTML | format.go:138-140 | The HTML-escaped text inside `<u>` tags. |
| Format.StrikethroughHTML | format.go:143-145 | The HTML-escaped text inside `<s>` tags. |
| Format.SpoilerHTML | format.go:148-150 | The HTML-escaped text inside `<tg-spoiler>` tags. |
| Format.CodeHTML | format.go:153-155 | The HTML-escaped text inside `<code>` tags. |
| Format.CodeBlockHTML | format.go:158-160 | The HTML-escaped text inside `<pre>` tags. |
| Format.CodeBlockHTMLWithLang | format.go:163-165 | The HTML-escaped text inside `<pre><code class="language-…">` tags. The language name is not escaped. |
| Format.LinkHTML | format.go:168-170 | The HTML-escaped text inside an `<a>` tag whose `href` is the URL, unescaped. |
| Format.LinkUrlSinglePass | format.go:111-113 | Doubling every `\` and then escaping every `)` is one pass that puts a backslash before each `\` and each `)`. The backslash added before `)` is never doubled. |
| Format.LinkUrlPassOrderMatters | format.go:112-113 | In the other order, the backslash added before `)` would be doubled. |
| Format.UnescapeUrlEscaped | format.go:111-113 | The escaped URL reads back as the URL. |
| Format.LinkV2EscapesTextAndUrl | format.go:108-115 | LinkV2 is Link over the MarkdownV2-escaped text and the escaped URL. Both read back. |
| Format.LinkV2 | format.go:108-115 | `[text](url)`, where the text is MarkdownV2-escaped. In the URL, each `\` is doubled first, and then each `)` is escaped. |
| Format.DigitsOfReadsBack | format.go:187-191 | The digit string of a positive number is all digits, has no leading zero, and parses back to the number. |
| Format.DecimalStringReadsBack | format.go:177-198 | The intended result ("0", or the digits of \|n\| with `-` exactly when n < 0) is canonical and parses back to n. |
| Format.NegativeReadsBack | format.go:182-195 | A negative number's string is `-` followed by canonical digits, and reads back as the number. |
| Format.PositiveReadsBack | format.go:187-191 | A positive number's string is canonical digits, and reads back as the number. |
| Format.FormatInt64Result | format.go:177-198 | What formatInt64 returns: a string that reads back as `n` for every int64 but the minimum, and the bare `-`, which reads back as nothing, for the minimum. |
| Format.FormatInt64 | format.go:177-198 | The loop, with the int64 wrap-around of `n = -n`, gives the decimal string of every int64 except the minimum, which gives `-`. |
| Format.FormatInt64MinimumLosesDigits | format.go:182-191 | For the minimum int64 the source's result `-` does not parse, while the intended string parses back to it. |
| Format.Mention | format.go:118-120 | `[text](tg://user?id=<id>)`, with the id as formatInt64 writes it (so `-` for the minimum int64) and the text not escaped. |
| Format.MentionV2 | format.go:123-125 | As Mention, with the text MarkdownV2-escaped. |
| Format.MentionHTML | format.go:173-175 | An `<a>` tag to `tg://user?id=<id>` around the HTML-escaped text, with the id as formatInt64 writes it. |
| Format.MentionLinksUser | format.go:118-120 | A mention is `[text](tg://user?id=<id>)`. The id part reads back as the user id, except for the minimum int64, where it is the bare `-`. |
| Format.MentionV2EscapesOnlyText | format.go:123-125 | MentionV2 is Mention over the escaped text. The link part is unchanged, and the text reads back. |
| Format.MentionHTMLLinksUser | format.go:173-175 | MentionHTML links to `tg://user?id=<id>`, where the id reads back as the user id, except for the minimum int64 (a bare `-`). Its body is the HTML-escaped text, which reads back. |
| Errors.BlockedIsForbidden | errors.go:16-61 | IsBlockedError and IsForbiddenError always agree. |
| Errors.PredicatesReadErrorCode | errors.go:16-69 | Each predicate holds exactly when GetErrorCode is its code (403, 429, 404, 400, 401, 403). A non-API error has code -1. |
| Errors.OtherErrorsUnclassified | errors.go:16-61 | No predicate holds for an error that is not an API error. |
| Errors.AtMostOneClass | errors.go:16-53 | At most one of rate-limit, not-found, bad-request, unauthorized and blocked holds. |
| Errors.IsBlockedError | errors.go:16-21 | True exactly for an API error with code 403. |
| Errors.IsRateLimitError | errors.go:24-29 | True exactly for an API error with code 429. |
| Errors.IsNotFoundError | errors.go:32-37 | True exactly for an API error with code 404. |
| Errors.IsBadRequestError | errors.go:40-45 | True exactly for an API error with code 400. |
| Errors.IsUnauthorizedError | errors.go:48-53 | True exactly for an API error with code 401. |
| Errors.IsForbiddenError | errors.go:56-61 | True exactly for an API error with code 403. |
| Errors.GetErrorCode | errors.go:64-69 | The code of an API error, and -1 for any other error. |
| Client.WriteAll | client.go:77-79 | The `range` merge, in any key order, writes every `opts` entry in. Base entries of other keys are kept. |
| Client.OverridesIsUnion | client.go:77-79 | Whatever the visiting order, the merge yields the map union with `opts` winning. |
| Client.SendMessage | client.go:71-82 | Method `sendMessage`: `{chat_id, text}` with `opts` written over it. |
| Client.SendCaptioned | client.go:85-157 | `chat_id` and the file field, then `caption` only when it is non-empty, then `opts` over all. |
| Client.SendPhoto | client.go:85-97 | Method `sendPhoto`, with the captioned parameters under `photo`. |
| Client.SendDocument | client.go:100-112 | Method `sendDocument`, with the captioned parameters under `document`. |
| Client.SendVideo | client.go:115-127 | Method `sendVideo`, with the captioned parameters under `video`. |
| Client.SendAudio | client.go:130-142 | Method `sendAudio`, with the captioned parameters under `audio`. |
| Client.SendVoice | client.go:145-157 | Method `sendVoice`, with the captioned parameters under `voice`. |
| Client.SendVideoNote | client.go:160-169 | Method `sendVideoNote`: `{chat_id, video_note}` with `opts` over it. |
| Client.SendSticker | client.go:172-181 | Method `sendSticker`: `{chat_id, sticker}` with `opts` over it. |
| Client.SendDice | client.go:184-193 | Method `sendDice`: `{chat_id, emoji}` with `opts` over it. |
| Client.SendPayload | client.go:196-235 | `{chat_id}`, then every payload entry, then every `opts` entry. The later write wins. |
| Client.SendContact | client.go:196-207 | Method `sendContact`, with the payload parameters of the contact. |
| Client.SendPoll | client.go:210-221 | Method `sendPoll`, with the payload parameters of the poll. |
| Client.SendVenue | client.go:224-235 | Method `sendVenue`, with the payload parameters of the venue. |
| Client.SendLocation | client.go:238-248 | Method `sendLocation`: `{chat_id, latitude, longitude}` with `opts` over it. |
| Client.SendGame | client.go:251-260 | Method `sendGame`: `{chat_id, game_short_name}` with `opts` over it. |
| Client.EditMessageText | client.go:273-283 | Method `editMessageText`: `{chat_id, message_id, text}` with `opts` over it. |
| Client.SetWebhook | client.go:332-341 | Method `setWebhook`: `{url}` with `opts` over it. |
| Client.DecodedReply | client.go:434-441 | A response with `ok` false comes back with an API error carrying its code and description. `ok` true gives no error. |
| Client.RetriedResponses | client.go:434-456 | Of the decoded responses, exactly those refused with code 429 are retried. |
| Client.RequestWithRetry | client.go:445-466 | At most `maxRetries` tries, and none when it is ≤ 0 (nil, nil). Every try but the last was rate-limited. A success or another error is returned from the try that produced it. When every try is rate-limited, the last error comes back with no response. A try that reports no error carries a response, as a decoded reply always does, so a success returns one. |
| Client.SendMethod | client.go:373-385 | The call is tried up to 3 times under that policy. Any error is returned unchanged from the last try, and it discards the response. Without an error, the last try's response is returned. |
| Client.GetFileURL | client.go:327-329 | The URL is the file base, the token, `/`, then the path, each at its own offset. |
| Keyboard.ChunkFlatten | action.go:531-541 | Reading the rows left to right and top to bottom gives back the cells in order. |
| Keyboard.ChunkShape | action.go:531-541 | No cells means no rows. Every row but the last holds `colNum` cells, and the last holds the remaining 1 to `colNum`. |
| Keyboard.RowCount | action.go:528 | There are ceil(N / colNum) rows. |
| Keyboard.ChunkCell | action.go:531-538 | Cell `c` of row `r` is cell `r * colNum + c`. |
| Keyboard.LayoutRows | action.go:531-541 | The nested layout loop yields exactly the chunking of the cells. |
| Keyboard.LayoutExamples | action.go:531-541 | Seven labels in three columns make rows of 3, 3 and 1. Six make two full rows, and none make no rows. |
| Markups.RecordsPairTokensWithActions | action.go:505-518 | Record `i` carries token `i`, the project and the user id. It has `Actions[i]` exactly when `i < len(Actions)`. |
| Markups.BuildInlineKeyboardMarkup | action.go:500-544 | One record per label. The batch is saved once, only with a saver and a non-empty batch. A save error aborts before the keyboard is built, whatever the column count. Otherwise the labels are laid out with their tokens. |
| Markups.BuildReplyKeyboardMarkup | action.go:547-564 | The labels are laid out `colNum` to a row, with resize and one-time set. |
| Markups.InlineLayout | action.go:500-544 | The inline keyboard reads back as the labels in order. It has ceil(N / colNum) rows, and there is one record per label. The button at row `r`, column `c` is label `r * colNum + c`, carrying that record's token. |
| Markups.InlineButtonAt | action.go:531-538 | The button at row `r`, column `c` pairs label and record `r * colNum + c`. |
| Markups.ReplyLayoutLabels | action.go:547-564 | The reply keyboard reads back as the labels in order. It has ceil(N / colNum) rows, and label `r * colNum + c` sits at row `r`, column `c`. Resize and one-time are both true. |
| Markups.ConvertInlineRows | action.go:402-446 | The nested walk skips non-list rows and non-map items. It mints a token only for non-URL buttons, and gives the specified rows and records. |
| Markups.ConvertKeyboardRows | action.go:465-483 | Skips non-list rows. A string item is a label, a map item gives its `text`, and other items are dropped. |
| Markups.ConvertReplyMarkup | action.go:394-497 | An `inline_keyboard` list is converted and its records saved as one batch. A save error aborts. A `keyboard` list becomes a reply keyboard with the supplied resize and one-time flags. Anything else is passed on unchanged. |
| Markups.InlineItemsTokens | action.go:413-441 | The tokens of a converted row are consecutive indices, one per non-URL map item. |
| Markups.InlineRowsTokens | action.go:404-446 | Across rows, the callback tokens read in order are tokens 0, 1, …, with the index advancing only on non-URL buttons. |
| Markups.ConvertedTokensInOrder | action.go:404-453 | The callback buttons of the converted keyboard carry, in order, exactly the tokens of the saved records. |
| Markups.StringItemsAreLabels | action.go:474-476 | A `keyboard` of string items gives the same buttons as the labels. |
| Markups.ApplyReplyMarkup | action.go:358-391 | It carries out the markup decision `MarkupFor`, saving and failing as that decision says. |
| Markups.ReplyMarkupTakesPrecedence | action.go:360-367 | With a supplied `reply_markup`, the labels, column count and content type do not matter. |
| Markups.NoLabelsNoMarkup | action.go:370-388 | Without a supplied markup, no labels, or a type other than the two keyboard types, give no markup and save nothing. |
| Markups.DefaultThreeColumns | action.go:374-377 | With no column count, labels are laid out three to a row. |
| Markups.MarkupFor | action.go:358-391 | The markup decision. A supplied `reply_markup` is converted. With no labels there is no markup. With labels, `inline_keyboard` gives the inline plan and `virtual_keyboard` the reply keyboard, `ColumnNum` (default 3) to a row. Any other type gives no markup. |
| Markups.SaveFailsBeforeLayout | action.go:520-525 | An inline keyboard, whatever its column count, mints and saves its records before the layout. When that save fails, the markup step ends with the saver's error. |
| Markups.NonPositiveColumnsStall | action.go:528-541 | As written, a count ≤ 0 whose records are saved (or not saved at all) is outside the admitted inputs. Should the layout be reached, the loop index `i` stays at or below 0 on every turn, so `i < len(Buts)` never fails. |
| Markups.ColumnsOrDefault | action.go:374-377 | The corrected count is always positive. It is `ColumnNum` when that is positive, and 3 otherwise. |
| Markups.IntendedAgreesWhereSourceCompletes | action.go:358-391 | With the corrected count, the markup decision needs no width precondition. Wherever the source completes, it makes the same save, returns the same error, and gives the same markup when there is no error. |
| Markups.NonPositiveLikeMissing | action.go:374-377 | With the corrected count, a count ≤ 0 gives the same markup as a missing count: three to a row. |
| Actions.ParseModeHandling | action.go:94-101 | The formatter runs exactly when `parse_mode` is the string `MarkdownV2`. Another string is passed on with the text unchanged. A missing or non-string value gives no parse mode. |
| Actions.StickerRule | action.go:142-152 | A sticker is a URL exactly when it is longer than 100 bytes or starts with `h`, else a file id. Every `http` link is a URL. |
| Actions.PollOptions | action.go:191-198 | The options loop keeps the string elements, in order. |
| Actions.StringElementsAppend | action.go:191-198 | Keeping the string elements distributes over concatenation: the options of a list split in two are the options of each part, in order. |
| Actions.StringElementsKeepStrings | action.go:192-198 | A string is an option exactly when it is an element, and there are no more options than elements. |
| Actions.AllStringsKept | action.go:192-198 | A list of strings is kept whole. |
| Actions.SendStickerAction | action.go:142-152 | One sticker send to the user's chat, by the sticker rule. |
| Actions.SendDiceAction | action.go:155-161 | One dice send. The emoji is set only with an attachment whose `Dice` is non-empty. |
| Actions.SendContactAction | action.go:164-181 | A non-map contact sends nothing and replies empty with no error. Otherwise one contact send: phone and first name default to "", and last name and vCard are set only when they are strings. |
| Actions.SendPollAction | action.go:184-220 | A non-map poll sends nothing. Otherwise one poll send: the question, the string options, the optional flags, and an explanation formatted in MarkdownV2 mode that carries the parse mode. |
| Actions.SendGameAction | action.go:223-229 | One game send with the attachment's short name. |
| Actions.SendVenueAction | action.go:232-251 | A non-map venue sends nothing. Otherwise one venue send: the title, address and coordinates, with the foursquare fields only when they are strings. |
| Actions.TextPathMessages | action.go:254-355 | A non-empty attachment URL selects the media branch. Photo, document, video, audio and voice carry caption and parse mode. `video_note` has length 240 and no caption. Any other type is a text message. All carry the markup. |
| Actions.SendMediaAction | action.go:275-355 | The markup step, then one send of the media message, unless the markup step failed. |
| Actions.SendTextBasedAction | action.go:254-272 | The markup step, then one send of the text or media message, unless the markup step failed. |
| Actions.ExecuteAction | action.go:83-139 | An unsupported stream fails with no error and calls nothing. A failed initialisation fails with its error. Otherwise the optional chat action comes first, then the dispatched sender's calls, and the result is the reply's outcome. |
| Actions.DispatchShape | action.go:113-138 | At most one save and then one send, to the action's chat, of the kind the content type names. The result is that send's reply. |
| Actions.Dispatch | action.go:113-138 | The switch on the content type. Sticker, dice, contact, poll, game and venue each go to their own sender. Every other type goes through the text path: the markup step, then one send of the formatted text or media. |
| Actions.SaveErrorAbortsBeforeSend | action.go:266-269 | A failed batch save is the last call: nothing is sent, and the action fails with the saver's error. This holds for every dispatchable action, including an inline keyboard whose column count is ≤ 0. |
| Actions.NonPositiveColumnsFailWithSaveError | action.go:520-525 | An inline keyboard with a column count ≤ 0 gets as far as saving its records. The model admits it only when that save fails. The action then saves once, sends nothing, and fails with the saver's error. |
| Actions.PayloadNotAMapSendsNothing | action.go:164-236 | A contact, poll or venue payload that is not a map sends nothing. The action succeeds with message id 0. |
| Actions.OnlyTextPathSaves | action.go:113-129 | The non-text senders only send; they never save callback records. |
| Actions.TextPathSendsFormattedText | action.go:254-355 | On the text path, the message carries the applyReplyMarkup markup. A text message carries the formatted text and the parse mode, and a media message carries them as its caption. |

## Left out

- HTTP, JSON encoding and decoding, logging, configuration and `context` cancellation are left out. One request is an outcome supplied from outside (`attempt(i)`).
- Decoding the result into a `Message` after `sendMethod` is left out. The model returns the response instead.
- The sleep between retries is timing only and is left out.
- `Client.RequestWithRetry`: a non-API error value stands for the errors of marshalling, transport and decoding. What produces them is not modelled.
- The bot library is left out: `Send`, the chat-action request, and the message constructors.
  - An outgoing message is a record of its fields.
  - A field the source never sets is `None`, meaning the library's default.
  - The chat action's reply is discarded by the source and is only recorded as a call.
- `initBot` is not part of this model. Its outcome is an input.
- `GenerateCallbackHash` reads the clock and hashes. It is a function of the button index, and nothing is proved about the uniqueness of tokens.
- `FormatMarkdownV2` is not part of this model. It is an uninterpreted function of the text.
- A column count ≤ 0 is not checked by the source. An inline keyboard still mints its records and saves them first. A save error is then returned normally, and the model covers that case. Otherwise the layout loop never ends or the `make` call panics. This happens when the save succeeds or no saver is configured, and for any reply keyboard. The model excludes these cases: BuildInlineKeyboardMarkup requires a count above 0 unless the save fails. BuildReplyKeyboardMarkup requires a count above 0. ApplyReplyMarkup, the senders and ExecuteAction carry the same condition. The records such a run stores before it stops are not modelled.
- A missing attachment for sticker, contact, poll, game or venue makes the source dereference nil. ExecuteAction requires an attachment for those types.
- `applyReplyMarkup` writes `baseChat.ReplyMarkup` in place. The model returns the markup, and the message is built with it.
- The six media branches of `sendMediaAction` repeat one apply-then-send step. The model writes that step once, over a message chosen by the attachment type.
- Client calls that build no parameter map of interest are left out: SendChatAction, DeleteMessage, AnswerCallbackQuery, GetFile, DeleteWebhook, GetMe and Call.
- Latitude and longitude are `float64`. They are carried as their 64-bit patterns, with no arithmetic.
- `ExecuteAction` also returns its error a second time, which is always the result's error, so it is not carried. The raw `Response` field of the result is never set on these paths.
- `Parameters.Save` is never read, and the bot token is configuration. Neither is carried.
- `APIError.Error()`'s message text is not modelled.

## Findings

| source | as written | input that shows it | evidently intended | confidence | as-written member | corrected member |
|---|---|---|---|---|---|---|
| format.go:182-191 | `n = -n` overflows for the minimum int64, the loop never runs, and the result is `-` | `formatInt64(-9223372036854775808)` | `-9223372036854775808` | not executed | Format.FormatInt64, Format.FormatInt64Result, Format.FormatInt64MinimumLosesDigits | Format.DecimalString, Format.DecimalStringReadsBack |
| action.go:374-377 | `colNum` falls back to 3 only when `ColumnNum` is nil. A count ≤ 0 reaches the layout once the records are saved. There `make` may get a capacity below 0 and panic (action.go:528-529, 548-549), or `i += colNum` never reaches `len(Buts)` (action.go:531, 551). | `ColumnNum = 0`, `Buts = ["A"]`, type `inline_keyboard`, with a saver that succeeds | a count ≤ 0 treated like a missing one, so three to a row | not executed | Markups.NonPositiveColumnsStall, Actions.NonPositiveColumnsFailWithSaveError | Markups.ColumnsOrDefault, Markups.IntendedAgreesWhereSourceCompletes, Markups.NonPositiveLikeMissing |
