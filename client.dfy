/** The Bot API client: the parameter maps the `SendX` helpers build, the
    mapping of a decoded response with `ok` false to an API error, the retry
    policy for rate-limited requests, and the file download URL.

    HTTP, JSON encoding and logging are not modelled: one request is an
    outcome supplied from outside (`attempt(i)` is what the i-th try of a
    request returns), and a `SendX` helper is modelled up to the `Call`
    (method name and parameter map) it hands to `sendMethod`. */
module Client {
  import opened Values
  import opened Errors

  type Params = map<string, Value>

  /** One Bot API call: the method name and its parameters. */
  datatype Call = Call(name: string, params: Params)

  /** `r` is `base` after `for k, v := range extra { params[k] = v }`: every
      entry of `extra` is written in, replacing a base entry of the same key. */
  predicate Overrides(r: Params, base: Params, extra: Params)
  {
    && r.Keys == base.Keys + extra.Keys
    && (forall k :: k in extra ==> r[k] == extra[k])
    && (forall k :: k in base && k !in extra ==> r[k] == base[k])
  }

  /** The `range` loop that writes `extra` into `params`. Go visits the keys
      in no fixed order; so does this loop. */
  method WriteAll(params: Params, extra: Params) returns (r: Params)
    ensures Overrides(r, params, extra)
  {
    r := params;
    var pending := extra.Keys;
    while pending != {}
      invariant pending <= extra.Keys
      invariant r.Keys == params.Keys + (extra.Keys - pending)
      invariant forall k :: k in extra && k !in pending ==> r[k] == extra[k]
      invariant forall k :: k in params && (k !in extra || k in pending) ==> r[k] == params[k]
      decreases pending
    {
      var k :| k in pending;
      r := r[k := extra[k]];
      pending := pending - {k};
    }
  }

  /** Whatever order the keys are visited in, the result is the same map:
      `base` updated by `extra`. */
  lemma OverridesIsUnion(r: Params, base: Params, extra: Params)
    requires Overrides(r, base, extra)
    ensures r == base + extra
  {
    assert r.Keys == (base + extra).Keys;
    forall k | k in r
      ensures r[k] == (base + extra)[k]
    {
    }
  }

  // ---------------------------------------------------------------------
  // Parameter builders
  // ---------------------------------------------------------------------

  method SendMessage(chatId: int, text: string, opts: Params) returns (call: Call)
    ensures call.name == "sendMessage"
    ensures Overrides(call.params, map["chat_id" := Int(chatId), "text" := Str(text)], opts)
  {
    var params := map["chat_id" := Int(chatId), "text" := Str(text)];
    params := WriteAll(params, opts);
    call := Call("sendMessage", params);
  }

  /** The parameters of a captioned media send: `chat_id` and the file under
      `field`, `caption` only when it is non-empty, and then `opts` on top. */
  predicate CaptionedParams(p: Params, chatId: int, field: string, file: string, caption: string, opts: Params)
  {
    && p.Keys == {"chat_id", field} + (if caption != "" then {"caption"} else {}) + opts.Keys
    && (forall k :: k in opts ==> p[k] == opts[k])
    && ("chat_id" !in opts ==> p["chat_id"] == Int(chatId))
    && (field !in opts ==> p[field] == Str(file))
    && ("caption" !in opts ==> ("caption" in p <==> caption != ""))
    && ("caption" !in opts && caption != "" ==> p["caption"] == Str(caption))
  }

  method SendCaptioned(name: string, field: string, chatId: int, file: string, caption: string, opts: Params)
    returns (call: Call)
    requires field != "chat_id" && field != "caption"
    ensures call.name == name
    ensures CaptionedParams(call.params, chatId, field, file, caption, opts)
  {
    var params := map["chat_id" := Int(chatId), field := Str(file)];
    if caption != "" {
      params := params["caption" := Str(caption)];
    }
    params := WriteAll(params, opts);
    call := Call(name, params);
  }

  method SendPhoto(chatId: int, photo: string, caption: string, opts: Params) returns (call: Call)
    ensures call.name == "sendPhoto"
    ensures CaptionedParams(call.params, chatId, "photo", photo, caption, opts)
  {
    call := SendCaptioned("sendPhoto", "photo", chatId, photo, caption, opts);
  }

  method SendDocument(chatId: int, document: string, caption: string, opts: Params) returns (call: Call)
    ensures call.name == "sendDocument"
    ensures CaptionedParams(call.params, chatId, "document", document, caption, opts)
  {
    call := SendCaptioned("sendDocument", "document", chatId, document, caption, opts);
  }

  method SendVideo(chatId: int, video: string, caption: string, opts: Params) returns (call: Call)
    ensures call.name == "sendVideo"
    ensures CaptionedParams(call.params, chatId, "video", video, caption, opts)
  {
    call := SendCaptioned("sendVideo", "video", chatId, video, caption, opts);
  }

  method SendAudio(chatId: int, audio: string, caption: string, opts: Params) returns (call: Call)
    ensures call.name == "sendAudio"
    ensures CaptionedParams(call.params, chatId, "audio", audio, caption, opts)
  {
    call := SendCaptioned("sendAudio", "audio", chatId, audio, caption, opts);
  }

  method SendVoice(chatId: int, voice: string, caption: string, opts: Params) returns (call: Call)
    ensures call.name == "sendVoice"
    ensures CaptionedParams(call.params, chatId, "voice", voice, caption, opts)
  {
    call := SendCaptioned("sendVoice", "voice", chatId, voice, caption, opts);
  }

  method SendVideoNote(chatId: int, videoNote: string, opts: Params) returns (call: Call)
    ensures call.name == "sendVideoNote"
    ensures Overrides(call.params, map["chat_id" := Int(chatId), "video_note" := Str(videoNote)], opts)
  {
    var params := map["chat_id" := Int(chatId), "video_note" := Str(videoNote)];
    params := WriteAll(params, opts);
    call := Call("sendVideoNote", params);
  }

  method SendSticker(chatId: int, sticker: string, opts: Params) returns (call: Call)
    ensures call.name == "sendSticker"
    ensures Overrides(call.params, map["chat_id" := Int(chatId), "sticker" := Str(sticker)], opts)
  {
    var params := map["chat_id" := Int(chatId), "sticker" := Str(sticker)];
    params := WriteAll(params, opts);
    call := Call("sendSticker", params);
  }

  method SendDice(chatId: int, emoji: string, opts: Params) returns (call: Call)
    ensures call.name == "sendDice"
    ensures Overrides(call.params, map["chat_id" := Int(chatId), "emoji" := Str(emoji)], opts)
  {
    var params := map["chat_id" := Int(chatId), "emoji" := Str(emoji)];
    params := WriteAll(params, opts);
    call := Call("sendDice", params);
  }

  /** The parameters of a send built from a free-form payload: `chat_id`,
      then every payload entry, then every `opts` entry; a later write wins. */
  predicate PayloadParams(p: Params, chatId: int, payload: Params, opts: Params)
  {
    && p.Keys == {"chat_id"} + payload.Keys + opts.Keys
    && (forall k :: k in opts ==> p[k] == opts[k])
    && (forall k :: k in payload && k !in opts ==> p[k] == payload[k])
    && ("chat_id" !in payload && "chat_id" !in opts ==> p["chat_id"] == Int(chatId))
  }

  method SendPayload(name: string, chatId: int, payload: Params, opts: Params) returns (call: Call)
    ensures call.name == name
    ensures PayloadParams(call.params, chatId, payload, opts)
  {
    var params := map["chat_id" := Int(chatId)];
    params := WriteAll(params, payload);
    params := WriteAll(params, opts);
    call := Call(name, params);
  }

  method SendContact(chatId: int, contact: Params, opts: Params) returns (call: Call)
    ensures call.name == "sendContact"
    ensures PayloadParams(call.params, chatId, contact, opts)
  {
    call := SendPayload("sendContact", chatId, contact, opts);
  }

  method SendPoll(chatId: int, poll: Params, opts: Params) returns (call: Call)
    ensures call.name == "sendPoll"
    ensures PayloadParams(call.params, chatId, poll, opts)
  {
    call := SendPayload("sendPoll", chatId, poll, opts);
  }

  method SendVenue(chatId: int, venue: Params, opts: Params) returns (call: Call)
    ensures call.name == "sendVenue"
    ensures PayloadParams(call.params, chatId, venue, opts)
  {
    call := SendPayload("sendVenue", chatId, venue, opts);
  }

  /** Latitude and longitude are float64 values, carried as their bits. */
  method SendLocation(chatId: int, latitude: bv64, longitude: bv64, opts: Params) returns (call: Call)
    ensures call.name == "sendLocation"
    ensures Overrides(call.params,
      map["chat_id" := Int(chatId), "latitude" := Number(latitude), "longitude" := Number(longitude)], opts)
  {
    var params := map["chat_id" := Int(chatId), "latitude" := Number(latitude), "longitude" := Number(longitude)];
    params := WriteAll(params, opts);
    call := Call("sendLocation", params);
  }

  method SendGame(chatId: int, gameShortName: string, opts: Params) returns (call: Call)
    ensures call.name == "sendGame"
    ensures Overrides(call.params, map["chat_id" := Int(chatId), "game_short_name" := Str(gameShortName)], opts)
  {
    var params := map["chat_id" := Int(chatId), "game_short_name" := Str(gameShortName)];
    params := WriteAll(params, opts);
    call := Call("sendGame", params);
  }

  method EditMessageText(chatId: int, messageId: int, text: string, opts: Params) returns (call: Call)
    ensures call.name == "editMessageText"
    ensures Overrides(call.params,
      map["chat_id" := Int(chatId), "message_id" := Int(messageId), "text" := Str(text)], opts)
  {
    var params := map["chat_id" := Int(chatId), "message_id" := Int(messageId), "text" := Str(text)];
    params := WriteAll(params, opts);
    call := Call("editMessageText", params);
  }

  method SetWebhook(url: string, opts: Params) returns (call: Call)
    ensures call.name == "setWebhook"
    ensures Overrides(call.params, map["url" := Str(url)], opts)
  {
    var params := map["url" := Str(url)];
    params := WriteAll(params, opts);
    call := Call("setWebhook", params);
  }

  // ---------------------------------------------------------------------
  // Responses and retries
  // ---------------------------------------------------------------------

  /** A decoded Bot API response; `result` is the raw JSON of the result. */
  datatype Response = Response(ok: bool, result: string, description: string, errorCode: int)

  /** What one request returns: a response and an error, each possibly nil. */
  datatype Reply = Reply(resp: Option<Response>, err: Option<Error>)

  /** The last step of `request`: a decoded response with `ok` false comes
      back together with an API error carrying its code and description. */
  function DecodedReply(resp: Response): (r: Reply)
    ensures r.resp == Some(resp)
    ensures r.err.None? <==> resp.ok
    ensures r.err.Some? ==>
      r.err.value.ApiError? && GetErrorCode(r.err.value) == resp.errorCode && r.err.value.description == resp.description
  {
    if !resp.ok then Reply(Some(resp), Some(ApiError(resp.errorCode, resp.description)))
    else Reply(Some(resp), None)
  }

  /** The only outcome that is tried again. */
  predicate RateLimited(r: Reply)
  {
    r.err.Some? && IsRateLimitError(r.err.value)
  }

  /** Of the decoded responses, exactly those refused with code 429 are retried. */
  lemma RetriedResponses(resp: Response)
    ensures RateLimited(DecodedReply(resp)) <==> !resp.ok && resp.errorCode == 429
  {
  }

  /** requestWithRetry: tries the request up to `maxRetries` times. A success
      or an error other than a 429 API error is returned at once; when every
      try is rate-limited the last error comes back with no response.
      `attempts` counts the requests made. The back-off sleep is not modelled.
      A request that reports no error always carries a response. */
  method RequestWithRetry(attempt: nat -> Reply, maxRetries: int) returns (r: Reply, attempts: nat)
    requires forall i: nat :: attempt(i).err.None? ==> attempt(i).resp.Some?
    ensures maxRetries <= 0 ==> attempts == 0 && r == Reply(None, None)
    ensures maxRetries > 0 ==> 1 <= attempts <= maxRetries
    ensures forall i :: 0 <= i < attempts - 1 ==> RateLimited(attempt(i))
    ensures attempts > 0 && !RateLimited(attempt(attempts - 1)) ==> r == attempt(attempts - 1)
    ensures attempts > 0 && RateLimited(attempt(attempts - 1)) ==>
      attempts == maxRetries && r == Reply(None, attempt(attempts - 1).err)
    ensures attempts > 0 && r.err.None? ==> r.resp.Some?
  {
    var lastErr: Option<Error> := None;
    var i := 0;
    while i < maxRetries
      invariant 0 <= i && (maxRetries > 0 ==> i <= maxRetries) && (maxRetries <= 0 ==> i == 0)
      invariant forall j :: 0 <= j < i ==> RateLimited(attempt(j))
      invariant i == 0 ==> lastErr == None
      invariant i > 0 ==> lastErr == attempt(i - 1).err
    {
      var reply := attempt(i);
      if reply.err.None? {
        return reply, i + 1;
      }
      lastErr := reply.err;
      if reply.err.value.ApiError? && reply.err.value.code == 429 {
        i := i + 1;
        continue;
      }
      return reply, i + 1;
    }
    return Reply(None, lastErr), i;
  }

  /** The number of tries sendMethod allows. */
  const SendRetries := 3

  /** sendMethod: the call goes through RequestWithRetry with 3 tries; an
      error discards the response. Decoding the result into a Message is
      not modelled; the response is returned instead. */
  method SendMethod(call: Call, request: (Call, nat) -> Reply) returns (resp: Option<Response>, err: Option<Error>, attempts: nat)
    requires forall i: nat :: request(call, i).err.None? ==> request(call, i).resp.Some?
    ensures 1 <= attempts <= SendRetries
    ensures forall i :: 0 <= i < attempts - 1 ==> RateLimited(request(call, i))
    ensures err.Some? ==> resp.None?
    ensures err.None? ==> request(call, attempts - 1) == Reply(resp, None) && resp.Some?
    ensures err.Some? ==> err == request(call, attempts - 1).err
    ensures err.Some? && RateLimited(request(call, attempts - 1)) ==> attempts == SendRetries
  {
    var tries := (i: nat) => request(call, i);
    assert forall i: nat :: tries(i) == request(call, i);
    var reply;
    reply, attempts := RequestWithRetry(tries, SendRetries);
    if reply.err.Some? {
      return None, reply.err, attempts;
    }
    return reply.resp, None, attempts;
  }

  const FileURLBase: string := "https://api.telegram.org/file/bot"

  /** The download URL of a file: the file base, the bot token, `/`, the path. */
  function GetFileURL(token: string, filePath: string): (url: string)
    ensures |url| == |FileURLBase| + |token| + 1 + |filePath|
    ensures url[..|FileURLBase|] == FileURLBase
    ensures url[|FileURLBase|..|FileURLBase| + |token|] == token
    ensures url[|FileURLBase| + |token|] == '/'
    ensures url[|url| - |filePath|..] == filePath
  {
    FileURLBase + token + "/" + filePath
  }
}
