/** `handleUserEmotion`: the open chat handler that builds the background
    prompt, reads the completion as JSON (falling back to a fixed reply),
    keeps a suggested music link only when it looks like a YouTube link and
    stores the exchange. */
module EmotionChat {

  import opened Wrappers
  import opened JsValues
  import opened Text
  import opened Moods
  import opened Records
  import opened Prompts
  import opened Normalizer
  import opened ChatStore

  const WatchUrl: string := "youtube.com/watch?v="
  const ShortUrl: string := "youtu.be/"

  /** `isLikelyValidYouTubeLink`: a non-empty string containing one of the
      two YouTube URL forms. */
  function IsLikelyValidYouTubeLink(link: JsVal): (ok: bool)
    ensures ok ==> link.Str? && link.s != ""
  {
    link.Str? && link.s != "" && (Includes(link.s, WatchUrl) || Includes(link.s, ShortUrl))
  }

  /** The check accepts exactly the non-empty strings in which one of the
      two URL forms occurs at some position; every other value (`null`, a
      number, an object, `""`) is refused. */
  lemma YouTubeLinkIffOccurs(link: JsVal)
    ensures IsLikelyValidYouTubeLink(link)
            <==> link.Str? && link.s != "" && (Occurs(link.s, WatchUrl) || Occurs(link.s, ShortUrl))
  {
    if link.Str? {
      IncludesIffOccurs(link.s, WatchUrl);
      IncludesIffOccurs(link.s, ShortUrl);
    }
  }

  /** The music link stored and sent when the suggested one is dropped. */
  const NoLink: JsVal := Obj(map["title" := Null, "link" := Null])

  /** A music link as it may leave the handler: the empty pair, or one whose
      link passes the YouTube check. */
  predicate SafeLink(v: JsVal) {
    v == NoLink || IsLikelyValidYouTubeLink(Get(v, "link"))
  }

  /** `finalMusicLink`: the suggested link object, whole, when its `link`
      passes the check; the empty pair otherwise, so a title without a
      plausible link is discarded. */
  function FinalMusicLink(parsed: JsVal): (r: JsVal)
    ensures SafeLink(r)
    ensures IsLikelyValidYouTubeLink(Get(Get(parsed, "suggestedMusicLink"), "link"))
            ==> r == Get(parsed, "suggestedMusicLink") && r.Obj?
    ensures !IsLikelyValidYouTubeLink(Get(Get(parsed, "suggestedMusicLink"), "link")) ==> r == NoLink
  {
    var suggested := Get(parsed, "suggestedMusicLink");
    if IsLikelyValidYouTubeLink(Get(suggested, "link")) then suggested else NoLink
  }

  /** The reply assumed when the cleaned completion is not JSON; unlike the
      enhanced handler's it has no `serious` key and its music link has a
      `link` field. */
  function Fallback(raw: string): (r: JsVal)
    ensures Get(r, "response") == Str(raw)
    ensures Get(r, "suggestedActivity") == Arr([]) && Get(r, "suggestedExercise") == Arr([])
    ensures Get(r, "suggestedMusicLink") == NoLink
    ensures MoodOf(r) == Some(FallbackSample)
    ensures Get(r, "serious") == Undefined
  {
    Obj(map[
      "response" := Str(raw),
      "suggestedActivity" := Arr([]),
      "suggestedExercise" := Arr([]),
      "suggestedMusicLink" := NoLink,
      "mood" := Obj(map["mood" := Str("Okay"), "moodRating" := Num(3.0)])])
  }

  /** The completion read as JSON after cleaning, or the fixed fallback. */
  function Parsed(raw: string, parse: string -> Option<JsVal>): (r: JsVal)
    ensures parse(Clean(raw)).None? ==> r == Fallback(raw)
    ensures parse(Clean(raw)).Some? ==> r == parse(Clean(raw)).value
  {
    ParseCompletion(raw, parse, Fallback(raw))
  }

  /** The user after the exchange: one turn carrying the final music link,
      and the reply's mood when it has one. */
  function Updated(u: User, feeling: JsVal, parsed: JsVal, turnId: Id): (u': User)
    ensures u'.apiChatHistory == u.apiChatHistory + [Entry(turnId, TurnOf(feeling, parsed, FinalMusicLink(parsed)))]
    ensures u'.moods == u.moods + (if MoodOf(parsed).Some? then [MoodOf(parsed).value] else [])
    ensures u' == u.(apiChatHistory := u'.apiChatHistory, moods := u'.moods)
  {
    Record(u, turnId, TurnOf(feeling, parsed, FinalMusicLink(parsed)), MoodOf(parsed))
  }

  /** The JSON object of a 200 reply; a field holding `undefined` is left
      out of the serialised object. */
  datatype BasicReply = BasicReply(
    response: JsVal,
    suggestedActivity: JsVal,
    suggestedExercise: JsVal,
    suggestedMusicLink: JsVal,
    mood: JsVal)

  /** The reply object: the parsed fields as they came, except the music
      link, which is the final one. */
  function ReplyBody(parsed: JsVal): (b: BasicReply)
    ensures b.response == Get(parsed, "response")
    ensures b.suggestedActivity == Get(parsed, "suggestedActivity")
    ensures b.suggestedExercise == Get(parsed, "suggestedExercise")
    ensures b.suggestedMusicLink == FinalMusicLink(parsed) && SafeLink(b.suggestedMusicLink)
    ensures b.mood == Get(parsed, "mood")
  {
    BasicReply(Get(parsed, "response"), Get(parsed, "suggestedActivity"), Get(parsed, "suggestedExercise"),
               FinalMusicLink(parsed), Get(parsed, "mood"))
  }

  /** The handler after the completion has answered with `raw`. A parse
      yielding `null` makes the read of its music link throw: 500, no save. */
  function AfterCompletion(u: User, feeling: JsVal, raw: string, parse: string -> Option<JsVal>,
                           turnId: Id, save: User -> bool): (r: (nat, Option<User>, Option<BasicReply>))
    ensures var parsed := Parsed(raw, parse);
      && (Nullish(parsed) ==> r == (500, None, None))
      && (!Nullish(parsed) ==> r.1 == Some(Updated(u, feeling, parsed, turnId)))
      && (r.0 == 200 <==> !Nullish(parsed) && Committed(Updated(u, feeling, parsed, turnId), MoodOf(parsed), save))
      && (r.0 == 200 ==> r.2 == Some(ReplyBody(parsed)))
      && (r.0 != 200 ==> r.0 == 500 && r.2.None?)
  {
    var parsed := Parsed(raw, parse);
    if Nullish(parsed) then (500, None, None)
    else
      var u' := Updated(u, feeling, parsed, turnId);
      if Committed(u', MoodOf(parsed), save) then (200, Some(u'), Some(ReplyBody(parsed)))
      else (500, Some(u'), None)
  }

  /** `handleUserEmotion` once the user `u` (looked up by `id`) has been
      found and `prompt` built: completion, parse, store, reply. */
  function Converse(u: User, id: JsVal, feeling: JsVal, prompt: seq<Line>,
                    complete: seq<Line> -> Option<string>,
                    parse: string -> Option<JsVal>, turnId: Id, save: User -> bool): (r: Outcome<BasicReply>)
    ensures r.lookedUp == Some(id) && r.prompt == Some(prompt)
    ensures complete(prompt).None? ==> r.status == 500 && r.saved.None?
    ensures r.saved.Some? ==>
      var parsed := Parsed(complete(prompt).value, parse);
      && r.saved.value == Updated(u, feeling, parsed, turnId)
      && (r.body.Some? ==> r.body.value == ReplyBody(parsed))
    ensures r.status == 200 <==> r.saved.Some? && r.body.Some?
    ensures r.status == 200 ==> save(r.saved.value)
    ensures r.status in {200, 500}
  {
    match complete(prompt)
    case None => Outcome(500, Some(id), Some(prompt), None, None)
    case Some(raw) =>
      var (status, saved, body) := AfterCompletion(u, feeling, raw, parse, turnId, save);
      Outcome(status, Some(id), Some(prompt), saved, body)
  }

  /** `handleUserEmotion`. `userId` and `feeling` are the two body fields;
      `findById`, `complete`, `parse` and `save` are the store, the
      completion service, `JSON.parse` and the store's save. */
  function Handle(userId: JsVal, feeling: JsVal, findById: JsVal -> Fetch<User>,
                  complete: seq<Line> -> Option<string>, parse: string -> Option<JsVal>,
                  turnId: Id, save: User -> bool): (r: Outcome<BasicReply>)
    ensures !Truthy(userId) || !Truthy(feeling) ==> r == Outcome(400, None, None, None, None)
    ensures r.lookedUp.Some? <==> Truthy(userId) && Truthy(feeling)
    ensures r.lookedUp.Some? ==> r.lookedUp.value == userId
    ensures r.lookedUp.Some? && findById(userId).NotFound? ==> r.status == 404
    ensures r.lookedUp.Some? && findById(userId).Failed? ==> r.status == 500
    ensures r.prompt.Some? <==> r.lookedUp.Some? && findById(userId).Found?
    ensures r.prompt.Some? ==> r.prompt.value == BasicPrompt(findById(userId).doc, feeling)
    ensures r.saved.Some? ==> r.prompt.Some? && complete(r.prompt.value).Some?
    ensures r.saved.Some? ==>
      var parsed := Parsed(complete(r.prompt.value).value, parse);
      && r.saved.value == Updated(findById(userId).doc, feeling, parsed, turnId)
      && (r.body.Some? ==> r.body.value == ReplyBody(parsed))
    ensures r.status == 200 <==> r.saved.Some? && r.body.Some?
    ensures r.status == 200 ==> save(r.saved.value)
    ensures r.status in {200, 400, 404, 500}
  {
    if !Truthy(userId) || !Truthy(feeling) then Outcome(400, None, None, None, None)
    else
      match findById(userId)
      case Failed => Outcome(500, Some(userId), None, None, None)
      case NotFound => Outcome(404, Some(userId), None, None, None)
      case Found(u) => Converse(u, userId, feeling, BasicPrompt(u, feeling), complete, parse, turnId, save)
  }

  /** The user a successful call started from. */
  function Before(r: Outcome<BasicReply>, findById: JsVal -> Fetch<User>): User
    requires r.lookedUp.Some? && findById(r.lookedUp.value).Found?
  {
    findById(r.lookedUp.value).doc
  }

  /** A call that answers 200 stored exactly one new turn at the end of the
      history, holding the user's words, two suggestion arrays and the very
      music link the reply carries, and changed nothing but the history and
      the moods. */
  lemma AppendsOneTurn(userId: JsVal, feeling: JsVal, findById: JsVal -> Fetch<User>,
                       complete: seq<Line> -> Option<string>, parse: string -> Option<JsVal>,
                       turnId: Id, save: User -> bool)
    requires Handle(userId, feeling, findById, complete, parse, turnId, save).status == 200
    ensures var r := Handle(userId, feeling, findById, complete, parse, turnId, save);
      var (u, u') := (Before(r, findById), r.saved.value);
      && |u'.apiChatHistory| == |u.apiChatHistory| + 1
      && u'.apiChatHistory[..|u.apiChatHistory|] == u.apiChatHistory
      && u'.apiChatHistory[|u.apiChatHistory|].id == turnId
      && u'.apiChatHistory[|u.apiChatHistory|].doc.userMessage == feeling
      && u'.apiChatHistory[|u.apiChatHistory|].doc.suggestedExercise.Arr?
      && u'.apiChatHistory[|u.apiChatHistory|].doc.suggestedActivity.Arr?
      && u'.apiChatHistory[|u.apiChatHistory|].doc.suggestedMusicLink == r.body.value.suggestedMusicLink
      && (|u'.moods| == |u.moods| || |u'.moods| == |u.moods| + 1)
      && u'.moods[..|u.moods|] == u.moods
      && u' == u.(apiChatHistory := u'.apiChatHistory, moods := u'.moods)
  {
  }

  /** After an unparsable completion `raw` the fallback is stored and, when
      the store saves it, sent. */
  lemma UnparsableCompletion(u: User, feeling: JsVal, raw: string, parse: string -> Option<JsVal>,
                             turnId: Id, save: User -> bool)
    requires parse(Clean(raw)).None?
    ensures var r := AfterCompletion(u, feeling, raw, parse, turnId, save);
      && r.1 == Some(FallbackStored(u, feeling, raw, turnId))
      && (r.0 == 200 <==> save(FallbackStored(u, feeling, raw, turnId)))
      && (r.0 == 200 ==> r.2 == Some(FallbackBody(raw)))
  {
    assert Parsed(raw, parse) == Fallback(raw);
    FallbackSampleValid();
  }

  /** The user stored after an unparsable completion: the raw text as the
      reply of the new turn, empty suggestion lists, no music link, the
      fallback mood. */
  function FallbackStored(u: User, feeling: JsVal, raw: string, turnId: Id): (u': User)
    ensures u'.apiChatHistory == u.apiChatHistory + [Entry(turnId, ChatTurn(feeling, Str(raw), Arr([]), Arr([]), NoLink))]
    ensures u'.moods == u.moods + [FallbackSample]
    ensures u' == u.(apiChatHistory := u'.apiChatHistory, moods := u'.moods)
  {
    assert FinalMusicLink(Fallback(raw)) == NoLink;
    Updated(u, feeling, Fallback(raw), turnId)
  }

  /** The reply after an unparsable completion. */
  function FallbackBody(raw: string): (b: BasicReply)
    ensures b == BasicReply(Str(raw), Arr([]), Arr([]), NoLink, MoodValue(FallbackSample))
  {
    ReplyBody(Fallback(raw))
  }

  /** A stored exchange keeps every mood sample of the user within the mood
      schema. */
  lemma KeepsMoodsValid(userId: JsVal, feeling: JsVal, findById: JsVal -> Fetch<User>,
                        complete: seq<Line> -> Option<string>, parse: string -> Option<JsVal>,
                        turnId: Id, save: User -> bool)
    requires Handle(userId, feeling, findById, complete, parse, turnId, save).status == 200
    requires MoodsValid(Before(Handle(userId, feeling, findById, complete, parse, turnId, save), findById))
    ensures MoodsValid(Handle(userId, feeling, findById, complete, parse, turnId, save).saved.value)
  {
    var r := Handle(userId, feeling, findById, complete, parse, turnId, save);
    var u := Before(r, findById);
    var parsed := Parsed(complete(BasicPrompt(u, feeling)).value, parse);
    CommittedKeepsMoodsValid(u, turnId, TurnOf(feeling, parsed, FinalMusicLink(parsed)), MoodOf(parsed), save);
  }

  /** The next background prompt for the stored user mentions the music of
      this exchange iff the final link has a truthy title; a dropped link
      (including the fallback's) is never recalled. */
  lemma NextPromptRecallsMusic(u: User, feeling: JsVal, parsed: JsVal, turnId: Id, next: JsVal)
    ensures var title := Get(FinalMusicLink(parsed), "title");
      && (LastMusicLine(title) in BasicBackground(Updated(u, feeling, parsed, turnId)) <==> Truthy(title))
      && (FinalMusicLink(parsed) == NoLink ==> !Truthy(title))
  {
    var u' := Updated(u, feeling, parsed, turnId);
    var h := u'.apiChatHistory;
    assert h[|h| - 1].doc.suggestedMusicLink == FinalMusicLink(parsed);
    var title := Get(FinalMusicLink(parsed), "title");
    if LastMusicLine(title) in BasicBackground(u') {
      assert MusicLineAgrees(u', LastMusicLine(title));
    }
  }
}
