/** `handleEnhancedChat`: the authenticated chat handler that builds a rich
    prompt, reads the completion as JSON (falling back to a fixed reply),
    counts serious messages and stores the exchange. */
module EnhancedChat {

  import opened Wrappers
  import opened JsValues
  import opened Moods
  import opened Records
  import opened Prompts
  import opened Normalizer
  import opened ChatStore

  /** The fixed message attached to a reply flagged as serious. */
  const CrisisAlert: string :=
    "\U{1F6A8} We're here for you. If you're feeling overwhelmed or in danger, please reach out to a mental health professional or someone you trust. You're not alone."

  /** The reply assumed when the cleaned completion is not JSON. */
  function Fallback(raw: string): (r: JsVal)
    ensures Get(r, "response") == Str(raw)
    ensures Get(r, "suggestedActivity") == Arr([]) && Get(r, "suggestedExercise") == Arr([])
    ensures Get(Get(r, "suggestedMusicLink"), "title") == Null
    ensures MoodOf(r) == Some(FallbackSample)
    ensures Get(r, "serious") == Bool(false)
  {
    Obj(map[
      "response" := Str(raw),
      "suggestedActivity" := Arr([]),
      "suggestedExercise" := Arr([]),
      "suggestedMusicLink" := Obj(map["title" := Null]),
      "mood" := Obj(map["mood" := Str("Okay"), "moodRating" := Num(3.0)]),
      "serious" := Bool(false)])
  }

  /** `parsed.serious === true`. */
  predicate Serious(parsed: JsVal) {
    Get(parsed, "serious") == Bool(true)
  }

  /** The music link stored and returned: `{title}` when the parsed title is
      truthy, `{title: null}` otherwise. */
  function MusicOf(parsed: JsVal): (r: JsVal)
    ensures Truthy(Get(Get(parsed, "suggestedMusicLink"), "title"))
            ==> r == Obj(map["title" := Get(Get(parsed, "suggestedMusicLink"), "title")])
    ensures !Truthy(Get(Get(parsed, "suggestedMusicLink"), "title")) ==> r == Obj(map["title" := Null])
  {
    var title := Get(Get(parsed, "suggestedMusicLink"), "title");
    Obj(map["title" := if Truthy(title) then title else Null])
  }

  /** The serious-message counter after a reply: one more than before (an
      unset counter counts as 0) when the reply is serious, unchanged
      otherwise. */
  function CountAfter(count: Option<real>, parsed: JsVal): (r: Option<real>)
    ensures Serious(parsed) ==> r == Some(count.GetOr(0.0) + 1.0)
    ensures !Serious(parsed) ==> r == count
  {
    if Serious(parsed) then Some(count.GetOr(0.0) + 1.0) else count
  }

  /** The user as the handler hands it to `save`. */
  function Updated(u: User, feeling: JsVal, parsed: JsVal, turnId: Id): (u': User)
    ensures u'.apiChatHistory == u.apiChatHistory + [Entry(turnId, TurnOf(feeling, parsed, MusicOf(parsed)))]
    ensures u'.moods == u.moods + (if MoodOf(parsed).Some? then [MoodOf(parsed).value] else [])
    ensures u'.seriousAlertCount == CountAfter(u.seriousAlertCount, parsed)
    ensures u' == u.(apiChatHistory := u'.apiChatHistory, moods := u'.moods,
                     seriousAlertCount := u'.seriousAlertCount)
  {
    var counted := u.(seriousAlertCount := CountAfter(u.seriousAlertCount, parsed));
    Record(counted, turnId, TurnOf(feeling, parsed, MusicOf(parsed)), MoodOf(parsed))
  }

  /** The JSON object of a 200 reply, one field per property; a field
      holding `undefined` is left out of the serialised object. */
  datatype ReplyJson = ReplyJson(
    response: JsVal,
    suggestedActivity: JsVal,
    suggestedExercise: JsVal,
    suggestedMusicLink: JsVal,
    mood: JsVal,
    serious: JsVal,
    alert: JsVal)

  /** The reply to a parsed completion: the parsed fields as they are, the
      chosen music link, `serious || false`, and the crisis alert exactly
      when the completion says `serious: true`. */
  function ReplyBody(parsed: JsVal): (b: ReplyJson)
    ensures b.response == Get(parsed, "response") && b.mood == Get(parsed, "mood")
    ensures b.suggestedActivity == Get(parsed, "suggestedActivity")
    ensures b.suggestedExercise == Get(parsed, "suggestedExercise")
    ensures b.suggestedMusicLink == MusicOf(parsed)
    ensures b.serious == Or(Get(parsed, "serious"), Bool(false))
    ensures Serious(parsed) ==> b.alert == Str(CrisisAlert)
    ensures !Serious(parsed) ==> b.alert == Null
  {
    ReplyJson(Get(parsed, "response"), Get(parsed, "suggestedActivity"), Get(parsed, "suggestedExercise"),
              MusicOf(parsed), Get(parsed, "mood"), Or(Get(parsed, "serious"), Bool(false)),
              if Serious(parsed) then Str(CrisisAlert) else Null)
  }

  /** The completion read as JSON after cleaning, or the fixed fallback. */
  function Parsed(raw: string, parse: string -> Option<JsVal>): (r: JsVal)
    ensures parse(Clean(raw)).None? ==> r == Fallback(raw)
    ensures parse(Clean(raw)).Some? ==> r == parse(Clean(raw)).value
  {
    ParseCompletion(raw, parse, Fallback(raw))
  }

  /** The handler after the completion has answered with `raw`. A parse
      yielding `null` makes the first property read throw: 500, no save. */
  function AfterCompletion(u: User, feeling: JsVal, raw: string, parse: string -> Option<JsVal>,
                           turnId: Id, save: User -> bool): (r: (nat, Option<User>, Option<ReplyJson>))
    ensures var parsed := Parsed(raw, parse);
      && (Nullish(parsed) ==> r == (500, None, None))
      && (!Nullish(parsed) ==> r.1 == Some(Updated(u, feeling, parsed, turnId)))
      && (r.0 == 200 <==> !Nullish(parsed) && Committed(Updated(u, feeling, parsed, turnId), MoodOf(parsed), save))
      && (r.0 == 200 ==> r.2 == Some(ReplyBody(parsed)))
      && (r.0 != 200 ==> r.0 == 500 && r.2.None?)
  {
    var parsed := Parsed(raw, parse);
    if Nullish(parsed) then (500, None, None)
    else
      var u' := Updated(u, feeling, parsed, turnId);
      if Committed(u', MoodOf(parsed), save) then (200, Some(u'), Some(ReplyBody(parsed)))
      else (500, Some(u'), None)
  }

  /** `handleEnhancedChat` once the caller's user `u` (looked up by `id`)
      has been found and `prompt` built: completion, parse, store, reply. */
  function Converse(u: User, id: JsVal, feeling: JsVal, prompt: seq<Line>,
                    complete: seq<Line> -> Option<string>,
                    parse: string -> Option<JsVal>, turnId: Id, save: User -> bool): (r: Outcome<ReplyJson>)
    ensures r.lookedUp == Some(id) && r.prompt == Some(prompt)
    ensures complete(prompt).None? ==> r.status == 500 && r.saved.None?
    ensures r.saved.Some? ==>
      var parsed := Parsed(complete(prompt).value, parse);
      && r.saved.value == Updated(u, feeling, parsed, turnId)
      && (r.body.Some? ==> r.body.value == ReplyBody(parsed))
    ensures r.status == 200 <==> r.saved.Some? && r.body.Some?
    ensures r.status == 200 ==> save(r.saved.value)
    ensures r.status in {200, 500}
  {
    match complete(prompt)
    case None => Outcome(500, Some(id), Some(prompt), None, None)
    case Some(raw) =>
      var (status, saved, body) := AfterCompletion(u, feeling, raw, parse, turnId, save);
      Outcome(status, Some(id), Some(prompt), saved, body)
  }

  /** `handleEnhancedChat`. `caller` is `req.user` as the token check left
      it; `findById`, `complete`, `parse` and `save` are the store, the
      completion service, `JSON.parse` and the store's save. */
  function Handle(caller: JsVal, feeling: JsVal, findById: JsVal -> Fetch<User>,
                  complete: seq<Line> -> Option<string>, parse: string -> Option<JsVal>,
                  turnId: Id, save: User -> bool): (r: Outcome<ReplyJson>)
    ensures Nullish(caller) ==> r == Outcome(500, None, None, None, None)
    ensures !Nullish(caller) && !Truthy(feeling) ==> r == Outcome(400, None, None, None, None)
    ensures r.lookedUp.Some? <==> !Nullish(caller) && Truthy(feeling)
    ensures r.lookedUp.Some? ==> r.lookedUp.value == Get(caller, "id")
    ensures r.lookedUp.Some? && findById(r.lookedUp.value).NotFound? ==> r.status == 404
    ensures r.lookedUp.Some? && findById(r.lookedUp.value).Failed? ==> r.status == 500
    ensures r.prompt.Some? <==> r.lookedUp.Some? && findById(r.lookedUp.value).Found?
    ensures r.prompt.Some? ==> r.prompt.value == EnhancedPrompt(findById(r.lookedUp.value).doc, feeling)
    ensures r.saved.Some? ==> r.prompt.Some? && complete(r.prompt.value).Some?
    ensures r.saved.Some? ==>
      var parsed := Parsed(complete(r.prompt.value).value, parse);
      && r.saved.value == Updated(findById(r.lookedUp.value).doc, feeling, parsed, turnId)
      && (r.body.Some? ==> r.body.value == ReplyBody(parsed))
    ensures r.status == 200 <==> r.saved.Some? && r.body.Some?
    ensures r.status == 200 ==> save(r.saved.value)
    ensures r.status in {200, 400, 404, 500}
  {
    if Nullish(caller) then Outcome(500, None, None, None, None)
    else if !Truthy(feeling) then Outcome(400, None, None, None, None)
    else
      var id := Get(caller, "id");
      match findById(id)
      case Failed => Outcome(500, Some(id), None, None, None)
      case NotFound => Outcome(404, Some(id), None, None, None)
      case Found(u) => Converse(u, id, feeling, EnhancedPrompt(u, feeling), complete, parse, turnId, save)
  }

  /** The user a successful call started from. */
  function Before(r: Outcome<ReplyJson>, findById: JsVal -> Fetch<User>): User
    requires r.lookedUp.Some? && findById(r.lookedUp.value).Found?
  {
    findById(r.lookedUp.value).doc
  }

  /** A call that answers 200 stored exactly one new turn at the end of the
      history, holding the user's words and two suggestion arrays, and
      changed nothing but the history, the moods and the counter. */
  lemma AppendsOneTurn(caller: JsVal, feeling: JsVal, findById: JsVal -> Fetch<User>,
                       complete: seq<Line> -> Option<string>, parse: string -> Option<JsVal>,
                       turnId: Id, save: User -> bool)
    requires Handle(caller, feeling, findById, complete, parse, turnId, save).status == 200
    ensures var r := Handle(caller, feeling, findById, complete, parse, turnId, save);
      var (u, u') := (Before(r, findById), r.saved.value);
      && |u'.apiChatHistory| == |u.apiChatHistory| + 1
      && u'.apiChatHistory[..|u.apiChatHistory|] == u.apiChatHistory
      && u'.apiChatHistory[|u.apiChatHistory|].id == turnId
      && u'.apiChatHistory[|u.apiChatHistory|].doc.userMessage == feeling
      && u'.apiChatHistory[|u.apiChatHistory|].doc.suggestedExercise.Arr?
      && u'.apiChatHistory[|u.apiChatHistory|].doc.suggestedActivity.Arr?
      && (|u'.moods| == |u.moods| || |u'.moods| == |u.moods| + 1)
      && u'.moods[..|u.moods|] == u.moods
      && u' == u.(apiChatHistory := u'.apiChatHistory, moods := u'.moods,
                  seriousAlertCount := u'.seriousAlertCount)
  {
  }

  /** The counter of the stored user went up by exactly one (from 0 when
      unset) iff the reply carries the crisis alert; otherwise the counter
      is unchanged and the alert is `null`. */
  lemma CountsSeriousOnce(u: User, feeling: JsVal, parsed: JsVal, turnId: Id)
    ensures var (before, after) := (u.seriousAlertCount, Updated(u, feeling, parsed, turnId).seriousAlertCount);
      && (ReplyBody(parsed).alert == Str(CrisisAlert) <==> after == Some(before.GetOr(0.0) + 1.0))
      && (ReplyBody(parsed).alert != Str(CrisisAlert) ==> ReplyBody(parsed).alert == Null && after == before)
  {
    if !Serious(parsed) {
      assert u.seriousAlertCount != Some(u.seriousAlertCount.GetOr(0.0) + 1.0);
    }
  }

  /** When the cleaned completion is not JSON, the exchange is stored and
      answered with the fixed reply: the raw text as the response, the
      fallback mood, no music title, nothing serious. */
  lemma UnparsableReply(caller: JsVal, feeling: JsVal, findById: JsVal -> Fetch<User>,
                        complete: seq<Line> -> Option<string>, parse: string -> Option<JsVal>,
                        turnId: Id, save: User -> bool)
    requires !Nullish(caller) && Truthy(feeling)
    requires findById(Get(caller, "id")).Found?
    requires complete(EnhancedPrompt(findById(Get(caller, "id")).doc, feeling)).Some?
    requires parse(Clean(complete(EnhancedPrompt(findById(Get(caller, "id")).doc, feeling)).value)).None?
    ensures var r := Handle(caller, feeling, findById, complete, parse, turnId, save);
      var u := findById(Get(caller, "id")).doc;
      var raw := complete(EnhancedPrompt(u, feeling)).value;
      && r.saved == Some(FallbackStored(u, feeling, raw, turnId))
      && (r.status == 200 <==> save(r.saved.value))
      && (r.status == 200 ==> r.body == Some(FallbackBody(raw)))
  {
    var u := findById(Get(caller, "id")).doc;
    UnparsableCompletion(u, feeling, complete(EnhancedPrompt(u, feeling)).value, parse, turnId, save);
  }

  /** After an unparsable completion `raw` the fallback reply is what gets
      stored, and sent when the store saves it. */
  lemma UnparsableCompletion(u: User, feeling: JsVal, raw: string, parse: string -> Option<JsVal>,
                             turnId: Id, save: User -> bool)
    requires parse(Clean(raw)).None?
    ensures var r := AfterCompletion(u, feeling, raw, parse, turnId, save);
      && r.1 == Some(FallbackStored(u, feeling, raw, turnId))
      && (r.0 == 200 <==> save(FallbackStored(u, feeling, raw, turnId)))
      && (r.0 == 200 ==> r.2 == Some(FallbackBody(raw)))
  {
    assert Parsed(raw, parse) == Fallback(raw);
    FallbackSampleValid();
  }

  /** The user stored after an unparsable completion: the raw text as the
      reply of the new turn, empty suggestion lists, no music title, the
      fallback mood, the counter untouched. */
  function FallbackStored(u: User, feeling: JsVal, raw: string, turnId: Id): (u': User)
    ensures u'.apiChatHistory
            == u.apiChatHistory + [Entry(turnId, ChatTurn(feeling, Str(raw), Arr([]), Arr([]), Obj(map["title" := Null])))]
    ensures u'.moods == u.moods + [FallbackSample]
    ensures u' == u.(apiChatHistory := u'.apiChatHistory, moods := u'.moods)
  {
    Updated(u, feeling, Fallback(raw), turnId)
  }

  /** The reply after an unparsable completion. */
  function FallbackBody(raw: string): (b: ReplyJson)
    ensures b == ReplyJson(Str(raw), Arr([]), Arr([]), Obj(map["title" := Null]), MoodValue(FallbackSample),
                           Bool(false), Null)
  {
    ReplyBody(Fallback(raw))
  }

  /** A stored exchange keeps every mood sample of the user within the mood
      schema. */
  lemma KeepsMoodsValid(caller: JsVal, feeling: JsVal, findById: JsVal -> Fetch<User>,
                        complete: seq<Line> -> Option<string>, parse: string -> Option<JsVal>,
                        turnId: Id, save: User -> bool)
    requires Handle(caller, feeling, findById, complete, parse, turnId, save).status == 200
    requires MoodsValid(Before(Handle(caller, feeling, findById, complete, parse, turnId, save), findById))
    ensures MoodsValid(Handle(caller, feeling, findById, complete, parse, turnId, save).saved.value)
  {
    var r := Handle(caller, feeling, findById, complete, parse, turnId, save);
    var u := Before(r, findById);
    var raw := complete(EnhancedPrompt(u, feeling)).value;
    var parsed := Parsed(raw, parse);
    var counted := u.(seriousAlertCount := CountAfter(u.seriousAlertCount, parsed));
    CommittedKeepsMoodsValid(counted, turnId, TurnOf(feeling, parsed, MusicOf(parsed)), MoodOf(parsed), save);
  }

  /** The next enhanced prompt for the stored user ends its conversation
      block with this exchange: the user's words and the reply text. */
  lemma NextPromptRecallsExchange(u: User, feeling: JsVal, parsed: JsVal, turnId: Id, next: JsVal)
    ensures var said := Select(EnhancedPrompt(Updated(u, feeling, parsed, turnId), next), Conversation);
      && 1 <= |said| <= RecentLimit
      && said[|said| - 1] == ConversationLine(|said|, feeling, Get(parsed, "response"))
  {
    PromptRecallsLastTurn(Updated(u, feeling, parsed, turnId), next);
  }

  /** The enhanced prompt's conversation lines end with the user's last
      turn, numbered by how many turns are shown. */
  lemma PromptRecallsLastTurn(u: User, next: JsVal)
    requires |u.apiChatHistory| > 0
    ensures var said := Select(EnhancedPrompt(u, next), Conversation);
      var turn := u.apiChatHistory[|u.apiChatHistory| - 1];
      && 1 <= |said| <= RecentLimit
      && said[|said| - 1] == ConversationLine(|said|, turn.doc.userMessage, turn.doc.systemMessage)
  {
    var h := u.apiChatHistory;
    var recent := LastN(h, RecentLimit);
    var lines := ConversationLines(recent, 1);
    assert recent[|recent| - 1] == h[|h| - 1];
    assert lines[|lines| - 1] == ConversationLineOf(|recent|, recent[|recent| - 1]);
  }
}
