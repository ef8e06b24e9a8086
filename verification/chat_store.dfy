/** What the two chat handlers share: how a completion becomes a stored
    chat turn and mood, and what a handler reports back. */
module ChatStore {

  import opened Wrappers
  import opened JsValues
  import opened Moods
  import opened Records
  import opened Prompts

  /** What a chat handler did. `lookedUp`: the id it passed to `findById`
      (`None`: no lookup). `prompt`: what it sent to the completion (`None`:
      no completion call). `saved`: the user it handed to `save` (`None`:
      `save` was never called). `body`: the JSON object of a 200 reply. */
  datatype Outcome<B> = Outcome(
    status: nat,
    lookedUp: Option<JsVal>,
    prompt: Option<seq<Line>>,
    saved: Option<User>,
    body: Option<B>)

  /** The mood of a parsed reply, pushed only when `parsed.mood` is truthy,
      its two fields copied without conversion. */
  function MoodOf(parsed: JsVal): (r: Option<MoodSample>)
    ensures r.Some? <==> Truthy(Get(parsed, "mood"))
    ensures r.Some? ==> r.value == MoodSample(Get(Get(parsed, "mood"), "mood"), Get(Get(parsed, "mood"), "moodRating"))
  {
    var m := Get(parsed, "mood");
    if Truthy(m) then Some(MoodSample(Get(m, "mood"), Get(m, "moodRating"))) else None
  }

  /** The chat turn pushed for a parsed reply: the user's words, the reply
      text, the two suggestion lists (anything but an array stored as
      `[]`) and the music link the handler chose. */
  function TurnOf(feeling: JsVal, parsed: JsVal, music: JsVal): (t: ChatTurn)
    ensures t.userMessage == feeling && t.systemMessage == Get(parsed, "response")
    ensures t.suggestedExercise.Arr? && t.suggestedActivity.Arr?
    ensures Get(parsed, "suggestedExercise").Arr? ==> t.suggestedExercise == Get(parsed, "suggestedExercise")
    ensures Get(parsed, "suggestedActivity").Arr? ==> t.suggestedActivity == Get(parsed, "suggestedActivity")
    ensures t.suggestedMusicLink == music
  {
    ChatTurn(feeling, Get(parsed, "response"),
             ArrayOrEmpty(Get(parsed, "suggestedExercise")),
             ArrayOrEmpty(Get(parsed, "suggestedActivity")),
             music)
  }

  /** The user after one exchange: exactly one turn appended to the chat
      history and at most one sample appended to the moods. */
  function Record(u: User, turnId: Id, turn: ChatTurn, mood: Option<MoodSample>): (u': User)
    ensures u'.apiChatHistory == u.apiChatHistory + [Entry(turnId, turn)]
    ensures mood.None? ==> u'.moods == u.moods
    ensures mood.Some? ==> u'.moods == u.moods + [mood.value]
    ensures u' == u.(apiChatHistory := u'.apiChatHistory, moods := u'.moods)
  {
    u.(apiChatHistory := u.apiChatHistory + [Entry(turnId, turn)],
       moods := if mood.Some? then u.moods + [mood.value] else u.moods)
  }

  /** `await user.save()`: the mood schema's validators reject a pushed
      sample outside the schema, which throws; otherwise the store decides. */
  function Committed(u': User, mood: Option<MoodSample>, save: User -> bool): (ok: bool)
    ensures ok ==> mood.None? || ValidSample(mood.value)
    ensures ok ==> save(u')
    ensures (mood.None? || ValidSample(mood.value)) && save(u') ==> ok
  {
    (mood.None? || ValidSample(mood.value)) && save(u')
  }

  /** Every stored mood sample satisfies the mood schema. */
  predicate MoodsValid(u: User) {
    forall i :: 0 <= i < |u.moods| ==> ValidSample(u.moods[i])
  }

  /** A committed exchange keeps every stored mood within the schema. */
  lemma CommittedKeepsMoodsValid(u: User, turnId: Id, turn: ChatTurn, mood: Option<MoodSample>, save: User -> bool)
    requires MoodsValid(u)
    requires Committed(Record(u, turnId, turn, mood), mood, save)
    ensures MoodsValid(Record(u, turnId, turn, mood))
  {
    var u' := Record(u, turnId, turn, mood);
    forall i | 0 <= i < |u'.moods| ensures ValidSample(u'.moods[i]) {
      if i < |u.moods| {
        assert u'.moods[i] == u.moods[i];
      }
    }
  }
}
