/** The stored user aggregate and its subdocuments, as the user schema
    lays them out. */
module Records {

  import opened Wrappers
  import opened JsValues
  import opened Moods

  /** A document id, in the string form route parameters and token
      payloads carry. */
  type Id = string

  /** A subdocument of one of the user's arrays, with its `_id`. */
  datatype Entry<T> = Entry(id: Id, doc: T)

  /** An exercise subdocument (`name`, `durationInDays`, `streak`,
      `lastUpdated`), kept as a property map because the update route
      merges arbitrary body keys into it. */
  type ExerciseDoc = map<string, JsVal>

  /** One stored exchange of the chat history, each field as the
      controller that pushed it supplied it. */
  datatype ChatTurn = ChatTurn(
    userMessage: JsVal,
    systemMessage: JsVal,
    suggestedExercise: JsVal,
    suggestedActivity: JsVal,
    suggestedMusicLink: JsVal)

  /** The user document. Optional scalar fields are `None` when unset or
      null; the three arrays keep insertion order. */
  datatype User = User(
    id: Id,
    name: string,
    email: Option<string>,
    phoneNumber: Option<string>,
    password: string,
    profileImage: Option<string>,
    age: Option<real>,
    gender: Option<string>,
    isPhysicalHelpBefore: Option<bool>,
    isPhysicalDistress: Option<bool>,
    medicines: seq<string>,
    seriousAlertCount: Option<real>,
    exercises: seq<Entry<ExerciseDoc>>,
    apiChatHistory: seq<Entry<ChatTurn>>,
    moods: seq<MoodSample>,
    isAdmin: bool,
    isPremium: bool)

  function OptStr(key: string, v: Option<string>): map<string, JsVal> {
    if v.Some? then map[key := Str(v.value)] else map[]
  }

  function OptNum(key: string, v: Option<real>): map<string, JsVal> {
    if v.Some? then map[key := Num(v.value)] else map[]
  }

  function OptBool(key: string, v: Option<bool>): map<string, JsVal> {
    if v.Some? then map[key := Bool(v.value)] else map[]
  }

  function ExerciseValue(e: Entry<ExerciseDoc>): JsVal {
    Obj(e.doc["_id" := Str(e.id)])
  }

  function ChatValue(e: Entry<ChatTurn>): JsVal {
    Obj(map[
      "_id" := Str(e.id),
      "userMessage" := e.doc.userMessage,
      "systemMessage" := e.doc.systemMessage,
      "suggestedExercise" := e.doc.suggestedExercise,
      "suggestedActivity" := e.doc.suggestedActivity,
      "suggestedMusicLink" := e.doc.suggestedMusicLink])
  }

  function MoodValue(m: MoodSample): JsVal {
    Obj(map["mood" := m.mood, "moodRating" := m.moodRating])
  }

  /** `user._doc`: the raw stored document, unset optional fields absent. */
  function ToDoc(u: User): (d: map<string, JsVal>)
    ensures "password" in d && d["password"] == Str(u.password)
    ensures "_id" in d && d["_id"] == Str(u.id)
    ensures "isAdmin" in d && d["isAdmin"] == Bool(u.isAdmin)
    ensures "isPremium" in d && d["isPremium"] == Bool(u.isPremium)
  {
    var required := map[
      "_id" := Str(u.id),
      "name" := Str(u.name),
      "password" := Str(u.password),
      "medicines" := Arr(seq(|u.medicines|, i requires 0 <= i < |u.medicines| => Str(u.medicines[i]))),
      "exercises" := Arr(seq(|u.exercises|, i requires 0 <= i < |u.exercises| => ExerciseValue(u.exercises[i]))),
      "apiChatHistory" := Arr(seq(|u.apiChatHistory|, i requires 0 <= i < |u.apiChatHistory| => ChatValue(u.apiChatHistory[i]))),
      "moods" := Arr(seq(|u.moods|, i requires 0 <= i < |u.moods| => MoodValue(u.moods[i]))),
      "isAdmin" := Bool(u.isAdmin),
      "isPremium" := Bool(u.isPremium)];
    var optional :=
      OptStr("email", u.email) + OptStr("phoneNumber", u.phoneNumber)
      + OptStr("profileImage", u.profileImage) + OptNum("age", u.age)
      + OptStr("gender", u.gender)
      + OptBool("isPhysicalHelpBefore", u.isPhysicalHelpBefore)
      + OptBool("isPhysicalDistress", u.isPhysicalDistress)
      + OptNum("seriousAlertCount", u.seriousAlertCount);
    optional + required
  }
}
