/** The profile and subdocument handlers of the user controller. Each
    handler receives the store lookup it would make (`Fetch<User>`) and the
    store's `save`, and reports the status it answers with and the user it
    handed to `save`, if any. */
module UserOps {

  import opened Wrappers
  import opened JsValues
  import opened Records
  import opened Subdocs

  /** The status a handler answers with and the document it asked the
      store to save (`None`: `save` was never called). */
  datatype Reply = Reply(status: nat, saved: Option<User>)

  /** The only body keys a profile update may write. */
  const UpdatableFields: seq<string> :=
    ["name", "email", "age", "gender",
     "isPhysicalHelpBefore", "isPhysicalDistress",
     "medicines", "seriousAlertCount"]

  /** The `$set` document of a profile update: every whitelisted key whose
      body value is not `undefined` (so `null` is still written), with the
      body's value. */
  method UpdateData(body: map<string, JsVal>) returns (update: map<string, JsVal>)
    ensures forall k :: k in update <==> k in UpdatableFields && k in body && body[k] != Undefined
    ensures forall k :: k in update ==> update[k] == body[k]
    ensures "password" !in update && "isAdmin" !in update && "isPremium" !in update
  {
    update := map[];
    var i := 0;
    while i < |UpdatableFields|
      invariant 0 <= i <= |UpdatableFields|
      invariant forall k :: k in update <==> k in UpdatableFields[..i] && k in body && body[k] != Undefined
      invariant forall k :: k in update ==> update[k] == body[k]
    {
      var field := UpdatableFields[i];
      if Get(Obj(body), field) != Undefined {
        update := update[field := body[field]];
      }
      i := i + 1;
    }
  }

  /** `updateUser`. A request carrying a file reaches a reference to an
      upload client the controller never imports, which throws: 500 before
      the store is touched. Otherwise the filtered `$set` goes to
      `findByIdAndUpdate`, whose answer (possibly `null`) is sent with 200. */
  method UpdateUser(body: map<string, JsVal>, hasFile: bool,
                    findByIdAndUpdate: map<string, JsVal> -> Fetch<User>)
    returns (status: nat, sent: Option<map<string, JsVal>>, updated: Option<User>)
    ensures hasFile ==> status == 500 && sent.None? && updated.None?
    ensures !hasFile ==> sent.Some?
    ensures sent.Some? ==> forall k :: k in sent.value ==> k in UpdatableFields && k in body && sent.value[k] == body[k]
    ensures sent.Some? ==> forall k :: k in UpdatableFields && k in body && body[k] != Undefined ==> k in sent.value
    ensures sent.Some? ==> forall k :: k in sent.value ==> sent.value[k] != Undefined
    ensures !hasFile ==> (status == 200 <==> !findByIdAndUpdate(sent.value).Failed?)
    ensures updated.Some? <==> !hasFile && findByIdAndUpdate(sent.value).Found?
    ensures status in {200, 500}
  {
    if hasFile {
      return 500, None, None;
    }
    var update := UpdateData(body);
    sent := Some(update);
    match findByIdAndUpdate(update)
    case Found(u) => status, updated := 200, Some(u);
    case NotFound => status, updated := 200, None;
    case Failed => status, updated := 500, None;
  }

  /** Hands `u` to the store: 200 if it saves, 500 if it throws. */
  function Persist(u: User, save: User -> bool): (r: Reply)
    ensures r.saved == Some(u)
    ensures r.status == (if save(u) then 200 else 500)
  {
    Reply(if save(u) then 200 else 500, Some(u))
  }

  /** `addExercise`: appends one exercise with the three body values. A
      missing user makes the handler throw (500) before any save. */
  function AddExercise(lookup: Fetch<User>, name: JsVal, durationInDays: JsVal, streak: JsVal,
                       newId: Id, save: User -> bool): (r: Reply)
    ensures !lookup.Found? ==> r == Reply(500, None)
    ensures lookup.Found? ==> r.saved.Some?
    ensures r.saved.Some? ==>
      var (u, u') := (lookup.doc, r.saved.value);
      && |u'.exercises| == |u.exercises| + 1
      && u'.exercises[..|u.exercises|] == u.exercises
      && u'.exercises[|u.exercises|].id == newId
      && Get(Obj(u'.exercises[|u.exercises|].doc), "name") == name
      && Get(Obj(u'.exercises[|u.exercises|].doc), "durationInDays") == durationInDays
      && Get(Obj(u'.exercises[|u.exercises|].doc), "streak") == streak
      && u'.exercises[|u.exercises|].doc.Keys == {"name", "durationInDays", "streak"}
      && u' == u.(exercises := u'.exercises)
    ensures r.status == 200 <==> r.saved.Some? && save(r.saved.value)
  {
    match lookup
    case Found(u) =>
      var fields := map["name" := name, "durationInDays" := durationInDays, "streak" := streak];
      Persist(u.(exercises := u.exercises + [Entry(newId, fields)]), save)
    case _ => Reply(500, None)
  }

  /** `updateExercise`: `Object.assign` of the body onto the first exercise
      with the given id; 404 without a save when there is none. */
  function UpdateExercise(lookup: Fetch<User>, exerciseId: Id, body: map<string, JsVal>,
                          save: User -> bool): (r: Reply)
    ensures !lookup.Found? ==> r == Reply(500, None)
    ensures lookup.Found? && !HasId(lookup.doc.exercises, exerciseId) ==> r == Reply(404, None)
    ensures lookup.Found? && HasId(lookup.doc.exercises, exerciseId) ==> r.saved.Some?
    ensures r.saved.Some? ==>
      var (u, u') := (lookup.doc, r.saved.value);
      var i := FindIndex(u.exercises, exerciseId).value;
      && |u'.exercises| == |u.exercises|
      && (forall j :: 0 <= j < |u.exercises| && j != i ==> u'.exercises[j] == u.exercises[j])
      && u'.exercises[i].id == exerciseId
      && u'.exercises[i].doc.Keys == u.exercises[i].doc.Keys + body.Keys
      && (forall k :: k in body ==> u'.exercises[i].doc[k] == body[k])
      && (forall k :: k in u.exercises[i].doc && k !in body ==> u'.exercises[i].doc[k] == u.exercises[i].doc[k])
      && u' == u.(exercises := u'.exercises)
    ensures r.status == 200 <==> r.saved.Some? && save(r.saved.value)
  {
    match lookup
    case Found(u) =>
      (match FindIndex(u.exercises, exerciseId)
      case None => Reply(404, None)
      case Some(i) =>
        var e := u.exercises[i];
        Persist(u.(exercises := u.exercises[i := Entry(e.id, e.doc + body)]), save))
    case _ => Reply(500, None)
  }

  /** `deleteExercise`: pulls the exercise with the given id. An unknown id
      makes `.remove()` run on `null`, which throws: 500, no save. */
  function DeleteExercise(lookup: Fetch<User>, exerciseId: Id, save: User -> bool): (r: Reply)
    ensures !lookup.Found? || !HasId(lookup.doc.exercises, exerciseId) ==> r == Reply(500, None)
    ensures lookup.Found? && HasId(lookup.doc.exercises, exerciseId) ==> r.saved.Some?
    ensures r.saved.Some? ==>
      var (u, u') := (lookup.doc, r.saved.value);
      && (forall e :: e in u'.exercises <==> e in u.exercises && e.id != exerciseId)
      && |u'.exercises| < |u.exercises|
      && (UniqueIds(u.exercises) ==>
            var i := FindIndex(u.exercises, exerciseId).value;
            u'.exercises == u.exercises[..i] + u.exercises[i + 1..])
      && u' == u.(exercises := u'.exercises)
    ensures r.status == 200 <==> r.saved.Some? && save(r.saved.value)
  {
    match lookup
    case Found(u) =>
      (match FindIndex(u.exercises, exerciseId)
      case None => Reply(500, None)
      case Some(i) =>
        PullContents(u.exercises, exerciseId);
        PullIfUnique(u.exercises, i);
        Persist(u.(exercises := Pull(u.exercises, exerciseId)), save))
    case _ => Reply(500, None)
  }

  /** `addChat`: appends one chat turn holding the four body values (no
      music suggestion). */
  function AddChat(lookup: Fetch<User>, userMessage: JsVal, systemMessage: JsVal,
                   suggestedExercise: JsVal, suggestedActivity: JsVal,
                   newId: Id, save: User -> bool): (r: Reply)
    ensures !lookup.Found? ==> r == Reply(500, None)
    ensures lookup.Found? ==> r.saved.Some?
    ensures r.saved.Some? ==>
      var (u, u') := (lookup.doc, r.saved.value);
      && |u'.apiChatHistory| == |u.apiChatHistory| + 1
      && u'.apiChatHistory[..|u.apiChatHistory|] == u.apiChatHistory
      && u'.apiChatHistory[|u.apiChatHistory|]
         == Entry(newId, ChatTurn(userMessage, systemMessage, suggestedExercise, suggestedActivity, Undefined))
      && u' == u.(apiChatHistory := u'.apiChatHistory)
    ensures r.status == 200 <==> r.saved.Some? && save(r.saved.value)
  {
    match lookup
    case Found(u) =>
      var turn := ChatTurn(userMessage, systemMessage, suggestedExercise, suggestedActivity, Undefined);
      Persist(u.(apiChatHistory := u.apiChatHistory + [Entry(newId, turn)]), save)
    case _ => Reply(500, None)
  }

  /** `deleteChat`: pulls the chat turn with the given id; an unknown id
      throws (500, no save). */
  function DeleteChat(lookup: Fetch<User>, chatId: Id, save: User -> bool): (r: Reply)
    ensures !lookup.Found? || !HasId(lookup.doc.apiChatHistory, chatId) ==> r == Reply(500, None)
    ensures lookup.Found? && HasId(lookup.doc.apiChatHistory, chatId) ==> r.saved.Some?
    ensures r.saved.Some? ==>
      var (u, u') := (lookup.doc, r.saved.value);
      && (forall e :: e in u'.apiChatHistory <==> e in u.apiChatHistory && e.id != chatId)
      && |u'.apiChatHistory| < |u.apiChatHistory|
      && (UniqueIds(u.apiChatHistory) ==>
            var i := FindIndex(u.apiChatHistory, chatId).value;
            u'.apiChatHistory == u.apiChatHistory[..i] + u.apiChatHistory[i + 1..])
      && u' == u.(apiChatHistory := u'.apiChatHistory)
    ensures r.status == 200 <==> r.saved.Some? && save(r.saved.value)
  {
    match lookup
    case Found(u) =>
      (match FindIndex(u.apiChatHistory, chatId)
      case None => Reply(500, None)
      case Some(i) =>
        PullContents(u.apiChatHistory, chatId);
        PullIfUnique(u.apiChatHistory, i);
        Persist(u.(apiChatHistory := Pull(u.apiChatHistory, chatId)), save))
    case _ => Reply(500, None)
  }
}
