# cheerpup-backend core, modelled in Dafny

This project models the deterministic core of the CheerPup backend. That
backend is an Express/Mongoose service where users talk to a supportive
chat assistant. Every collaborator the handlers call becomes a function
parameter (an oracle):

- the user store (`findById`, `findOne`, `findByIdAndUpdate`, `save`);
- the completion service;
- `JSON.parse`;
- bcrypt (`hash`, `compare`);
- JWT (`sign`, `verify`).

What remains is modelled as pure functions over immutable records:

- **The two chat handlers.**
  - `handleEnhancedChat` is module `EnhancedChat`: request checks, fence
    stripping, parse-or-fallback, the serious-message counter and alert,
    the stored turn and mood, and the reply.
  - `handleUserEmotion` is module `EmotionChat`: the same steps, plus the
    YouTube-link filter.
  - The shared storage step is in `ChatStore`.
  - Each handler returns an `Outcome`: status, the id it looked up, the
    prompt it sent, the user it tried to save, and the body it sent.
    Contracts can therefore say that no lookup, completion or save
    happened.
- **The prompt builders** (`Prompts`). `buildEnhancedPrompt` and
  `buildPrompt` are modelled as sequences of structured `Line`s, not
  rendered text. The profile lines, the last mood, the last music title,
  the ten most recent exercises and conversations, and the user's words
  are each a kind of line. `Select` projects a prompt onto one kind.
- **The completion cleaner** (`Normalizer`): the three `replace` calls
  and `trim`, over `Text`'s JavaScript whitespace.
- **Profile and sub-document operations** (`UserOps`, `Subdocs`):
  - the whitelist in `updateUser`;
  - `addExercise`, `updateExercise` and `deleteExercise`;
  - `addChat` and `deleteChat`.

  Sub-documents are `Entry(id, doc)` sequences. `.remove()` pulls by id.
- **Registration and login** (`Auth`) and **the request gates**
  (`Access`): `verifyToken`, `verifyTokenandAuthorization` and
  `checkPremium`.
- **Record rules and format checks.**
  - `Moods` holds the Mood schema: a required rating in 1..5 and an
    optional label from a five-value enum.
  - `Patterns` holds the email and phone regular expressions. Each is
    written twice, as the language the expression denotes and as a
    recogniser, and the two are proved equal.
  - `Records` holds the user document (`src/models/UserModel.js`).

JavaScript values are `JsValues.JsVal`. Truthiness, `?.`, `||` and
`Array.isArray` are written out explicitly. Numbers are `real`.

The completion cleaner removes the closing fence only when it is
literally the last three characters of the completion. Trimming happens
after that, so a completion ending in a fence plus a newline keeps its
fence.

## Model

| member | source | states |
|---|---|---|
| JsValues.Or | src/controllers/enhancedChatController.js:147 | `a \|\| b` is `a` when `a` is truthy and `b` otherwise |
| JsValues.ArrayOrEmpty | src/controllers/enhancedChatController.js:121-122 | the stored suggestion list is always an array: the value itself when it is one, `[]` otherwise |
| Text.Trim | src/controllers/enhancedChatController.js:95 | the result is a contiguous piece of the input, everything cut off before and after it is JavaScript whitespace, and the result has no whitespace at either end; text without such whitespace is returned unchanged |
| Text.TrimStart | src/controllers/enhancedChatController.js:92 | the result is a suffix of the input; exactly the leading whitespace run is dropped |
| Text.Includes | src/controllers/openAiController.js:8-9 | `includes` succeeds only when the pattern fits in the string, and a pattern as long as the string is included only in itself |
| Text.IncludesIffOccurs | src/controllers/openAiController.js:8-9 | `includes` holds iff the pattern occurs at some position of the string |
| Text.SplitSpace | src/middlewares/verifyToken.js:8 | `split(" ")` yields at least one piece, and no piece contains a space |
| Text.JoinSplitSpace | src/middlewares/verifyToken.js:8 | joining the pieces of `split(" ")` with spaces gives back the header exactly |
| Moods.ParseLabel | src/models/Mood.js:7-10 | a string is recognised iff it is the name of one of the five labels Rough, Low, Okay, Good, Great |
| Moods.Decode | src/models/Mood.js:5-11 | a sample is accepted iff its rating is a number in 1..5 and its mood is absent or one of the five labels; an accepted sample with a mood re-encodes to itself |
| Moods.DecodeEncode | src/models/Mood.js:5-11 | every mood with a rating in 1..5 survives encoding and decoding unchanged |
| Moods.FallbackSampleValid | src/controllers/enhancedChatController.js:105 | the fallback mood {Okay, 3} passes the Mood schema and decodes to label Okay, rating 3 |
| Moods.RatingRequired | src/models/Mood.js:6 | a sample whose rating is missing or null is invalid, whatever its label |
| Patterns.MatchEmail | src/utils/regex.js:3 | the scanner accepts exactly the strings the email expression matches |
| Patterns.EmailRegexIffShape | src/constants/regex.js:1 | the email expression matches iff the string has no whitespace, exactly one '@', a non-empty part before it, and a '.' after it that is neither the first nor the last character of the domain |
| Patterns.RegexHasShape | src/utils/regex.js:3 | a matched email has no whitespace, one '@' with something before it, and an inner dot in the domain |
| Patterns.ShapeMatchesRegex | src/utils/regex.js:3 | any string with that shape is matched |
| Patterns.SingleLabelDomainRejected | src/constants/regex.js:1 | an address whose domain has no '.' is rejected |
| Patterns.MatchPhone | src/utils/regex.js:4 | accepts iff the expression matches, that is iff every character is an ASCII digit except an optional '+' at position 0, and there are 10 to 15 digits |
| Patterns.PhoneRejectsPunctuation | src/constants/regex.js:2 | a space, dash or parenthesis anywhere, or a '+' past position 0, makes the phone number invalid |
| Records.ToDoc | src/models/UserModel.js:6-23 | the stored document carries `_id`, the password hash, and the admin and premium flags, with the user's values |
| Subdocs.FindIndex | src/controllers/userController.js:88 | `.id(x)` finds the first entry with id `x`, and finds none iff no entry has that id |
| Subdocs.Pull | src/controllers/userController.js:103 | `.remove()` on the sub-document with that id never lengthens the list; what it keeps is stated by Subdocs.PullContents |
| Subdocs.PullContents | src/controllers/userController.js:103 | after the pull, an entry remains iff it was there and has a different id; pulling an absent id changes nothing; pulling a present id shortens the list |
| Subdocs.PullMembers | src/controllers/userController.js:128 | membership after the pull is membership before it, minus the pulled id |
| Subdocs.PullSize | src/controllers/userController.js:128 | pulling an absent id is the identity; pulling a present one removes something |
| Subdocs.PullUnique | src/controllers/userController.js:103 | with unique ids, the pull removes exactly entry `i` and keeps the others in order |
| Subdocs.AppendFreshKeepsUnique | src/controllers/userController.js:76 | appending an entry with a fresh id keeps ids unique |
| UserOps.UpdateData | src/controllers/userController.js:8-21 | a key is in the update iff it is one of the eight whitelisted keys and its body value is not `undefined` (`null` is kept); values are copied; password, isAdmin and isPremium never appear |
| UserOps.UpdateUser | src/controllers/userController.js:6-49 | with an uploaded file the handler fails with 500 before updating; otherwise it sends exactly the filtered update, answers 200 unless the store fails, and returns the updated user when one was found |
| UserOps.AddExercise | src/controllers/userController.js:71-83 | a missing user gives 500 with no save; otherwise exactly one exercise with the given name, duration and streak is appended, and nothing else changes |
| UserOps.UpdateExercise | src/controllers/userController.js:85-98 | an unknown exercise id gives 404 with no save; otherwise the first matching exercise gets exactly the body's keys overwritten, and every other exercise, every other key and every other field is unchanged |
| UserOps.DeleteExercise | src/controllers/userController.js:100-109 | an unknown id gives 500 with no save; otherwise exactly the entries with that id are removed; with unique ids, the one entry goes and the rest keep their order |
| UserOps.AddChat | src/controllers/userController.js:112-123 | exactly one turn holding the four body values is appended, and nothing else changes |
| UserOps.DeleteChat | src/controllers/userController.js:125-134 | an unknown id gives 500 with no save; otherwise exactly that turn is removed, and with unique ids the rest keep their order |
| Normalizer.StripJsonOpener | src/controllers/enhancedChatController.js:92 | an opening "```json" in any letter case is removed together with the whitespace after it; other text is unchanged |
| Normalizer.StripOpener | src/controllers/enhancedChatController.js:93 | a leading fence is removed (fence plus result is the input); other text is unchanged |
| Normalizer.StripCloser | src/controllers/enhancedChatController.js:94 | a fence that is the very last three characters is removed; other text is unchanged |
| Normalizer.Clean | src/controllers/enhancedChatController.js:91-95 | text that neither starts nor ends with a fence is only trimmed |
| Normalizer.CleanFenced | src/controllers/enhancedChatController.js:91-95 | a JSON body starting with '{', wrapped as "```json" newline body newline "```" (any case of "json"), cleans to the trimmed body, the same as the body alone cleans to when it ends in no fence |
| Normalizer.ParseCompletion | src/controllers/enhancedChatController.js:89-108 | the parsed value is `JSON.parse` of the cleaned text when that succeeds, and the fallback otherwise |
| ChatStore.MoodOf | src/controllers/enhancedChatController.js:129-134 | a mood sample is pushed iff `parsed.mood` is truthy, and it copies that object's label and rating |
| ChatStore.TurnOf | src/controllers/openAiController.js:85-91 | the stored turn holds the user's words, the reply, both suggestion fields as arrays (the parsed arrays when they are arrays) and the given music link |
| ChatStore.Record | src/controllers/openAiController.js:85-99 | one turn is appended at the end, the mood sample is appended iff there is one, and every other field is unchanged |
| ChatStore.Committed | src/models/Mood.js:5-11 | the save succeeds iff the pushed mood, read as the value the reply gave (no number cast), passes the Mood schema and the store accepts the user |
| ChatStore.CommittedKeepsMoodsValid | src/controllers/enhancedChatController.js:129-136 | a committed save keeps every stored mood valid |
| Prompts.LastMusicTitle | src/controllers/openAiController.js:147-152 | a title is recalled iff there is a last chat turn and the title of its music link is truthy, and then it is that title |
| Prompts.Emit | src/controllers/openAiController.js:122-152 | a line is emitted iff its guard holds, and no more lines come out than were offered |
| Prompts.EmitRanked | src/controllers/enhancedChatController.js:164-177 | guarded pushes offered in rank order come out in rank order |
| Prompts.EnhancedPushesPresent | src/controllers/enhancedChatController.js:164-177 | each profile line is present when its guard holds, carrying the user's value |
| Prompts.EnhancedPushesAgree | src/controllers/enhancedChatController.js:164-177 | each emitted line agrees with the user and with its guard |
| Prompts.EnhancedProfile | src/controllers/enhancedChatController.js:164-177 | the profile has a line iff its guard holds: truthy age and gender, non-empty medicines, boolean flags, and at least one mood (taken from the last one); the lines come in source order |
| Prompts.BasicPushesPresent | src/controllers/openAiController.js:122-152 | each background line is present when its guard holds |
| Prompts.BasicPushesAgree | src/controllers/openAiController.js:122-152 | each background line agrees with the user, and a music line names the last turn's truthy title |
| Prompts.BasicBackground | src/controllers/openAiController.js:122-152 | the background facts appear in the order help flag, distress, medicines, age, gender, last mood, last music, and the background holds no other line; the music line appears iff the last turn's music title is truthy |
| Prompts.SelectMembers | src/controllers/enhancedChatController.js:197 | a line is in the projection onto a kind iff it is in the prompt and has that kind |
| Prompts.SelectAppend | src/controllers/enhancedChatController.js:197 | projecting a concatenated prompt onto one kind projects each part |
| Prompts.LastN | src/controllers/enhancedChatController.js:181 | `slice(-10)` keeps min(10, length) elements, and they are the final ones |
| Prompts.ExerciseSection | src/controllers/enhancedChatController.js:180-186 | with no exercises there is no section; otherwise a heading plus min(10, count) numbered lines |
| Prompts.ExerciseSectionShowsRecent | src/controllers/enhancedChatController.js:180-186 | line `i` of the section is the `i`-th of the ten most recent exercises, oldest first, numbered `i` |
| Prompts.ExerciseSectionKinds | src/controllers/enhancedChatController.js:180-186 | the section holds exactly the numbered recent exercises and no line of another kind |
| Prompts.ConversationSection | src/controllers/enhancedChatController.js:189-195 | with no history there is no section; otherwise a heading plus min(10, count) numbered turns |
| Prompts.ConversationSectionShowsRecent | src/controllers/enhancedChatController.js:189-195 | line `i` is the `i`-th of the ten most recent turns, oldest first, numbered `i` |
| Prompts.ConversationSectionKinds | src/controllers/enhancedChatController.js:189-195 | the section holds exactly the numbered recent turns |
| Prompts.EnhancedPrompt | src/controllers/enhancedChatController.js:160-203 | the prompt ends with the user's words and then the format reminder; its profile, exercise, conversation and speech lines are exactly the profile, the ten most recent exercises, the ten most recent turns and the user's words |
| Prompts.Combine | src/controllers/enhancedChatController.js:197-202 | the kinds of the concatenated prompt are the kinds of its parts, and the closing pair contributes only the user's words |
| Prompts.BasicPrompt | src/controllers/openAiController.js:154-183 | the prompt ends with the user's words and the JSON template; it opens with the no-background sentence iff there is no background, and otherwise with the heading followed by exactly the background lines |
| EnhancedChat.Fallback | src/controllers/enhancedChatController.js:98-107 | the fallback reply holds the raw text, empty lists, a null music title, mood {Okay, 3}, and serious false |
| EnhancedChat.MusicOf | src/controllers/enhancedChatController.js:123-125 | the music link is `{title}` when the parsed title is truthy, and `{title: null}` otherwise |
| EnhancedChat.CountAfter | src/controllers/enhancedChatController.js:111-115 | when `serious === true`, the counter becomes the old value plus 1 (a missing value counts as 0); otherwise it is unchanged |
| EnhancedChat.Parsed | src/controllers/enhancedChatController.js:89-108 | the parse of the cleaned completion, or the fallback reply when it does not parse |
| EnhancedChat.Updated | src/controllers/enhancedChatController.js:111-134 | one turn is appended, a mood is appended iff `parsed.mood` is truthy, and the counter is advanced; nothing else changes |
| EnhancedChat.ReplyBody | src/controllers/enhancedChatController.js:139-149 | the reply copies the response, lists and mood; it carries the title-only music link and `serious \|\| false`; the alert is the crisis text iff `serious === true`, and null otherwise |
| EnhancedChat.AfterCompletion | src/controllers/enhancedChatController.js:86-153 | a null parse gives 500 with no save; otherwise the updated user is saved, 200 iff the save succeeds, and the reply is sent only then |
| EnhancedChat.Converse | src/controllers/enhancedChatController.js:21-153 | no completion gives 500 with no save; a save stores the updated user and sends its reply; 200 iff saved and answered |
| EnhancedChat.Handle | src/controllers/enhancedChatController.js:8-155 | a missing caller gives 500 and an empty feeling gives 400, both with no lookup; a lookup happens iff both checks pass; an unknown user gives 404 and a store failure 500, both with no prompt; the prompt is built iff the user is found; the status is one of 200, 400, 404, 500 |
| EnhancedChat.AppendsOneTurn | src/controllers/enhancedChatController.js:118-136 | a 200 stored exactly one new turn at the end (earlier turns untouched, suggestion fields arrays), at most one new mood, and nothing else changed |
| EnhancedChat.CountsSeriousOnce | src/controllers/enhancedChatController.js:111-115 | the alert is the crisis text iff the counter went up by exactly one; otherwise the alert is null and the counter is unchanged |
| EnhancedChat.UnparsableReply | src/controllers/enhancedChatController.js:98-136 | an unparsable completion stores the fallback exchange and, when the save succeeds, sends exactly the fallback reply |
| EnhancedChat.UnparsableCompletion | src/controllers/enhancedChatController.js:98-136 | after an unparsable completion the stored user is the fallback one; 200 iff it saves, with the fallback body |
| EnhancedChat.FallbackStored | src/controllers/enhancedChatController.js:118-134 | the fallback appends the turn (raw text, empty lists, null title) and the mood {Okay, 3}, and leaves the counter alone |
| EnhancedChat.FallbackBody | src/controllers/enhancedChatController.js:139-149 | the fallback reply: raw text, empty lists, null title, mood {Okay, 3}, serious false, no alert |
| EnhancedChat.KeepsMoodsValid | src/controllers/enhancedChatController.js:129-136 | a successful call keeps every stored mood valid under the Mood schema |
| EnhancedChat.NextPromptRecallsExchange | src/controllers/enhancedChatController.js:118-126 | the next prompt built for the stored user lists this exchange as its last, highest-numbered conversation line, with at most ten in all |
| EnhancedChat.PromptRecallsLastTurn | src/controllers/enhancedChatController.js:189-195 | the last conversation line of a prompt shows the user's last turn |
| EmotionChat.IsLikelyValidYouTubeLink | src/controllers/openAiController.js:5-11 | only a non-empty string can pass |
| EmotionChat.YouTubeLinkIffOccurs | src/controllers/openAiController.js:5-11 | the check passes iff the value is a non-empty string in which "youtube.com/watch?v=" or "youtu.be/" occurs |
| EmotionChat.FinalMusicLink | src/controllers/openAiController.js:80-82 | the parsed link object is kept iff its link passes the check; otherwise it is `{title: null, link: null}`, so a title without a valid link is dropped |
| EmotionChat.Fallback | src/controllers/openAiController.js:68-77 | the fallback reply holds the raw text, empty lists, `{title: null, link: null}`, mood {Okay, 3}, and no serious key |
| EmotionChat.Parsed | src/controllers/openAiController.js:59-77 | the parse of the cleaned completion, or the fallback when it does not parse |
| EmotionChat.Updated | src/controllers/openAiController.js:85-99 | one turn carrying the final music link is appended, a mood is appended iff `parsed.mood` is truthy, and nothing else changes |
| EmotionChat.ReplyBody | src/controllers/openAiController.js:104-110 | the reply copies the response, lists and mood, and carries the final (checked) music link |
| EmotionChat.AfterCompletion | src/controllers/openAiController.js:57-115 | a null parse gives 500 with no save; otherwise the updated user is saved, 200 iff the save succeeds, and the reply is sent only then |
| EmotionChat.Converse | src/controllers/openAiController.js:26-115 | no completion gives 500 with no save; a save stores the updated user and sends its reply |
| EmotionChat.Handle | src/controllers/openAiController.js:14-116 | a missing userId or feeling gives 400 with no lookup; a lookup happens iff both are present; an unknown user gives 404 with no prompt or save; the prompt is built iff the user is found |
| EmotionChat.AppendsOneTurn | src/controllers/openAiController.js:85-101 | a 200 stored exactly one new turn at the end, holding the very music link the reply carries, plus at most one mood; nothing else changed |
| EmotionChat.UnparsableCompletion | src/controllers/openAiController.js:68-110 | after an unparsable completion the fallback exchange is stored; 200 iff it saves, with the fallback body |
| EmotionChat.FallbackStored | src/controllers/openAiController.js:85-99 | the fallback appends the turn (raw text, empty lists, no link) and the mood {Okay, 3} |
| EmotionChat.FallbackBody | src/controllers/openAiController.js:104-110 | the fallback reply: raw text, empty lists, no link, mood {Okay, 3} |
| EmotionChat.KeepsMoodsValid | src/controllers/openAiController.js:94-101 | a successful call keeps every stored mood valid |
| EmotionChat.NextPromptRecallsMusic | src/controllers/openAiController.js:147-152 | the next background mentions this exchange's music iff the final link's title is truthy, and a dropped link is never recalled |
| Auth.Register | src/controllers/authController.js:5-27 | with neither email nor phone: 400 before hashing or saving; otherwise the password is hashed, and the user with the hash is saved iff hashing succeeded; 201 iff the save succeeds |
| Auth.LoginPayload | src/controllers/authController.js:46-53 | the token claims are exactly `id` and `isAdmin`, with the user's values |
| Auth.UserData | src/controllers/authController.js:55 | the returned user data is the stored document minus exactly the `password` key |
| Auth.Login | src/controllers/authController.js:29-61 | with neither contact: 400 and no query; an unknown user or a wrong password gives 401 with no token; a token is signed iff the user is found and the password matches; 200 iff a token is issued, and then it carries the user data |
| Auth.LoginHidesPassword | src/controllers/authController.js:46-57 | a successful login sends every stored field except the password, and signs only `id` and `isAdmin` (no `isPremium`) |
| Access.TokenOf | src/middlewares/verifyToken.js:8 | the token is `undefined` iff the header has no space; otherwise it is the second space-separated piece |
| Access.BearerToken | src/middlewares/verifyToken.js:8 | a header of the form scheme, space, token yields exactly the token |
| Access.VerifyToken | src/middlewares/verifyToken.js:5-17 | a missing or empty header gives 401; a token that fails verification gives 403; `next` runs iff the header is present and verification succeeds, with `req.user` set to the payload |
| Access.SpacelessHeaderRefused | src/middlewares/verifyToken.js:8-11 | with a verifier that refuses a missing token, as jsonwebtoken does, a non-empty header without a space always gives 403 |
| Access.Allowed | src/middlewares/verifyToken.js:26 | an admin token always passes; on a route without the owner parameter, only an admin token or one with no `id` claim passes |
| Access.Authorize | src/middlewares/verifyToken.js:22-32 | the token failures pass through; after them, `next` runs iff the token's id equals `params.id` or the token is an admin's, and otherwise the result is 403 |
| Access.AuthorizeOwner | src/middlewares/verifyToken.js:22-32 | the same gate, comparing with the route's own owner parameter |
| Access.SignedLoginPayloadIssued | src/controllers/authController.js:46-53 | the claims login signs, with the issue and expiry times the signer adds, form a payload issued to that user |
| Access.OwnerDeniedOnUserIdRoutes | src/routes/userRoutes.js:23 | on the `:userId` exercise routes, as written, a non-admin owner holding any token issued to them at login is refused with 403 |
| Access.OwnerAllowedByOwnParam | src/middlewares/verifyToken.js:26 | comparing with the route's own owner parameter, a user holding any token issued to them at login passes iff they are the owner or an admin |
| Access.IdRoutesUnchanged | src/middlewares/verifyToken.js:26 | on `:id` routes the corrected gate decides exactly as the gate as written |
| Access.CheckPremium | src/middlewares/checkPremium.js:1-7 | `next` runs iff `req.user` is set and `isPremium` is truthy (a missing user is refused, not thrown on); otherwise 403 with the upgrade message; exactly one of the two happens |
| Access.PremiumRoute | src/middlewares/checkPremium.js:1-7 | token failures pass through; otherwise the premium gate decides on the token's payload |
| Access.LoginTokensNeverPremium | src/middlewares/checkPremium.js:2 | any token issued by login, whatever extra claims the signer adds, is refused by the premium gate, even for a premium user |

## Left out

- HTTP wiring (the `req`/`res` objects, routers, multer, index.js) and the response texts of the error branches: only statuses and bodies of successful replies are modelled.
- The completion service, `JSON.parse`, the user store, bcrypt and JWT: parameters of the model, uninterpreted. A parse that throws is `None`; the raw completion is assumed to be a string.
- The persona and instruction text of the system prompts, and the rendering of prompt lines into text: the prompt is a sequence of structured lines.
- Mongoose casting and strict-mode stripping, except the Mood validators, which decide whether a chat save succeeds. In particular `src/models/ApiChatHistory.js:10` declares `suggestedMusicLinks`, while both chat handlers write `suggestedMusicLink`; the model keeps the key as the handlers write it.
- EmotionChat.NextPromptRecallsMusic: stated over the turn as pushed. The schema's strict mode drops that key when the turn is pushed, so the program never produces a music line.
- Which schema `require('../models/User')` resolves to: the legacy `src/models/user.js` or `src/models/UserModel.js`. The model uses the fields of `UserModel.js` for every handler.
- Timestamps, `lastUpdated`, Mongoose-generated `_id`s (given as parameters `turnId` and `newId`), the value types inside exercise documents, and the 7-day token expiry.
- UserOps.DeleteExercise / UserOps.DeleteChat: the model gives `.remove()` on an array sub-document its Mongoose 6 meaning (pull the entry by `_id` from the parent array). The Mongoose version is not fixed by the program; from Mongoose 7 on, array sub-documents have `deleteOne()` and no `remove()`, so both handlers throw on every request and always answer 500.
- UserOps.UpdateExercise: a body carrying `_id` re-identifies the exercise in the program, because `Object.assign` sets that path too. The model keeps the entry's id and files `_id` among the document's keys; ObjectId casting is not modelled.
- `changePassword`: bcrypt plumbing around a lookup and a save, with no decision of its own.
- The profile image upload in `updateUser`: `cloudinary` is not imported there, so a request with a file fails with 500. That is modelled; the upload itself is not.
- `markExerciseAsDone`: imported by `src/routes/userRoutes.js:10` but neither defined nor exported by the controller (`src/controllers/userController.js:136-144`). So `router.put` at `src/routes/userRoutes.js:24-28` receives `undefined` as a handler, and Express throws when the route file is loaded (`index.js:10`). The server as written therefore does not start; every handler here is modelled as it behaves once the route table loads.
- The `$or` query semantics of `findOne` in `login`: an oracle over the two contacts.
- Concurrency between overlapping saves of one user.
- ChatStore.Committed: a rating the reply gives as a numeric string (`"4"`) or a boolean is refused here, so the model answers 500. The program saves it, because Mongoose casts a Number path to a number before the `min`/`max` checks of `src/models/Mood.js:6`, and then answers 200. Mongoose's number cast is not modelled.
- Normalizer.Clean: does not restate that the cleaned text has no surrounding whitespace; `Text.Trim` states it, and Clean ends with Trim.
- EmotionChat.IsLikelyValidYouTubeLink: its own contract states only that a passing value is a non-empty string. The full if-and-only-if is `EmotionChat.YouTubeLinkIffOccurs`.
- Numbers: `real`, with no floating-point rounding and no NaN.

## Findings

| source | as written | input that shows it | evidently intended | confidence | as-written member | corrected member |
|---|---|---|---|---|---|---|
| src/routes/userRoutes.js:23 | the update and delete exercise routes name their owner parameter `:userId`, while `verifyTokenandAuthorization` compares the token's id with `req.params.id` (src/middlewares/verifyToken.js:26), which is undefined on those routes | once the route table loads (see `markExerciseAsDone` under Left out), non-admin user `u1`, holding a login token, sends `PUT /exercise/u1/e1` for their own exercise: 403 "You're not allowed to do that" | compare with the route's own owner parameter, so the owner passes | high (not executed) | Access.OwnerDeniedOnUserIdRoutes (with Access.Authorize) | Access.OwnerAllowedByOwnParam (with Access.AuthorizeOwner) |
