/** The two prompt builders. A prompt is modelled as its sequence of lines,
    each line a structured value carrying exactly the data the source
    interpolates into it; the fixed persona and format texts are single
    opaque lines. Neither builder changes the user. */
module Prompts {

  import opened Wrappers
  import opened JsValues
  import opened Records
  import opened Moods

  datatype Line =
    | AgeLine(age: real)
    | GenderLine(gender: string)
    | MedicinesLine(names: seq<string>)
    | HelpBeforeLine(sought: bool)
    | DistressLine(inDistress: bool)
    | LastMoodLine(mood: JsVal, rating: JsVal)
    | LastMusicLine(title: JsVal)
    | ExercisesHeading
    | ExerciseLine(number: nat, name: JsVal, days: JsVal, streak: JsVal)
    | ConversationsHeading
    | ConversationLine(number: nat, said: JsVal, replied: JsVal)
    | BackgroundHeading
    | NoBackground
    | UserSaid(feeling: JsVal)
    | StrictFormatReminder
    | JsonTemplate

  /** `if (user.age)`: a set, non-zero age. */
  predicate AgeGiven(u: User) {
    u.age.Some? && u.age.value != 0.0
  }

  /** `if (user.gender)`: a set, non-empty gender. */
  predicate GenderGiven(u: User) {
    u.gender.Some? && u.gender.value != ""
  }

  /** The last stored mood sample, when there is one. */
  function LastMood(u: User): Option<MoodSample> {
    if |u.moods| > 0 then Some(u.moods[|u.moods| - 1]) else None
  }

  function LastMoodLineOf(m: MoodSample): Line {
    LastMoodLine(m.mood, m.moodRating)
  }

  /** The title of the music suggestion of the last chat turn, when the last
      turn has a truthy one. */
  function LastMusicTitle(u: User): (r: Option<JsVal>)
    ensures r.Some? <==> |u.apiChatHistory| > 0
                         && Truthy(Get(u.apiChatHistory[|u.apiChatHistory| - 1].doc.suggestedMusicLink, "title"))
    ensures r.Some? ==> r.value == Get(u.apiChatHistory[|u.apiChatHistory| - 1].doc.suggestedMusicLink, "title")
  {
    if |u.apiChatHistory| > 0 then
      var title := Get(u.apiChatHistory[|u.apiChatHistory| - 1].doc.suggestedMusicLink, "title");
      if Truthy(title) then Some(title) else None
    else None
  }

  /** One `if (guard) lines.push(line)` of a builder. */
  datatype Push = Push(guard: bool, line: Line)

  /** The lines a run of guarded pushes leaves, in push order. */
  function Emit(ps: seq<Push>): (r: seq<Line>)
    ensures |r| <= |ps|
    ensures forall x :: x in r <==> exists i :: 0 <= i < |ps| && ps[i].guard && ps[i].line == x
  {
    if |ps| == 0 then []
    else
      var rest := Emit(ps[1..]);
      assert forall i :: 1 <= i < |ps| ==> ps[i] == ps[1..][i - 1];
      assert forall i :: 0 <= i < |ps| - 1 ==> ps[1..][i] == ps[i + 1];
      (if ps[0].guard then [ps[0].line] else []) + rest
  }

  /** Every push whose guard holds leaves its line. */
  lemma EmitHasGuarded(ps: seq<Push>)
    ensures forall i :: 0 <= i < |ps| && ps[i].guard ==> ps[i].line in Emit(ps)
  {
  }

  /** Pushes listed in increasing rank leave ranked lines. */
  lemma {:induction false} EmitRanked(ps: seq<Push>, rank: Line -> nat)
    requires forall i, j :: 0 <= i < j < |ps| ==> rank(ps[i].line) < rank(ps[j].line)
    ensures Ranked(Emit(ps), rank)
  {
    if |ps| > 0 {
      var tail := ps[1..];
      assert forall i, j :: 0 <= i < j < |tail| ==> rank(tail[i].line) < rank(tail[j].line) by {
        forall i, j | 0 <= i < j < |tail| ensures rank(tail[i].line) < rank(tail[j].line) {
          assert tail[i] == ps[i + 1] && tail[j] == ps[j + 1];
        }
      }
      EmitRanked(tail, rank);
      if ps[0].guard {
        EmitAbove(ps, rank);
        ConsRanked(ps[0].line, Emit(tail), rank);
      }
    }
  }

  /** Every line left by the later pushes outranks the first push's line. */
  lemma EmitAbove(ps: seq<Push>, rank: Line -> nat)
    requires |ps| > 0
    requires forall i, j :: 0 <= i < j < |ps| ==> rank(ps[i].line) < rank(ps[j].line)
    ensures forall x :: x in Emit(ps[1..]) ==> rank(ps[0].line) < rank(x)
  {
    forall x | x in Emit(ps[1..]) ensures rank(ps[0].line) < rank(x) {
      var i :| 0 <= i < |ps[1..]| && ps[1..][i].guard && ps[1..][i].line == x;
      assert ps[1..][i] == ps[i + 1];
    }
  }

  /** A line below everything of a ranked sequence can go in front of it. */
  lemma ConsRanked(l: Line, rest: seq<Line>, rank: Line -> nat)
    requires Ranked(rest, rank)
    requires forall x :: x in rest ==> rank(l) < rank(x)
    ensures Ranked([l] + rest, rank)
  {
    var r := [l] + rest;
    forall i, j | 0 <= i < j < |r| ensures rank(r[i]) < rank(r[j]) {
      if i == 0 {
        assert r[j] == rest[j - 1];
        assert r[j] in rest;
      } else {
        assert r[i] == rest[i - 1] && r[j] == rest[j - 1];
      }
    }
  }

  /** The enhanced builder's fixed order of profile lines. */
  function EnhancedRank(l: Line): nat {
    match l
    case AgeLine(_) => 0
    case GenderLine(_) => 1
    case MedicinesLine(_) => 2
    case HelpBeforeLine(_) => 3
    case DistressLine(_) => 4
    case LastMoodLine(_, _) => 5
    case _ => 7
  }

  /** The basic builder's fixed order of background lines. */
  function BasicRank(l: Line): nat {
    match l
    case HelpBeforeLine(_) => 0
    case DistressLine(_) => 1
    case MedicinesLine(_) => 2
    case AgeLine(_) => 3
    case GenderLine(_) => 4
    case LastMoodLine(_, _) => 5
    case LastMusicLine(_) => 6
    case _ => 7
  }

  /** Lines in strictly increasing rank: a fixed order, each kind at most once. */
  predicate Ranked(ls: seq<Line>, rank: Line -> nat) {
    forall i, j :: 0 <= i < j < |ls| ==> rank(ls[i]) < rank(ls[j])
  }

  /** A profile line carries the user's value, and only appears when the
      source's guard for it holds. */
  predicate ProfileLineAgrees(u: User, l: Line) {
    && (l.AgeLine? ==> AgeGiven(u) && l == AgeLine(u.age.value))
    && (l.GenderLine? ==> GenderGiven(u) && l == GenderLine(u.gender.value))
    && (l.MedicinesLine? ==> |u.medicines| > 0 && l == MedicinesLine(u.medicines))
    && (l.HelpBeforeLine? ==> u.isPhysicalHelpBefore == Some(l.sought))
    && (l.DistressLine? ==> u.isPhysicalDistress == Some(l.inDistress))
    && (l.LastMoodLine? ==> LastMood(u).Some? && l == LastMoodLineOf(LastMood(u).value))
  }

  /** The profile lines both builders emit: each one present exactly when
      its guard holds (truthy age and gender, non-empty medicines, boolean
      flags, at least one mood), carrying the user's value. */
  predicate ProfileFacts(u: User, ls: seq<Line>) {
    && (AgeGiven(u) ==> AgeLine(u.age.value) in ls)
    && (GenderGiven(u) ==> GenderLine(u.gender.value) in ls)
    && (|u.medicines| > 0 ==> MedicinesLine(u.medicines) in ls)
    && (u.isPhysicalHelpBefore.Some? ==> HelpBeforeLine(u.isPhysicalHelpBefore.value) in ls)
    && (u.isPhysicalDistress.Some? ==> DistressLine(u.isPhysicalDistress.value) in ls)
    && (LastMood(u).Some? ==> LastMoodLineOf(LastMood(u).value) in ls)
    && (forall l :: l in ls ==> ProfileLineAgrees(u, l))
  }

  /** The guarded pushes of the profile part of `buildEnhancedPrompt`. */
  function EnhancedPushes(u: User): seq<Push> {
    [ Push(AgeGiven(u), AgeLine(u.age.GetOr(0.0))),
      Push(GenderGiven(u), GenderLine(u.gender.GetOr(""))),
      Push(|u.medicines| > 0, MedicinesLine(u.medicines)),
      Push(u.isPhysicalHelpBefore.Some?, HelpBeforeLine(u.isPhysicalHelpBefore.GetOr(false))),
      Push(u.isPhysicalDistress.Some?, DistressLine(u.isPhysicalDistress.GetOr(false))),
      Push(LastMood(u).Some?, LastMoodLineOf(LastMood(u).GetOr(MoodSample(Undefined, Undefined)))) ]
  }

  lemma EnhancedPushesRanked(u: User)
    ensures Ranked(Emit(EnhancedPushes(u)), EnhancedRank)
  {
    var ps := EnhancedPushes(u);
    forall i | 0 <= i < |ps| ensures EnhancedRank(ps[i].line) == i {
      if i == 0 {} else if i == 1 {} else if i == 2 {} else if i == 3 {} else if i == 4 {} else {}
    }
    EmitRanked(ps, EnhancedRank);
  }

  lemma EnhancedPushesPresent(u: User)
    ensures AgeGiven(u) ==> AgeLine(u.age.value) in Emit(EnhancedPushes(u))
    ensures GenderGiven(u) ==> GenderLine(u.gender.value) in Emit(EnhancedPushes(u))
    ensures |u.medicines| > 0 ==> MedicinesLine(u.medicines) in Emit(EnhancedPushes(u))
    ensures u.isPhysicalHelpBefore.Some? ==> HelpBeforeLine(u.isPhysicalHelpBefore.value) in Emit(EnhancedPushes(u))
    ensures u.isPhysicalDistress.Some? ==> DistressLine(u.isPhysicalDistress.value) in Emit(EnhancedPushes(u))
    ensures LastMood(u).Some? ==> LastMoodLineOf(LastMood(u).value) in Emit(EnhancedPushes(u))
  {
    var ps := EnhancedPushes(u);
    EmitHasGuarded(ps);
    assert ps[0].guard ==> ps[0].line in Emit(ps);
    assert ps[1].guard ==> ps[1].line in Emit(ps);
    assert ps[2].guard ==> ps[2].line in Emit(ps);
    assert ps[3].guard ==> ps[3].line in Emit(ps);
    assert ps[4].guard ==> ps[4].line in Emit(ps);
    assert ps[5].guard ==> ps[5].line in Emit(ps);
  }

  lemma EnhancedPushesAgree(u: User)
    ensures forall l :: l in Emit(EnhancedPushes(u)) ==> ProfileLineAgrees(u, l) && KindOf(l) == Profile
  {
    var ps := EnhancedPushes(u);
    forall l | l in Emit(ps) ensures ProfileLineAgrees(u, l) && KindOf(l) == Profile {
      var i :| 0 <= i < |ps| && ps[i].guard && ps[i].line == l;
      if i == 0 {} else if i == 1 {} else if i == 2 {} else if i == 3 {} else if i == 4 {} else {}
    }
  }

  /** The profile part of `buildEnhancedPrompt`: age, gender, medicines,
      the two physical flags and the last mood, in that order. */
  function EnhancedProfile(u: User): (r: seq<Line>)
    ensures Ranked(r, EnhancedRank)
    ensures ProfileFacts(u, r)
    ensures forall l :: l in r ==> KindOf(l) == Profile
  {
    EnhancedPushesRanked(u);
    EnhancedPushesPresent(u);
    EnhancedPushesAgree(u);
    Emit(EnhancedPushes(u))
  }

  /** The guarded pushes of the background part of `buildPrompt`. */
  function BasicPushes(u: User): seq<Push> {
    [ Push(u.isPhysicalHelpBefore.Some?, HelpBeforeLine(u.isPhysicalHelpBefore.GetOr(false))),
      Push(u.isPhysicalDistress.Some?, DistressLine(u.isPhysicalDistress.GetOr(false))),
      Push(|u.medicines| > 0, MedicinesLine(u.medicines)),
      Push(AgeGiven(u), AgeLine(u.age.GetOr(0.0))),
      Push(GenderGiven(u), GenderLine(u.gender.GetOr(""))),
      Push(LastMood(u).Some?, LastMoodLineOf(LastMood(u).GetOr(MoodSample(Undefined, Undefined)))),
      Push(LastMusicTitle(u).Some?, LastMusicLine(LastMusicTitle(u).GetOr(Undefined))) ]
  }

  /** The last-music line agrees with the last chat turn. */
  predicate MusicLineAgrees(u: User, l: Line) {
    l.LastMusicLine? ==> LastMusicTitle(u).Some? && l == LastMusicLine(LastMusicTitle(u).value)
  }

  lemma BasicPushesRanked(u: User)
    ensures Ranked(Emit(BasicPushes(u)), BasicRank)
  {
    var ps := BasicPushes(u);
    forall i | 0 <= i < |ps| ensures BasicRank(ps[i].line) == i {
      if i == 0 {} else if i == 1 {} else if i == 2 {} else if i == 3 {} else if i == 4 {} else if i == 5 {} else {}
    }
    EmitRanked(ps, BasicRank);
  }

  lemma BasicPushesPresent(u: User)
    ensures AgeGiven(u) ==> AgeLine(u.age.value) in Emit(BasicPushes(u))
    ensures GenderGiven(u) ==> GenderLine(u.gender.value) in Emit(BasicPushes(u))
    ensures |u.medicines| > 0 ==> MedicinesLine(u.medicines) in Emit(BasicPushes(u))
    ensures u.isPhysicalHelpBefore.Some? ==> HelpBeforeLine(u.isPhysicalHelpBefore.value) in Emit(BasicPushes(u))
    ensures u.isPhysicalDistress.Some? ==> DistressLine(u.isPhysicalDistress.value) in Emit(BasicPushes(u))
    ensures LastMood(u).Some? ==> LastMoodLineOf(LastMood(u).value) in Emit(BasicPushes(u))
    ensures LastMusicTitle(u).Some? ==> LastMusicLine(LastMusicTitle(u).value) in Emit(BasicPushes(u))
  {
    var ps := BasicPushes(u);
    EmitHasGuarded(ps);
    assert ps[0].guard ==> ps[0].line in Emit(ps);
    assert ps[1].guard ==> ps[1].line in Emit(ps);
    assert ps[2].guard ==> ps[2].line in Emit(ps);
    assert ps[3].guard ==> ps[3].line in Emit(ps);
    assert ps[4].guard ==> ps[4].line in Emit(ps);
    assert ps[5].guard ==> ps[5].line in Emit(ps);
    assert ps[6].guard ==> ps[6].line in Emit(ps);
  }

  lemma BasicPushesAgree(u: User)
    ensures forall l :: l in Emit(BasicPushes(u)) ==>
      && ProfileLineAgrees(u, l) && MusicLineAgrees(u, l)
      && (KindOf(l) == Profile || l.LastMusicLine?)
  {
    var ps := BasicPushes(u);
    forall l | l in Emit(ps)
      ensures ProfileLineAgrees(u, l) && MusicLineAgrees(u, l) && (KindOf(l) == Profile || l.LastMusicLine?)
    {
      var i :| 0 <= i < |ps| && ps[i].guard && ps[i].line == l;
      if i == 0 {} else if i == 1 {} else if i == 2 {} else if i == 3 {} else if i == 4 {} else if i == 5 {} else {}
    }
  }

  /** The background part of `buildPrompt`: the two physical flags,
      medicines, age, gender, last mood and last music title, in that
      order, and no other line. */
  function BasicBackground(u: User): (r: seq<Line>)
    ensures Ranked(r, BasicRank)
    ensures ProfileFacts(u, r)
    ensures LastMusicTitle(u).Some? ==> LastMusicLine(LastMusicTitle(u).value) in r
    ensures forall l :: l in r ==> MusicLineAgrees(u, l)
    ensures forall l :: l in r ==> KindOf(l) == Profile || l.LastMusicLine?
  {
    BasicPushesRanked(u);
    BasicPushesPresent(u);
    BasicPushesAgree(u);
    Emit(BasicPushes(u))
  }

  /** The part of a prompt a line belongs to. */
  datatype Kind = Profile | Exercise | Conversation | Speech | Other

  function KindOf(l: Line): Kind {
    match l
    case AgeLine(_) => Profile
    case GenderLine(_) => Profile
    case MedicinesLine(_) => Profile
    case HelpBeforeLine(_) => Profile
    case DistressLine(_) => Profile
    case LastMoodLine(_, _) => Profile
    case ExerciseLine(_, _, _, _) => Exercise
    case ConversationLine(_, _, _) => Conversation
    case UserSaid(_) => Speech
    case _ => Other
  }

  /** The lines of one kind, in prompt order. */
  function Select(ls: seq<Line>, k: Kind): (r: seq<Line>)
    ensures |r| <= |ls|
  {
    if |ls| == 0 then []
    else (if KindOf(ls[0]) == k then [ls[0]] else []) + Select(ls[1..], k)
  }

  /** A line is selected iff it occurs in the prompt and has the kind. */
  lemma {:induction false} SelectMembers(ls: seq<Line>, k: Kind)
    ensures forall l :: l in Select(ls, k) <==> l in ls && KindOf(l) == k
  {
    if |ls| > 0 {
      SelectMembers(ls[1..], k);
      assert ls == [ls[0]] + ls[1..];
    }
  }

  lemma {:induction false} SelectAppend(a: seq<Line>, b: seq<Line>, k: Kind)
    ensures Select(a + b, k) == Select(a, k) + Select(b, k)
  {
    if |a| > 0 {
      assert (a + b)[1..] == a[1..] + b;
      SelectAppend(a[1..], b, k);
    } else {
      assert a + b == b;
    }
  }

  lemma {:induction false} SelectAll(ls: seq<Line>, k: Kind)
    requires forall i :: 0 <= i < |ls| ==> KindOf(ls[i]) == k
    ensures Select(ls, k) == ls
  {
    if |ls| > 0 {
      SelectAll(ls[1..], k);
    }
  }

  lemma {:induction false} SelectNone(ls: seq<Line>, k: Kind)
    requires forall i :: 0 <= i < |ls| ==> KindOf(ls[i]) != k
    ensures Select(ls, k) == []
  {
    if |ls| > 0 {
      SelectNone(ls[1..], k);
    }
  }

  function Min(a: nat, b: nat): nat {
    if a <= b then a else b
  }

  /** How many recent exercises and conversations the enhanced prompt shows. */
  const RecentLimit: nat := 10

  /** `xs.slice(-n)`: the last `n` entries, or all of them when there are
      fewer. */
  function LastN<T>(xs: seq<T>, n: nat): (r: seq<T>)
    ensures |r| == Min(n, |xs|)
    ensures r == xs[|xs| - |r|..]
  {
    if |xs| <= n then xs else xs[|xs| - n..]
  }

  function ExerciseLineOf(n: nat, e: Entry<ExerciseDoc>): Line {
    ExerciseLine(n, Get(Obj(e.doc), "name"), Get(Obj(e.doc), "durationInDays"), Get(Obj(e.doc), "streak"))
  }

  /** `forEach((ex, i) => lines.push(...))`: one line per exercise, numbered
      consecutively from `first`. */
  function ExerciseLines(xs: seq<Entry<ExerciseDoc>>, first: nat): (r: seq<Line>)
    ensures |r| == |xs|
    ensures forall i {:trigger r[i]} :: 0 <= i < |xs| ==> r[i] == ExerciseLineOf(first + i, xs[i])
  {
    if |xs| == 0 then [] else [ExerciseLineOf(first, xs[0])] + ExerciseLines(xs[1..], first + 1)
  }

  /** The recent-exercises block: nothing without exercises; otherwise a
      heading and the at most ten most recent exercises. */
  function ExerciseSection(xs: seq<Entry<ExerciseDoc>>): (r: seq<Line>)
    ensures |xs| == 0 ==> r == []
    ensures |xs| > 0 ==> |r| == 1 + Min(RecentLimit, |xs|) && r[0] == ExercisesHeading
  {
    if |xs| == 0 then [] else [ExercisesHeading] + ExerciseLines(LastN(xs, RecentLimit), 1)
  }

  /** Line `i` of the block (`i` from 1) shows the `i`-th of the most recent
      exercises, oldest first, numbered `i`. */
  lemma ExerciseSectionShowsRecent(xs: seq<Entry<ExerciseDoc>>, i: nat)
    requires 1 <= i < |ExerciseSection(xs)|
    ensures ExerciseSection(xs)[i] == ExerciseLineOf(i, xs[|xs| - (|ExerciseSection(xs)| - 1) + (i - 1)])
  {
    var recent := LastN(xs, RecentLimit);
    assert ExerciseSection(xs)[i] == ExerciseLines(recent, 1)[i - 1];
    assert recent[i - 1] == xs[|xs| - |recent| + (i - 1)];
  }

  /** The exercise lines of the block are the recent exercises' lines; it
      has no line of any other listed kind. */
  lemma ExerciseSectionKinds(xs: seq<Entry<ExerciseDoc>>, k: Kind)
    requires k != Other
    ensures Select(ExerciseSection(xs), k)
            == if k == Exercise then ExerciseLines(LastN(xs, RecentLimit), 1) else []
  {
    if |xs| > 0 {
      var body := ExerciseLines(LastN(xs, RecentLimit), 1);
      forall i | 0 <= i < |body| ensures KindOf(body[i]) == Exercise {
      }
      assert ExerciseSection(xs) == [ExercisesHeading] + body;
      SectionKinds(ExercisesHeading, body, Exercise, k);
    }
  }

  function ConversationLineOf(n: nat, e: Entry<ChatTurn>): Line {
    ConversationLine(n, e.doc.userMessage, e.doc.systemMessage)
  }

  /** One line per chat turn, numbered consecutively from `first`. */
  function ConversationLines(xs: seq<Entry<ChatTurn>>, first: nat): (r: seq<Line>)
    ensures |r| == |xs|
    ensures forall i {:trigger r[i]} :: 0 <= i < |xs| ==> r[i] == ConversationLineOf(first + i, xs[i])
  {
    if |xs| == 0 then [] else [ConversationLineOf(first, xs[0])] + ConversationLines(xs[1..], first + 1)
  }

  /** The recent-conversations block: nothing without history; otherwise a
      heading and the at most ten most recent turns. */
  function ConversationSection(xs: seq<Entry<ChatTurn>>): (r: seq<Line>)
    ensures |xs| == 0 ==> r == []
    ensures |xs| > 0 ==> |r| == 1 + Min(RecentLimit, |xs|) && r[0] == ConversationsHeading
  {
    if |xs| == 0 then [] else [ConversationsHeading] + ConversationLines(LastN(xs, RecentLimit), 1)
  }

  /** Line `i` of the block (`i` from 1) shows the `i`-th of the most recent
      turns, oldest first, numbered `i`. */
  lemma ConversationSectionShowsRecent(xs: seq<Entry<ChatTurn>>, i: nat)
    requires 1 <= i < |ConversationSection(xs)|
    ensures ConversationSection(xs)[i] == ConversationLineOf(i, xs[|xs| - (|ConversationSection(xs)| - 1) + (i - 1)])
  {
    var recent := LastN(xs, RecentLimit);
    assert ConversationSection(xs)[i] == ConversationLines(recent, 1)[i - 1];
    assert recent[i - 1] == xs[|xs| - |recent| + (i - 1)];
  }

  lemma ConversationSectionKinds(xs: seq<Entry<ChatTurn>>, k: Kind)
    requires k != Other
    ensures Select(ConversationSection(xs), k)
            == if k == Conversation then ConversationLines(LastN(xs, RecentLimit), 1) else []
  {
    if |xs| > 0 {
      var body := ConversationLines(LastN(xs, RecentLimit), 1);
      forall i | 0 <= i < |body| ensures KindOf(body[i]) == Conversation {
      }
      assert ConversationSection(xs) == [ConversationsHeading] + body;
      SectionKinds(ConversationsHeading, body, Conversation, k);
    }
  }

  /** A heading of no listed kind followed by lines of kind `body`. */
  lemma SectionKinds(heading: Line, body: seq<Line>, bodyKind: Kind, k: Kind)
    requires KindOf(heading) == Other && bodyKind != Other
    requires forall i :: 0 <= i < |body| ==> KindOf(body[i]) == bodyKind
    ensures Select([heading] + body, k) == if k == bodyKind then body else if k == Other then [heading] else []
  {
    SelectAppend([heading], body, k);
    assert Select([heading], k) == (if k == Other then [heading] else []) + Select([], k);
    if k == bodyKind {
      SelectAll(body, k);
    } else {
      SelectNone(body, k);
    }
  }

  /** `buildEnhancedPrompt`: the profile lines, the recent exercises, the
      recent conversations, the user's words, then the format reminder. */
  function EnhancedPrompt(u: User, feeling: JsVal): (r: seq<Line>)
    ensures |r| >= 2 && r[|r| - 2] == UserSaid(feeling) && r[|r| - 1] == StrictFormatReminder
    ensures Select(r, Speech) == [UserSaid(feeling)]
    ensures Select(r, Exercise) == ExerciseLines(LastN(u.exercises, RecentLimit), 1)
    ensures Select(r, Conversation) == ConversationLines(LastN(u.apiChatHistory, RecentLimit), 1)
    ensures Select(r, Profile) == EnhancedProfile(u)
  {
    var profile := EnhancedProfile(u);
    var exercises := ExerciseSection(u.exercises);
    var conversations := ConversationSection(u.apiChatHistory);
    var tail := [UserSaid(feeling), StrictFormatReminder];
    EnhancedPromptKinds(u, feeling, Speech);
    EnhancedPromptKinds(u, feeling, Exercise);
    EnhancedPromptKinds(u, feeling, Conversation);
    EnhancedPromptKinds(u, feeling, Profile);
    profile + exercises + conversations + tail
  }

  lemma EnhancedPromptKinds(u: User, feeling: JsVal, k: Kind)
    requires k != Other
    ensures Select(EnhancedProfile(u) + ExerciseSection(u.exercises) + ConversationSection(u.apiChatHistory)
                   + [UserSaid(feeling), StrictFormatReminder], k)
            == (match k
                case Profile => EnhancedProfile(u)
                case Exercise => ExerciseLines(LastN(u.exercises, RecentLimit), 1)
                case Conversation => ConversationLines(LastN(u.apiChatHistory, RecentLimit), 1)
                case _ => [UserSaid(feeling)])
  {
    ProfileKinds(u, k);
    ExerciseSectionKinds(u.exercises, k);
    ConversationSectionKinds(u.apiChatHistory, k);
    Combine(EnhancedProfile(u), ExerciseSection(u.exercises), ExerciseLines(LastN(u.exercises, RecentLimit), 1),
            ConversationSection(u.apiChatHistory), ConversationLines(LastN(u.apiChatHistory, RecentLimit), 1),
            feeling, k);
  }

  lemma Combine(profile: seq<Line>, exercises: seq<Line>, recentExercises: seq<Line>,
                conversations: seq<Line>, recentTurns: seq<Line>, feeling: JsVal, k: Kind)
    requires k != Other
    requires Select(profile, k) == if k == Profile then profile else []
    requires Select(exercises, k) == if k == Exercise then recentExercises else []
    requires Select(conversations, k) == if k == Conversation then recentTurns else []
    ensures Select(profile + exercises + conversations + [UserSaid(feeling), StrictFormatReminder], k)
            == (match k
                case Profile => profile
                case Exercise => recentExercises
                case Conversation => recentTurns
                case _ => [UserSaid(feeling)])
  {
    SelectOfFour(profile, exercises, conversations, feeling, k);
  }

  /** Selecting from the four parts of the enhanced prompt selects from each
      part in turn; the closing pair contributes only the user's words. */
  lemma SelectOfFour(a: seq<Line>, b: seq<Line>, c: seq<Line>, feeling: JsVal, k: Kind)
    requires k != Other
    ensures Select(a + b + c + [UserSaid(feeling), StrictFormatReminder], k)
            == Select(a, k) + Select(b, k) + Select(c, k) + (if k == Speech then [UserSaid(feeling)] else [])
  {
    var tail := [UserSaid(feeling), StrictFormatReminder];
    SelectAppend(a + b + c, tail, k);
    SelectAppend(a + b, c, k);
    SelectAppend(a, b, k);
    SelectTail(feeling, k);
  }

  lemma SelectTail(feeling: JsVal, k: Kind)
    requires k != Other
    ensures Select([UserSaid(feeling), StrictFormatReminder], k) == if k == Speech then [UserSaid(feeling)] else []
  {
    var tail := [UserSaid(feeling), StrictFormatReminder];
    assert tail[1..] == [StrictFormatReminder];
    assert [StrictFormatReminder][1..] == [];
  }

  lemma ProfileKinds(u: User, k: Kind)
    ensures Select(EnhancedProfile(u), k) == if k == Profile then EnhancedProfile(u) else []
  {
    var profile := EnhancedProfile(u);
    assert forall i :: 0 <= i < |profile| ==> profile[i] in profile;
    if k == Profile {
      SelectAll(profile, k);
    } else {
      SelectNone(profile, k);
    }
  }

  /** `buildPrompt`: the background block (or the fixed no-background
      sentence when it would be empty), the user's words, then the JSON
      template. */
  function BasicPrompt(u: User, feeling: JsVal): (r: seq<Line>)
    ensures |r| >= 3 && r[|r| - 2] == UserSaid(feeling) && r[|r| - 1] == JsonTemplate
    ensures r[0] == NoBackground <==> BasicBackground(u) == []
    ensures r[0] != NoBackground ==> r[0] == BackgroundHeading && r[1..|r| - 2] == BasicBackground(u)
    ensures BasicBackground(u) == [] ==> |r| == 3
  {
    var background := BasicBackground(u);
    (if |background| == 0 then [NoBackground] else [BackgroundHeading] + background)
      + [UserSaid(feeling), JsonTemplate]
  }
}
