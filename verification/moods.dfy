/** The mood subdocument schema: a required rating between 1 and 5 and an
    optional label from a five-step scale. */
module Moods {

  import opened Wrappers
  import opened JsValues

  /** The five labels, lowest to highest. */
  datatype MoodLabel = Rough | Low | Okay | Good | Great

  function LabelName(l: MoodLabel): string {
    match l
    case Rough => "Rough"
    case Low => "Low"
    case Okay => "Okay"
    case Good => "Good"
    case Great => "Great"
  }

  /** The label spelled `s`, if `s` is one of the five enumerated strings. */
  function ParseLabel(s: string): (r: Option<MoodLabel>)
    ensures r.Some? ==> LabelName(r.value) == s
    ensures r.None? ==> forall l :: LabelName(l) != s
  {
    if s == "Rough" then Some(Rough)
    else if s == "Low" then Some(Low)
    else if s == "Okay" then Some(Okay)
    else if s == "Good" then Some(Good)
    else if s == "Great" then Some(Great)
    else None
  }

  /** A mood sample exactly as the chat controllers push it: the two fields
      of the completion's `mood` object, copied without conversion. */
  datatype MoodSample = MoodSample(mood: JsVal, moodRating: JsVal)

  /** What the schema's validators accept: `moodRating` present, a number,
      within 1..5 inclusive; `mood` unset or one of the five labels. */
  predicate ValidSample(m: MoodSample) {
    && m.moodRating.Num? && 1.0 <= m.moodRating.n <= 5.0
    && (Nullish(m.mood) || (m.mood.Str? && ParseLabel(m.mood.s).Some?))
  }

  /** A typed mood: an optional label and a rating. */
  datatype Mood = Mood(level: Option<MoodLabel>, rating: real)

  predicate RatingInRange(r: real) {
    1.0 <= r <= 5.0
  }

  function Encode(m: Mood): MoodSample {
    MoodSample(if m.level.Some? then Str(LabelName(m.level.value)) else Undefined, Num(m.rating))
  }

  /** Reads a stored sample back as a typed mood; defined exactly on the
      samples the schema accepts. */
  function Decode(m: MoodSample): (r: Option<Mood>)
    ensures r.Some? <==> ValidSample(m)
    ensures r.Some? ==> RatingInRange(r.value.rating) && Num(r.value.rating) == m.moodRating
    ensures r.Some? && !m.mood.Null? ==> Encode(r.value) == m
  {
    if !m.moodRating.Num? || !RatingInRange(m.moodRating.n) then None
    else if Nullish(m.mood) then Some(Mood(None, m.moodRating.n))
    else if m.mood.Str? && ParseLabel(m.mood.s).Some? then Some(Mood(ParseLabel(m.mood.s), m.moodRating.n))
    else None
  }

  /** Every typed mood with an in-range rating survives storing and reading back. */
  lemma DecodeEncode(m: Mood)
    requires RatingInRange(m.rating)
    ensures Decode(Encode(m)) == Some(m)
  {
    if m.level.Some? {
      var l := m.level.value;
      assert ParseLabel(LabelName(l)) == Some(l) by {
        match l
        case Rough =>
        case Low =>
        case Okay =>
        case Good =>
        case Great =>
      }
    }
  }

  /** The neutral sample the chat controllers record when the completion
      cannot be parsed. */
  const FallbackSample: MoodSample := MoodSample(Str("Okay"), Num(3.0))

  lemma FallbackSampleValid()
    ensures ValidSample(FallbackSample)
    ensures Decode(FallbackSample) == Some(Mood(Some(Okay), 3.0))
  {
  }

  /** A sample without a rating is refused, whatever its label. */
  lemma RatingRequired(tag: JsVal)
    ensures !ValidSample(MoodSample(tag, Undefined))
    ensures !ValidSample(MoodSample(tag, Null))
  {
  }
}
