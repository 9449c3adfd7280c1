/** The record types shared by the test page, the evaluator and the history store. */
module Types {
  import opened Wrappers

  /** The six CEFR proficiency levels, in increasing order. */
  datatype CEFRLevel = A1 | A2 | B1 | B2 | C1 | C2 {

    /** Position on the scale: A1 is 0, C2 is 5. */
    function Rank(): (n: nat)
      ensures n < 6
    {
      match this
      case A1 => 0
      case A2 => 1
      case B1 => 2
      case B2 => 3
      case C1 => 4
      case C2 => 5
    }

    /** The enum's string value, which is what a stored attempt carries. */
    function Value(): (s: string)
      ensures |s| == 2 && s[0] == "AABBCC"[Rank()] && s[1] == "121212"[Rank()]
    {
      match this
      case A1 => "A1"
      case A2 => "A2"
      case B1 => "B1"
      case B2 => "B2"
      case C1 => "C1"
      case C2 => "C2"
    }
  }

  /** Reads a level back from its string value; `None` for any other string. */
  function LevelOfValue(s: string): (r: Option<CEFRLevel>)
    ensures r.Some? ==> r.value.Value() == s
  {
    if s == "A1" then Some(A1)
    else if s == "A2" then Some(A2)
    else if s == "B1" then Some(B1)
    else if s == "B2" then Some(B2)
    else if s == "C1" then Some(C1)
    else if s == "C2" then Some(C2)
    else None
  }

  /** Each level's string value reads back as that level, so the values are distinct. */
  lemma ValueRoundTrip(l: CEFRLevel)
    ensures LevelOfValue(l.Value()) == Some(l)
  {
  }

  /** The rank orders the levels without ties. */
  lemma RankInjective(l: CEFRLevel, m: CEFRLevel)
    ensures l.Rank() == m.Rank() <==> l == m
  {
  }

  /** Sentence difficulty, documented as ranging from 1 to 5. */
  type Difficulty = d: int | 1 <= d <= 5 witness 1

  datatype Sentence = Sentence(id: int, text: string, difficulty: Difficulty)

  /** One scored reading: three numeric scores and two strings. */
  datatype EvaluationResult = EvaluationResult(
    accuracy: real,
    intonation: real,
    fluency: real,
    transcribed: string,
    feedback: string)

  /** The per-field averages of a finished test. */
  datatype Details = Details(avgAccuracy: real, avgIntonation: real, avgFluency: real)

  datatype TestAttempt = TestAttempt(
    id: string,
    date: string,
    overallScore: real,
    level: CEFRLevel,
    details: Details,
    individualScores: seq<EvaluationResult>)
}
