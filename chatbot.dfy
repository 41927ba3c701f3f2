/** The chatbot route handler: the message is lower-cased and sorted into the first
    category whose keywords it contains (placement, then notes, then cgpa, else the
    default), and one of that category's five canned answers is picked at random. */
module Chatbot {
  import opened Text
  import opened Http

  datatype Category = Placement | Notes | Cgpa | Default

  const PlacementKeywords: seq<string> := ["placement", "interview", "job"]
  const NotesKeywords: seq<string> := ["notes", "study", "material"]
  const CgpaKeywords: seq<string> := ["cgpa", "grade", "score"]

  /** The text contains at least one of the keywords. */
  predicate MentionsAny(text: string, keywords: seq<string>)
  {
    exists i :: 0 <= i < |keywords| && Includes(text, keywords[i])
  }

  /** `responseCategory` after the if/else chain over `message.toLowerCase()`. */
  function Classify(message: string): (c: Category)
    ensures c == Placement <==> MentionsAny(Lower(message), PlacementKeywords)
    ensures c == Default <==>
              !MentionsAny(Lower(message), PlacementKeywords) &&
              !MentionsAny(Lower(message), NotesKeywords) &&
              !MentionsAny(Lower(message), CgpaKeywords)
  {
    var lower := Lower(message);
    if MentionsAny(lower, PlacementKeywords) then Placement
    else if MentionsAny(lower, NotesKeywords) then Notes
    else if MentionsAny(lower, CgpaKeywords) then Cgpa
    else Default
  }

  /** Two messages that agree up to letter case land in the same category. */
  lemma ClassifyIgnoresCase(m1: string, m2: string)
    requires Lower(m1) == Lower(m2)
    ensures Classify(m1) == Classify(m2)
  {
  }

  /** In particular, lower-casing a message first changes nothing. */
  lemma ClassifyLowered(message: string)
    ensures Classify(Lower(message)) == Classify(message)
  {
    LowerIdempotent(message);
    ClassifyIgnoresCase(Lower(message), message);
  }

  /** A placement keyword wins whatever other keywords the message holds: a message
      with both "job" and "grade" is a placement question. */
  lemma PlacementKeywordWins(message: string, k: nat)
    requires k < |PlacementKeywords| && Includes(Lower(message), PlacementKeywords[k])
    ensures Classify(message) == Placement
  {
  }

  /** A notes keyword wins over the cgpa keywords when no placement keyword occurs. */
  lemma NotesKeywordBeatsCgpa(message: string, k: nat)
    requires k < |NotesKeywords| && Includes(Lower(message), NotesKeywords[k])
    requires !MentionsAny(Lower(message), PlacementKeywords)
    ensures Classify(message) == Notes
  {
  }

  /** A message is answered from the cgpa list exactly when it holds a cgpa keyword
      and no keyword of the earlier categories. */
  lemma CgpaIff(message: string)
    ensures Classify(message) == Cgpa <==>
              MentionsAny(Lower(message), CgpaKeywords) &&
              !MentionsAny(Lower(message), PlacementKeywords) &&
              !MentionsAny(Lower(message), NotesKeywords)
  {
  }

  /** `responses[responseCategory]`: five answers per category. */
  const PlacementAnswers: seq<string> := [
    "To prepare for placements, focus on data structures, algorithms, and system design concepts.",
    "Make sure your resume highlights your projects and relevant skills.",
    "Practice mock interviews with friends to improve your communication skills.",
    "Research the companies you're applying to and understand their interview process.",
    "Solve at least 2-3 coding problems daily on platforms like LeetCode or HackerRank."]

  const NotesAnswers: seq<string> := [
    "You can organize your notes by semester and subject in the Notes section.",
    "Use the search feature to quickly find specific topics in your notes.",
    "Upload your class notes and share them with friends through the platform.",
    "Create summaries of important concepts for quick revision before exams.",
    "Use color coding and highlighting to mark important information in your notes."]

  const CgpaAnswers: seq<string> := [
    "The CGPA calculator can help you track your academic progress.",
    "Set realistic grade goals for each semester to improve your overall CGPA.",
    "Focus on subjects with higher credit values as they impact your CGPA more.",
    "Use the calculator to simulate different grade scenarios and plan accordingly.",
    "Remember that consistent effort throughout the semester is key to good grades."]

  const DefaultAnswers: seq<string> := [
    "How can I help you with your academic needs?",
    "You can ask me about notes organization, CGPA calculation, or placement preparation.",
    "Check out our productivity tools to improve your study habits.",
    "Is there a specific feature of Campus Companion you'd like to learn more about?",
    "I'm here to help you make the most of your academic journey!"]

  function Responses(c: Category): (r: seq<string>)
    ensures |r| == 5
  {
    match c
    case Placement => PlacementAnswers
    case Notes => NotesAnswers
    case Cgpa => CgpaAnswers
    case Default => DefaultAnswers
  }

  /** `Math.floor(Math.random() * n)` for the random draw `num / den` in [0, 1). */
  function RandomIndex(num: int, den: int, n: nat): (i: nat)
    requires 0 <= num < den && n > 0
    ensures i < n
  {
    BelowProduct(num, den, n);
    (num * n) / den
  }

  lemma BelowProduct(num: int, den: int, n: nat)
    requires 0 <= num < den && n > 0
    ensures 0 <= num * n < den * n
  {
    assert num * n < den * n by {
      assert (den - num) * n > 0 by {
        PositiveProduct(den - num, n);
      }
    }
    assert num * n >= 0 by {
      if num > 0 {
        PositiveProduct(num, n);
      }
    }
  }

  lemma PositiveProduct(a: int, b: int)
    requires a > 0 && b > 0
    ensures a * b > 0
  {
  }

  /** The POST answer for `message` and the random draw `num / den`. */
  function Chat(message: string, num: int, den: int): (r: Response<string>)
    requires 0 <= num < den
    ensures r.success && r.status == 200 && r.payload.Data?
    ensures r.payload.value in Responses(Classify(message))
  {
    var answers := Responses(Classify(message));
    Ok(answers[RandomIndex(num, den, |answers|)])
  }

  /** Every answer of a category can come out, for a suitable random draw. */
  lemma EveryAnswerReachable(message: string, k: nat)
    requires k < 5
    ensures Chat(message, k, 5).payload.value == Responses(Classify(message))[k]
  {
    assert RandomIndex(k, 5, 5) == k;
  }
}
