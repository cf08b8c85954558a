/** The learning-path survey (src/components/MLSurvey.tsx): four multiple-choice
    questions answered one after another, then a recommended course path computed from
    the answers to the machine-learning and mathematics questions. */
module MLSurvey {
  import opened Common
  import opened Strings

  datatype Choice = Choice(value: string, caption: string)
  datatype Question = Question(id: int, text: string, options: seq<Choice>)

  const Questions: seq<Question> := [
    Question(1, "What's your experience level with programming?", [
      Choice("beginner", "Beginner - New to programming"),
      Choice("intermediate", "Intermediate - Comfortable with basic programming"),
      Choice("advanced", "Advanced - Experienced programmer")]),
    Question(2, "Have you worked with Machine Learning before?", [
      Choice("none", "No experience"),
      Choice("basics", "Basic understanding"),
      Choice("some_projects", "Completed some projects"),
      Choice("professional", "Professional experience")]),
    Question(3, "What's your mathematics background?", [
      Choice("basic", "Basic math"),
      Choice("intermediate", "College-level calculus"),
      Choice("advanced", "Advanced mathematics")]),
    Question(4, "What's your primary goal with Machine Learning?", [
      Choice("career", "Career transition"),
      Choice("projects", "Personal projects"),
      Choice("research", "Research"),
      Choice("curiosity", "General interest")])
  ]

  /** The ids are 1 to 4 in order, so question `k` (from 0) has id `k + 1`. */
  lemma QuestionIds(k: int)
    requires 0 <= k < |Questions|
    ensures Questions[k].id == k + 1
  {
  }

  /** `answers[id]`, which is `undefined` for a question not answered. */
  function Answer(answers: map<int, string>, id: int): (a: Option<string>)
    ensures a.Some? <==> id in answers
    ensures a.Some? ==> a.value == answers[id]
  {
    if id in answers then Some(answers[id]) else None
  }

  datatype LearningPath = Foundations | AdvancedPath | IntermediatePath

  /** The path segment of each recommendation. */
  function PathName(p: LearningPath): string {
    match p
    case Foundations => "foundations"
    case AdvancedPath => "advanced"
    case IntermediatePath => "intermediate"
  }

  /** `getRecommendedPath`: beginners in machine learning get the foundations; some
      projects together with advanced mathematics get the advanced path; everyone else,
      including professionals and incomplete answers, the intermediate one. */
  function RecommendedPath(answers: map<int, string>): (p: LearningPath)
    ensures p == Foundations <==> Answer(answers, 2) in {Some("none"), Some("basics")}
    ensures p == AdvancedPath <==>
              Answer(answers, 2) == Some("some_projects") && Answer(answers, 3) == Some("advanced")
    ensures p == IntermediatePath <==>
              Answer(answers, 2) !in {Some("none"), Some("basics")} &&
              !(Answer(answers, 2) == Some("some_projects") && Answer(answers, 3) == Some("advanced"))
  {
    var mlExperience := Answer(answers, 2);
    var mathBackground := Answer(answers, 3);
    if mlExperience == Some("none") || mlExperience == Some("basics") then Foundations
    else if mathBackground == Some("advanced") && mlExperience == Some("some_projects") then AdvancedPath
    else IntermediatePath
  }

  /** Only the answers to questions 2 and 3 matter. */
  lemma OnlyQuestionsTwoAndThree(a: map<int, string>, b: map<int, string>)
    requires Answer(a, 2) == Answer(b, 2) && Answer(a, 3) == Answer(b, 3)
    ensures RecommendedPath(a) == RecommendedPath(b)
  {
  }

  /** The "Start Learning" button's target, `/courses/<path>`. */
  function Target(p: LearningPath): (t: string)
    ensures StartsWith(t, "/courses/") && t[|"/courses/"|..] == PathName(p)
  {
    "/courses/" + PathName(p)
  }

  /** Different recommendations lead to different pages. */
  lemma TargetsDistinct(p: LearningPath, q: LearningPath)
    requires p != q
    ensures Target(p) != Target(q)
  {
    assert Target(p)[|"/courses/"|..] == PathName(p);
    assert Target(q)[|"/courses/"|..] == PathName(q);
    assert PathName(p) != PathName(q) by {
      assert PathName(p)[0] != PathName(q)[0] || |PathName(p)| != |PathName(q)|;
    }
  }

  class Survey {
    var currentQuestion: int
    var answers: map<int, string>
    var showRecommendation: bool

    /** The current question is one of the four, every earlier question is answered,
        and once the recommendation shows all four are. */
    ghost predicate Valid()
      reads this
    {
      && 0 <= currentQuestion < |Questions|
      && (forall k :: 0 <= k < currentQuestion ==> Questions[k].id in answers)
      && (showRecommendation ==> forall k :: 0 <= k < |Questions| ==> Questions[k].id in answers)
    }

    constructor ()
      ensures Valid()
      ensures currentQuestion == 0 && answers == map[] && !showRecommendation
    {
      currentQuestion := 0;
      answers := map[];
      showRecommendation := false;
    }

    /** `handleAnswer`: records the answer under the question's id, replacing an earlier
        one, then moves to the next question or, on the last, shows the recommendation. */
    method HandleAnswer(questionId: int, answer: string)
      modifies this
      ensures answers == old(answers)[questionId := answer]
      ensures old(currentQuestion) < |Questions| - 1 ==>
                currentQuestion == old(currentQuestion) + 1 && showRecommendation == old(showRecommendation)
      ensures old(currentQuestion) >= |Questions| - 1 ==>
                currentQuestion == old(currentQuestion) && showRecommendation
      ensures 0 <= old(currentQuestion) < |Questions| ==> 0 <= currentQuestion < |Questions|
    {
      answers := answers[questionId := answer];
      if currentQuestion < |Questions| - 1 {
        currentQuestion := currentQuestion + 1;
      } else {
        showRecommendation := true;
      }
    }

    /** A click on option `k` of the question on screen; the options are only on screen
        until the recommendation shows. */
    method ChooseOption(k: nat)
      modifies this
      requires Valid() && !showRecommendation
      requires k < |Questions[currentQuestion].options|
      ensures Valid()
      ensures answers == old(answers)[old(currentQuestion) + 1 := Questions[old(currentQuestion)].options[k].value]
      ensures showRecommendation <==> old(currentQuestion) == |Questions| - 1
      ensures old(currentQuestion) < |Questions| - 1 ==> currentQuestion == old(currentQuestion) + 1
      ensures old(currentQuestion) == |Questions| - 1 ==> currentQuestion == old(currentQuestion)
    {
      QuestionIds(currentQuestion);
      var q := Questions[currentQuestion];
      HandleAnswer(q.id, q.options[k].value);
      forall j | 0 <= j < |Questions|
        ensures Questions[j].id == j + 1
      {
        QuestionIds(j);
      }
    }
  }
}
