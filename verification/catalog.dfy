/** The course and project listings (src/pages/CoursesPage.tsx and
    src/pages/ProjectsPage.tsx): a fixed list filtered by the selected level or
    difficulty. A falsy selection (`null`, or the empty string) shows the whole list;
    any other selection keeps the entries whose level equals it, in list order. */
module Catalog {
  import opened Common

  /** `xs.filter(x => key(x) === v)`. */
  function Keep<T>(xs: seq<T>, key: T -> string, v: string): (r: seq<T>)
    ensures |r| <= |xs|
    ensures forall i :: 0 <= i < |r| ==> key(r[i]) == v
  {
    if xs == [] then []
    else (if key(xs[0]) == v then [xs[0]] else []) + Keep(xs[1..], key, v)
  }

  /** `sub` is `xs` with some entries dropped and the rest in their original order. */
  ghost predicate Subsequence<T>(sub: seq<T>, xs: seq<T>)
    decreases |xs|
  {
    if sub == [] then true
    else if xs == [] then false
    else (sub[0] == xs[0] && Subsequence(sub[1..], xs[1..])) || Subsequence(sub, xs[1..])
  }

  /** The filter keeps the list order: its result is a subsequence of the list. */
  lemma {:induction false} KeepIsSubsequence<T>(xs: seq<T>, key: T -> string, v: string)
    ensures Subsequence(Keep(xs, key, v), xs)
    decreases |xs|
  {
    if xs != [] {
      KeepIsSubsequence(xs[1..], key, v);
      var rest := Keep(xs[1..], key, v);
      if key(xs[0]) == v {
        var sub := [xs[0]] + rest;
        assert Keep(xs, key, v) == sub;
        assert sub[0] == xs[0] && sub[1..] == rest;
      } else {
        assert Keep(xs, key, v) == rest;
      }
    }
  }

  /** The filter is exact: each entry appears in the result as often as in the list when
      its key is the selected one, and not at all otherwise. */
  lemma {:induction false} KeepExact<T>(xs: seq<T>, key: T -> string, v: string, x: T)
    ensures multiset(Keep(xs, key, v))[x] == if key(x) == v then multiset(xs)[x] else 0
    decreases |xs|
  {
    if xs != [] {
      KeepExact(xs[1..], key, v, x);
      assert xs == [xs[0]] + xs[1..];
      assert multiset(xs) == multiset([xs[0]]) + multiset(xs[1..]);
    }
  }

  /** Filtering the result again with the same selection changes nothing. */
  lemma {:induction false} KeepIdempotent<T>(xs: seq<T>, key: T -> string, v: string)
    ensures Keep(Keep(xs, key, v), key, v) == Keep(xs, key, v)
    decreases |xs|
  {
    if xs != [] {
      KeepIdempotent(xs[1..], key, v);
      var rest := Keep(xs[1..], key, v);
      if key(xs[0]) == v {
        assert Keep(xs, key, v) == [xs[0]] + rest;
        assert ([xs[0]] + rest)[1..] == rest;
        assert ([xs[0]] + rest)[0] == xs[0];
        assert Keep([xs[0]] + rest, key, v) == [xs[0]] + Keep(rest, key, v);
      } else {
        assert Keep(xs, key, v) == rest;
      }
    }
  }

  /** `selected ? xs.filter(x => key(x) === selected) : xs`. */
  function Visible<T>(xs: seq<T>, key: T -> string, selected: Option<string>): seq<T> {
    if Truthy(selected) then Keep(xs, key, selected.value) else xs
  }

  /** A falsy selection shows the whole list in order; a truthy one shows exactly the
      matching entries, in order, and selecting it again changes nothing. */
  lemma VisibleSpec<T>(xs: seq<T>, key: T -> string, selected: Option<string>)
    ensures !Truthy(selected) ==> Visible(xs, key, selected) == xs
    ensures Subsequence(Visible(xs, key, selected), xs)
    ensures Truthy(selected) ==>
              (forall x :: multiset(Visible(xs, key, selected))[x] ==
                 if key(x) == selected.value then multiset(xs)[x] else 0)
    ensures Visible(Visible(xs, key, selected), key, selected) == Visible(xs, key, selected)
  {
    if Truthy(selected) {
      KeepIsSubsequence(xs, key, selected.value);
      forall x
        ensures multiset(Visible(xs, key, selected))[x] ==
                if key(x) == selected.value then multiset(xs)[x] else 0
      {
        KeepExact(xs, key, selected.value, x);
      }
      KeepIdempotent(xs, key, selected.value);
    } else {
      SubsequenceOfSelf(xs);
    }
  }

  lemma {:induction false} SubsequenceOfSelf<T>(xs: seq<T>)
    ensures Subsequence(xs, xs)
    decreases |xs|
  {
    if xs != [] {
      SubsequenceOfSelf(xs[1..]);
    }
  }

  datatype Course = Course(id: string, title: string, level: string)
  datatype Project = Project(id: string, title: string, difficulty: string)

  const Courses: seq<Course> := [
    Course("foundations", "ML Foundations", "Beginner"),
    Course("supervised", "Supervised Learning", "Intermediate"),
    Course("deep-learning", "Deep Learning", "Advanced"),
    Course("nlp", "Natural Language Processing", "Advanced")
  ]

  const Projects: seq<Project> := [
    Project("sentiment-analysis", "Sentiment Analysis with BERT", "Intermediate"),
    Project("object-detection", "Real-time Object Detection", "Advanced"),
    Project("chatbot", "AI Chatbot Assistant", "Intermediate")
  ]

  function Level(c: Course): string { c.level }
  function Difficulty(p: Project): string { p.difficulty }

  /** `filteredCourses` for the selected level. */
  function FilteredCourses(selected: Option<string>): seq<Course> {
    Visible(Courses, Level, selected)
  }

  /** `filteredProjects` for the selected difficulty. */
  function FilteredProjects(selected: Option<string>): seq<Project> {
    Visible(Projects, Difficulty, selected)
  }

  /** The "Beginner" course button shows the foundations course alone, and "Advanced"
      shows deep-learning then nlp. */
  lemma BeginnerCourses(level: string)
    requires level == "Beginner"
    ensures FilteredCourses(Some(level)) == [Courses[0]]
  {
    assert Courses[1].level != level && Courses[2].level != level && Courses[3].level != level;
    assert Courses[1..][1..][1..][1..] == [];
  }

  lemma AdvancedCourses(level: string)
    requires level == "Advanced"
    ensures FilteredCourses(Some(level)) == [Courses[2], Courses[3]]
  {
    assert Courses[0].level != level && Courses[1].level != level;
    assert Courses[1..][1..][1..][1..] == [];
  }

  /** No shipped project is for beginners, so the "Beginner" button shows an empty list;
      "Intermediate" shows sentiment-analysis then chatbot. */
  lemma BeginnerProjects(difficulty: string)
    requires difficulty == "Beginner"
    ensures FilteredProjects(Some(difficulty)) == []
  {
    assert Projects[1..][1..] == Projects[2..];
    assert Keep(Projects[2..], Difficulty, difficulty) == [];
    assert Keep(Projects[1..], Difficulty, difficulty) == [];
  }

  lemma IntermediateProjects(difficulty: string)
    requires difficulty == "Intermediate"
    ensures FilteredProjects(Some(difficulty)) == [Projects[0], Projects[2]]
  {
    assert Projects[1].difficulty != difficulty;
    assert Projects[1..][1..][1..] == [];
  }
}
