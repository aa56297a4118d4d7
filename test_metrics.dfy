/** The older metrics script: the same recount as the analytics route, but read
    from the `quiz_ids` references stored on the user profile, with each quiz's
    subject and difficulty looked up in the `quizzes` collection. Difficulty keys
    are the stored difficulty, which may be null. */
module MetricsScript {
  import opened Common
  import opened Preprocessing
  import opened Documents
  import opened QuizStore
  import opened Analytics

  /** The subject and difficulty a reference is counted under: those of the quiz it
      names, or ("Unknown", "easy") when that quiz is not stored. A found quiz
      without a subject fails earlier (see `UserMetrics`), so the "Unknown" used
      for it here is never reached in a computed result. */
  function Placement(quizzes: map<string, QuizDoc>, ref: QuizRef): (string, Option<string>) {
    if ref.id in quizzes then (quizzes[ref.id].subject.GetOr("Unknown"), quizzes[ref.id].mcq.difficulty)
    else ("Unknown", Some("easy"))
  }

  function Graded(ref: QuizRef): bool { ref.isCorrect == Some(true) }

  function SubjectRowsOf(quizzes: map<string, QuizDoc>, refs: seq<QuizRef>): seq<Row<string>>
  {
    seq(|refs|, i requires 0 <= i < |refs| => Row(Placement(quizzes, refs[i]).0, Graded(refs[i]), refs[i].score.GetOr(0.0)))
  }

  function DifficultyRowsOf(quizzes: map<string, QuizDoc>, refs: seq<QuizRef>): seq<Row<Option<string>>>
  {
    seq(|refs|, i requires 0 <= i < |refs| => Row(Placement(quizzes, refs[i]).1, Graded(refs[i]), refs[i].score.GetOr(0.0)))
  }

  /** `sum(quiz["is_correct"] for quiz in quiz_ids)`, once every entry has the key. */
  function CorrectRefs(refs: seq<QuizRef>): (n: nat)
    ensures n <= |refs|
  {
    if refs == [] then 0 else CorrectRefs(refs[..|refs| - 1]) + Indicator(Graded(refs[|refs| - 1]))
  }

  /** The sum of the scores of the entries that have a "score" key. */
  function RefScoreSum(refs: seq<QuizRef>): real {
    if refs == [] then 0.0 else RefScoreSum(refs[..|refs| - 1]) + refs[|refs| - 1].score.GetOr(0.0)
  }

  /** Every entry has an "is_correct" key. */
  predicate AllAnswered(refs: seq<QuizRef>) {
    forall k :: 0 <= k < |refs| ==> refs[k].isCorrect.Some?
  }

  /** Every referenced quiz that is stored has a "subject" key. */
  predicate SubjectsPresent(quizzes: map<string, QuizDoc>, refs: seq<QuizRef>) {
    forall k :: 0 <= k < |refs| && refs[k].id in quizzes ==> quizzes[refs[k].id].subject.Some?
  }

  /** `user_metrics`. A missing user or an empty `quiz_ids` gives the "no quizzes"
      message. A reference without "is_correct", then a referenced quiz without
      "subject", makes the lookup raise, which is returned as an error. */
  function UserMetrics(users: map<string, UserDoc>, quizzes: map<string, QuizDoc>, userId: string): (r: MetricsOutcome<Option<string>>)
    ensures r == NoQuizzesTaken <==> userId !in users || users[userId].quizIds == []
    ensures r == Failed(MissingKey("is_correct")) <==>
      userId in users && users[userId].quizIds != [] && !AllAnswered(users[userId].quizIds)
    ensures r == Failed(MissingKey("subject")) <==>
      userId in users && users[userId].quizIds != [] && AllAnswered(users[userId].quizIds) &&
      !SubjectsPresent(quizzes, users[userId].quizIds)
    ensures r.Computed? ==>
      userId in users && r.metrics.quizzesTaken == |users[userId].quizIds| > 0 &&
      AllAnswered(users[userId].quizIds) && SubjectsPresent(quizzes, users[userId].quizIds)
  {
    if userId !in users || users[userId].quizIds == [] then NoQuizzesTaken
    else
      var refs := users[userId].quizIds;
      if !AllAnswered(refs) then Failed(MissingKey("is_correct"))
      else if !SubjectsPresent(quizzes, refs) then Failed(MissingKey("subject"))
      else Computed(MakeMetrics(|refs|, CorrectRefs(refs), RefScoreSum(refs),
                                Tally(SubjectRowsOf(quizzes, refs)), Tally(DifficultyRowsOf(quizzes, refs))))
  }

  /** The first pass: the score sum and the `is_correct` sum, stopping at the first
      entry without "is_correct". */
  method SumRefs(refs: seq<QuizRef>) returns (answered: bool, score: real, correct: nat)
    ensures answered == AllAnswered(refs)
    ensures answered ==> score == RefScoreSum(refs) && correct == CorrectRefs(refs)
  {
    score, correct := 0.0, 0;
    var i := 0;
    while i < |refs|
      invariant 0 <= i <= |refs|
      invariant AllAnswered(refs[..i])
      invariant score == RefScoreSum(refs[..i]) && correct == CorrectRefs(refs[..i])
    {
      assert refs[..i + 1][..i] == refs[..i];
      if refs[i].isCorrect.None? {
        return false, score, correct;
      }
      score := score + refs[i].score.GetOr(0.0);
      correct := correct + Indicator(Graded(refs[i]));
      i := i + 1;
    }
    assert refs[..i] == refs;
    answered := true;
  }

  /** The subject lookup: whether every stored quiz that `refs` names has a subject. */
  method CheckSubjects(quizzes: map<string, QuizDoc>, refs: seq<QuizRef>) returns (present: bool)
    ensures present == SubjectsPresent(quizzes, refs)
  {
    var i := 0;
    while i < |refs|
      invariant 0 <= i <= |refs|
      invariant SubjectsPresent(quizzes, refs[..i])
    {
      if refs[i].id in quizzes && quizzes[refs[i].id].subject.None? {
        return false;
      }
      i := i + 1;
    }
    assert refs[..i] == refs;
    present := true;
  }

  /** The loop that fills `subject_wise_data` and `difficulty_wise_data`. */
  method GroupRefs(quizzes: map<string, QuizDoc>, refs: seq<QuizRef>)
    returns (subjects: seq<Group<string>>, difficulties: seq<Group<Option<string>>>)
    ensures subjects == Tally(SubjectRowsOf(quizzes, refs))
    ensures difficulties == Tally(DifficultyRowsOf(quizzes, refs))
  {
    ghost var srows, drows := SubjectRowsOf(quizzes, refs), DifficultyRowsOf(quizzes, refs);
    assert |srows| == |refs| && |drows| == |refs|;
    subjects, difficulties := [], [];
    var i := 0;
    while i < |refs|
      invariant 0 <= i <= |refs|
      invariant subjects == Tally(srows[..i])
      invariant difficulties == Tally(drows[..i])
    {
      var place := Placement(quizzes, refs[i]);
      var row := Row(place.0, Graded(refs[i]), refs[i].score.GetOr(0.0));
      var drow := Row(place.1, Graded(refs[i]), refs[i].score.GetOr(0.0));
      assert srows[i] == row && drows[i] == drow;
      TallyPrefix(srows, i);
      TallyPrefix(drows, i);
      subjects := AddRow(subjects, row);
      difficulties := AddRow(difficulties, drow);
      i := i + 1;
    }
    assert srows[..i] == srows && drows[..i] == drows;
  }

  /** `user_metrics`, run against the two collections. */
  method ComputeUserMetrics(users: Users, quizzes: Quizzes, userId: string) returns (r: MetricsOutcome<Option<string>>)
    ensures r == UserMetrics(users.docs, quizzes.docs, userId)
  {
    if userId !in users.docs || users.docs[userId].quizIds == [] {
      return NoQuizzesTaken;
    }
    var refs := users.docs[userId].quizIds;
    var answered, score, correct := SumRefs(refs);
    if !answered {
      return Failed(MissingKey("is_correct"));
    }
    var present := CheckSubjects(quizzes.docs, refs);
    if !present {
      return Failed(MissingKey("subject"));
    }
    var subjects, difficulties := GroupRefs(quizzes.docs, refs);
    r := Computed(MakeMetrics(|refs|, correct, score, subjects, difficulties));
  }

  /** A computed result counts every reference once, by subject and by difficulty,
      and its accuracy is a percentage. */
  lemma UserMetricsTotals(users: map<string, UserDoc>, quizzes: map<string, QuizDoc>, userId: string)
    requires UserMetrics(users, quizzes, userId).Computed?
    ensures userId in users && TotalsAgree(UserMetrics(users, quizzes, userId).metrics, |users[userId].quizIds|)
  {
    var refs := users[userId].quizIds;
    TalliedTotalsAgree(|refs|, CorrectRefs(refs), RefScoreSum(refs), SubjectRowsOf(quizzes, refs), DifficultyRowsOf(quizzes, refs));
  }

  /** A subject and a difficulty have an entry exactly when some reference is
      placed under them, and each entry is computed from its own references only. */
  lemma ScriptGroupEntries(quizzes: map<string, QuizDoc>, refs: seq<QuizRef>, s: string, d: Option<string>)
    ensures Find(Tally(SubjectRowsOf(quizzes, refs)), s).Some? <==> exists i :: 0 <= i < |refs| && Placement(quizzes, refs[i]).0 == s
    ensures Find(Tally(SubjectRowsOf(quizzes, refs)), s).Some? ==>
      EntryFor(SubjectRowsOf(quizzes, refs), s, Stats(Find(Tally(SubjectRowsOf(quizzes, refs)), s).value))
    ensures Find(Tally(DifficultyRowsOf(quizzes, refs)), d).Some? <==> exists i :: 0 <= i < |refs| && Placement(quizzes, refs[i]).1 == d
    ensures Find(Tally(DifficultyRowsOf(quizzes, refs)), d).Some? ==>
      EntryFor(DifficultyRowsOf(quizzes, refs), d, Stats(Find(Tally(DifficultyRowsOf(quizzes, refs)), d).value))
  {
    var subjects, difficulties := SubjectRowsOf(quizzes, refs), DifficultyRowsOf(quizzes, refs);
    GroupEntry(subjects, s);
    GroupEntry(difficulties, d);
    if exists i :: 0 <= i < |refs| && Placement(quizzes, refs[i]).0 == s {
      var i :| 0 <= i < |refs| && Placement(quizzes, refs[i]).0 == s;
      assert subjects[i].key == s;
    }
    if exists i :: 0 <= i < |refs| && Placement(quizzes, refs[i]).1 == d {
      var i :| 0 <= i < |refs| && Placement(quizzes, refs[i]).1 == d;
      assert difficulties[i].key == d;
    }
  }

  /** A reference to a quiz that is not stored is counted under subject "Unknown"
      and difficulty "easy". */
  lemma MissingQuizDefaults(quizzes: map<string, QuizDoc>, refs: seq<QuizRef>, k: nat)
    requires k < |refs| && refs[k].id !in quizzes
    ensures Find(Tally(SubjectRowsOf(quizzes, refs)), "Unknown").Some?
    ensures Find(Tally(DifficultyRowsOf(quizzes, refs)), Some("easy")).Some?
  {
    ScriptGroupEntries(quizzes, refs, "Unknown", Some("easy"));
  }

  /** A reference that `save_quiz` has just pushed carries no "is_correct", so once a
      user has saved a quiz the script fails on that user until the reference is
      graded. */
  lemma SavedQuizBlocksScript(quizzes: map<string, QuizDoc>, users: map<string, UserDoc>, mcq: Mcq, userId: string, freshId: string, now: int)
    requires userId in users
    ensures var q := Stamped(mcq, userId, freshId, now);
      UserMetrics(PushQuiz(users, userId, BackReference(q)), quizzes[freshId := q], userId) == Failed(MissingKey("is_correct"))
  {
    var q := Stamped(mcq, userId, freshId, now);
    var refs := PushQuiz(users, userId, BackReference(q))[userId].quizIds;
    assert refs[|refs| - 1].isCorrect.None?;
  }
}
