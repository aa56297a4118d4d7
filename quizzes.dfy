/** Saving an extracted quiz: the record is stamped with a fresh id, its owner
    and the time, inserted into `quizzes`, and referenced from the owner's
    `quiz_ids`. */
module QuizStore {
  import opened Common
  import opened Preprocessing
  import opened Documents

  /** The document `save_quiz` stores for `mcq`: the record itself, unchanged,
      with the three stamped keys. */
  function Stamped(mcq: Mcq, userId: string, id: string, now: int): QuizDoc
  {
    QuizDoc(id, userId, now, mcq, None)
  }

  /** The back-reference pushed onto the owner's `quiz_ids`. */
  function BackReference(q: QuizDoc): QuizRef
  {
    QuizRef(q.id, q.createdAt, None, None)
  }

  /** `save_quiz`. An `_id` that is already stored makes the insert raise before
      anything changes. Otherwise exactly one quiz is inserted and the owner (if
      there is one) gains one reference to it; an insert the store did not
      acknowledge raises only after that reference was pushed. */
  method SaveQuiz(quizzes: Quizzes, users: Users, mcq: Mcq, userId: string, freshId: string, now: int, acknowledged: bool)
    returns (r: Result<QuizDoc>)
    modifies quizzes, users
    ensures freshId in old(quizzes.docs) ==>
      r == Err(DuplicateKey(freshId)) && quizzes.docs == old(quizzes.docs) && users.docs == old(users.docs)
    ensures freshId !in old(quizzes.docs) ==>
      var q := Stamped(mcq, userId, freshId, now);
      quizzes.docs == old(quizzes.docs)[freshId := q] &&
      users.docs == PushQuiz(old(users.docs), userId, BackReference(q)) &&
      r == (if acknowledged then Ok(q) else Err(NotAcknowledged))
  {
    var q := Stamped(mcq, userId, freshId, now);
    if freshId in quizzes.docs {
      return Err(DuplicateKey(freshId));
    }
    quizzes.docs := quizzes.docs[freshId := q];
    users.docs := PushQuiz(users.docs, userId, BackReference(q));
    if !acknowledged {
      return Err(NotAcknowledged);
    }
    r := Ok(q);
  }

  /** After a save, the owner's newest quiz reference names the saved quiz, and the
      quiz it names is stored with the record that was passed in. */
  lemma SavedQuizIsReferenced(quizzes: map<string, QuizDoc>, users: map<string, UserDoc>, mcq: Mcq, userId: string, freshId: string, now: int)
    requires freshId !in quizzes && userId in users
    ensures var q := Stamped(mcq, userId, freshId, now);
      var after := PushQuiz(users, userId, BackReference(q));
      var refs := after[userId].quizIds;
      |refs| == |users[userId].quizIds| + 1 &&
      refs[|refs| - 1].id in quizzes[freshId := q] &&
      quizzes[freshId := q][refs[|refs| - 1].id].mcq == mcq &&
      quizzes[freshId := q][refs[|refs| - 1].id].createdAt == refs[|refs| - 1].createdAt
  {
  }
}
