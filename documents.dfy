/** The documents of the `users` and `quizzes` collections and the in-memory
    collections that hold them. A collection is a map from `_id` to document;
    `update_one` with `$push` on a missing `_id` (no upsert) changes nothing. */
module Documents {
  import opened Common
  import opened Preprocessing

  /** An entry of a user's `conversation_ids`. */
  datatype ConversationRef = ConversationRef(id: string, createdAt: int)

  /** An entry of a user's `quiz_ids`; `is_correct` and `score` are keys that a
      saved quiz does not set, so each may be absent. */
  datatype QuizRef = QuizRef(id: string, createdAt: int, isCorrect: Option<bool>, score: Option<real>)

  /** A user profile. `name`, `email` and `photo_url` may be null (a Google
      sign-in copies them from the token), and `grade` is a key that no route
      of the core writes. */
  datatype UserDoc = UserDoc(
    id: string,
    name: Option<string>,
    email: Option<string>,
    photoUrl: Option<string>,
    createdAt: int,
    grade: Option<string>,
    conversationIds: seq<ConversationRef>,
    quizIds: seq<QuizRef>)

  /** A saved quiz: the extracted record stamped with its id, owner and time.
      `subject` is a key that a saved quiz does not carry. */
  datatype QuizDoc = QuizDoc(id: string, userId: string, createdAt: int, mcq: Mcq, subject: Option<string>)

  /** The `users` collection. */
  class Users {
    var docs: map<string, UserDoc>

    constructor (docs0: map<string, UserDoc>)
      ensures docs == docs0
    {
      docs := docs0;
    }
  }

  /** The `quizzes` collection. */
  class Quizzes {
    var docs: map<string, QuizDoc>

    constructor (docs0: map<string, QuizDoc>)
      ensures docs == docs0
    {
      docs := docs0;
    }
  }

  /** `update_one({"_id": id}, {"$push": {"conversation_ids": ref}})`. */
  function PushConversation(docs: map<string, UserDoc>, id: string, ref: ConversationRef): (r: map<string, UserDoc>)
    ensures r.Keys == docs.Keys
    ensures id in docs ==> r[id] == docs[id].(conversationIds := docs[id].conversationIds + [ref])
    ensures forall k :: k in docs && k != id ==> r[k] == docs[k]
  {
    if id in docs then docs[id := docs[id].(conversationIds := docs[id].conversationIds + [ref])] else docs
  }

  /** `update_one({"_id": id}, {"$push": {"quiz_ids": ref}})`. */
  function PushQuiz(docs: map<string, UserDoc>, id: string, ref: QuizRef): (r: map<string, UserDoc>)
    ensures r.Keys == docs.Keys
    ensures id in docs ==> r[id] == docs[id].(quizIds := docs[id].quizIds + [ref])
    ensures forall k :: k in docs && k != id ==> r[k] == docs[k]
  {
    if id in docs then docs[id := docs[id].(quizIds := docs[id].quizIds + [ref])] else docs
  }
}
