/** The chat router: a user's conversation ids, newest-first pagination over a
    conversation's log, and the per-turn dispatch of the agent's streamed chunks
    to the client. */
module Chat {
  import opened Common
  import opened Preprocessing
  import opened Documents
  import opened ChatHistory
  import opened QuizStore
  import opened Auth

  const DefaultGrade: string := "10th"

  // ----- Conversation ids -----

  /** `user_get_or_create_conversation_id`: the user's first conversation id, or a
      fresh one pushed for a user with none; together with the user's grade,
      "10th" when the profile has none. A missing user is a 404. */
  method GetOrCreateConversationId(users: Users, userId: string, freshId: string, now: int)
    returns (r: Result<(string, string)>)
    modifies users
    ensures userId !in old(users.docs) ==>
      r == Err(HttpStatus(NotFound, "User not found")) && users.docs == old(users.docs)
    ensures userId in old(users.docs) ==>
      var u := old(users.docs)[userId];
      var grade := u.grade.GetOr(DefaultGrade);
      if u.conversationIds == [] then
        r == Ok((freshId, grade)) &&
        users.docs == old(users.docs)[userId := u.(conversationIds := [ConversationRef(freshId, now)])]
      else
        r == Ok((u.conversationIds[0].id, grade)) && users.docs == old(users.docs)
  {
    if userId !in users.docs {
      return Err(HttpStatus(NotFound, "User not found"));
    }
    var u := users.docs[userId];
    var grade := u.grade.GetOr(DefaultGrade);
    if u.conversationIds == [] {
      users.docs := PushConversation(users.docs, userId, ConversationRef(freshId, now));
      assert u.conversationIds + [ConversationRef(freshId, now)] == [ConversationRef(freshId, now)];
      return Ok((freshId, grade));
    }
    r := Ok((u.conversationIds[0].id, grade));
  }

  /** `chat`: every call pushes exactly one fresh conversation id onto the
      caller's list and returns it; for an unknown user the push changes nothing.
      Claims without a uid make the lookup `current_user["uid"]` raise `KeyError`
      before anything is written. */
  method NewConversation(users: Users, caller: Claims, freshId: string, now: int) returns (r: Result<string>)
    modifies users
    ensures caller.uid.None? ==> r == Err(MissingKey("uid")) && users.docs == old(users.docs)
    ensures caller.uid.Some? ==>
      r == Ok(freshId) && users.docs == PushConversation(old(users.docs), caller.uid.value, ConversationRef(freshId, now))
  {
    if caller.uid.None? {
      return Err(MissingKey("uid"));
    }
    users.docs := PushConversation(users.docs, caller.uid.value, ConversationRef(freshId, now));
    r := Ok(freshId);
  }

  // ----- Pagination -----

  /** A page of a conversation, newest message first. */
  datatype Page = Page(conversationId: string, messages: seq<StoredMessage>, totalMessages: nat)

  function Max(a: int, b: int): int { if a < b then b else a }
  function Min(a: int, b: int): int { if a < b then a else b }

  /** The first stored position a page reads: `limit` positions before the end
      of the window that skips `offset` newest messages, or the oldest message
      when fewer are left. */
  function WindowStart(total: nat, limit: int, offset: int): (start: nat)
    ensures start as int >= total - offset - limit
    ensures start == 0 || start as int == total - offset - limit
  {
    Max(total - offset - limit, 0)
  }

  /** How many positions a page asks for; not positive when the offset is at or
      past the end or the limit is not positive. */
  function WindowCount(total: nat, limit: int, offset: int): (count: int)
    ensures count <= limit && count <= total - offset
    ensures count == limit || count == total - offset
  {
    Min(limit, total - offset)
  }

  /** The projection `{"$slice": [skip, n]}`: at most `n` entries from position
      `skip`. The store refuses a count that is not positive. */
  function SliceFrom<T>(s: seq<T>, skip: nat, n: int): (r: Result<seq<T>>)
    ensures r.Err? <==> n <= 0
    ensures r.Ok? ==> |r.value| <= n
    ensures r.Ok? ==> forall k :: 0 <= k < |r.value| ==> skip + k < |s| && r.value[k] == s[skip + k]
    ensures r.Ok? ==> |r.value| == n || skip + |r.value| >= |s|
  {
    if n <= 0 then Err(SliceRejected(n))
    else if skip >= |s| then Ok([])
    else Ok(s[skip..Min(skip + n, |s|)])
  }

  function Reverse<T>(s: seq<T>): (r: seq<T>)
    ensures |r| == |s|
    ensures forall k :: 0 <= k < |s| ==> r[k] == s[|s| - 1 - k]
  {
    if s == [] then [] else Reverse(s[1..]) + [s[0]]
  }

  /** `get_paginated_conversation`: an unknown conversation is a 404 before any
      slice is read; otherwise the window is read and returned newest first,
      with the total length of the log. */
  function GetPaginatedConversation(docs: map<string, seq<StoredMessage>>, id: string, limit: int, offset: int): (r: Result<Page>)
    ensures id !in docs ==> r == Err(HttpStatus(NotFound, "Conversation not found"))
    ensures r.Ok? ==>
      id in docs && r.value.conversationId == id && r.value.totalMessages == |docs[id]| &&
      |r.value.messages| <= limit && |r.value.messages| <= |docs[id]|
  {
    if id !in docs then Err(HttpStatus(NotFound, "Conversation not found"))
    else
      var total := |docs[id]|;
      match SliceFrom(docs[id], WindowStart(total, limit, offset), WindowCount(total, limit, offset))
      case Err(e) => Err(e)
      case Ok(w) => Ok(Page(id, Reverse(w), total))
  }

  /** For an offset inside the log and a positive limit, the page skips the
      `offset` newest messages and holds the `limit` messages before them (fewer
      at the start of the log), newest first, and reports the full length. */
  lemma PageWindow(docs: map<string, seq<StoredMessage>>, id: string, limit: int, offset: int)
    requires id in docs && 0 <= offset < |docs[id]| && limit > 0
    ensures var total := |docs[id]|;
      var r := GetPaginatedConversation(docs, id, limit, offset);
      r.Ok? &&
      r.value.totalMessages == total &&
      r.value.messages == Reverse(docs[id][Max(total - offset - limit, 0)..total - offset]) &&
      |r.value.messages| == Min(limit, total - offset)
  {
    var total := |docs[id]|;
    var start := WindowStart(total, limit, offset);
    var count := WindowCount(total, limit, offset);
    assert start + count == total - offset;
  }

  /** Given a known conversation, a page fails exactly when the count it asks for
      is not positive: an offset at or past the end, or a limit that is not
      positive. */
  lemma PageRejected(docs: map<string, seq<StoredMessage>>, id: string, limit: int, offset: int)
    requires id in docs
    ensures GetPaginatedConversation(docs, id, limit, offset).Err? <==> limit <= 0 || offset >= |docs[id]|
  {
  }

  /** An unknown conversation is a 404, whatever the window. */
  lemma UnknownConversation(docs: map<string, seq<StoredMessage>>, id: string, limit: int, offset: int)
    requires id !in docs
    ensures GetPaginatedConversation(docs, id, limit, offset) == Err(HttpStatus(404, "Conversation not found"))
  {
  }

  /** On a log of 100 messages, the first page of 10 holds positions 99 down to
      90, and the page at offset 95 holds positions 4 down to 0. */
  lemma PageExamples(docs: map<string, seq<StoredMessage>>, id: string)
    requires id in docs && |docs[id]| == 100
    ensures GetPaginatedConversation(docs, id, 10, 0) == Ok(Page(id, Reverse(docs[id][90..100]), 100))
    ensures GetPaginatedConversation(docs, id, 10, 95) == Ok(Page(id, Reverse(docs[id][0..5]), 100))
  {
    PageWindow(docs, id, 10, 0);
    PageWindow(docs, id, 10, 95);
  }

  // ----- Stream dispatch -----

  /** A streamed chunk: whether it is an AI message chunk, the node that produced
      it (the `langgraph_node` metadata, possibly missing) and its text. */
  datatype Chunk = Chunk(isAiChunk: bool, node: Option<string>, content: string)

  /** A frame sent to the client: a streamed piece of a node's reply, or the saved quiz. */
  datatype Frame = StreamFrame(text: string, fromAgent: string) | QuizFrame(quiz: QuizDoc)

  predicate IsStreamed(c: Chunk) {
    c.isAiChunk && (c.node == Some("answering_node") || c.node == Some("fallback_node"))
  }

  predicate IsQuizPart(c: Chunk) {
    c.isAiChunk && c.node == Some("quiz_generation")
  }

  /** The frames forwarded for a chunk sequence: one per answering or fallback
      chunk, in arrival order, tagged with its node. */
  function Forwarded(chunks: seq<Chunk>): (r: seq<Frame>)
    ensures |r| <= |chunks|
    ensures forall k :: 0 <= k < |r| ==> r[k].StreamFrame? && r[k].fromAgent in {"answering_node", "fallback_node"}
  {
    if chunks == [] then []
    else
      var c := chunks[|chunks| - 1];
      Forwarded(chunks[..|chunks| - 1]) + (if IsStreamed(c) then [StreamFrame(c.content, c.node.value)] else [])
  }

  /** The quiz text of a chunk sequence: its quiz-generation chunks, concatenated in order. */
  function QuizText(chunks: seq<Chunk>): string {
    if chunks == [] then []
    else
      var c := chunks[|chunks| - 1];
      QuizText(chunks[..|chunks| - 1]) + (if IsQuizPart(c) then c.content else [])
  }

  /** The quiz text is empty exactly when every quiz-generation chunk is, so a
      quiz is saved only after a quiz chunk with some text. */
  lemma {:induction false} QuizTextEmpty(chunks: seq<Chunk>)
    ensures QuizText(chunks) == [] <==> forall j :: 0 <= j < |chunks| && IsQuizPart(chunks[j]) ==> chunks[j].content == []
  {
    if chunks != [] {
      var n := |chunks| - 1;
      assert forall j :: 0 <= j < n ==> chunks[..n][j] == chunks[j];
      QuizTextEmpty(chunks[..n]);
    }
  }

  /** Forwarding works chunk by chunk: the frames of two chunk sequences one
      after the other are those of each, one after the other. */
  lemma {:induction false} ForwardedAppend(a: seq<Chunk>, b: seq<Chunk>)
    ensures Forwarded(a + b) == Forwarded(a) + Forwarded(b)
    decreases |b|
  {
    if b == [] {
      assert a + b == a;
    } else {
      var n := |b| - 1;
      assert (a + b)[..|a + b| - 1] == a + b[..n];
      assert (a + b)[|a + b| - 1] == b[n];
      ForwardedAppend(a, b[..n]);
    }
  }

  /** Likewise the quiz text of two chunk sequences is their two quiz texts
      concatenated. */
  lemma {:induction false} QuizTextAppend(a: seq<Chunk>, b: seq<Chunk>)
    ensures QuizText(a + b) == QuizText(a) + QuizText(b)
    decreases |b|
  {
    if b == [] {
      assert a + b == a;
    } else {
      var n := |b| - 1;
      assert (a + b)[..|a + b| - 1] == a + b[..n];
      assert (a + b)[|a + b| - 1] == b[n];
      QuizTextAppend(a, b[..n]);
    }
  }

  /** Nothing streamed is dropped: a run of answering and fallback chunks is
      forwarded one frame per chunk, in order, with the chunk's text and node. */
  lemma {:induction false} ForwardedKeepsAll(chunks: seq<Chunk>)
    requires forall k :: 0 <= k < |chunks| ==> IsStreamed(chunks[k])
    ensures |Forwarded(chunks)| == |chunks|
    ensures forall k :: 0 <= k < |chunks| ==>
      Forwarded(chunks)[k].StreamFrame? && Forwarded(chunks)[k].text == chunks[k].content &&
      Some(Forwarded(chunks)[k].fromAgent) == chunks[k].node
  {
    if chunks != [] {
      var n := |chunks| - 1;
      assert forall k :: 0 <= k < n ==> chunks[..n][k] == chunks[k];
      ForwardedKeepsAll(chunks[..n]);
    }
  }

  /** Chunks that are neither streamed nor quiz parts (other nodes, missing
      metadata, non-AI chunks) leave no trace. */
  lemma {:induction false} IgnoredChunks(chunks: seq<Chunk>)
    requires forall k :: 0 <= k < |chunks| ==> !IsStreamed(chunks[k]) && !IsQuizPart(chunks[k])
    ensures Forwarded(chunks) == [] && QuizText(chunks) == []
  {
    if chunks != [] {
      IgnoredChunks(chunks[..|chunks| - 1]);
    }
  }

  /** One chunk on its own: a streamed chunk gives its frame and no quiz text,
      a quiz-generation chunk gives its content and no frame, and any other
      chunk gives neither. With `ForwardedAppend` and `QuizTextAppend` this
      fixes both folds on every chunk sequence. */
  lemma OneChunk(c: Chunk)
    ensures Forwarded([c]) == if IsStreamed(c) then [StreamFrame(c.content, c.node.value)] else []
    ensures QuizText([c]) == if IsQuizPart(c) then c.content else []
  {
    assert [c][..0] == [];
  }

  /** The quiz-generation chunks of a sequence, in arrival order. */
  function QuizParts(chunks: seq<Chunk>): (r: seq<Chunk>)
    ensures forall k :: 0 <= k < |r| ==> IsQuizPart(r[k])
  {
    if chunks == [] then []
    else (if IsQuizPart(chunks[0]) then [chunks[0]] else []) + QuizParts(chunks[1..])
  }

  /** The contents of a chunk sequence, joined from first to last. */
  function Joined(chunks: seq<Chunk>): string {
    if chunks == [] then [] else chunks[0].content + Joined(chunks[1..])
  }

  /** The quiz text is the contents of the quiz-generation chunks joined in
      arrival order, and none of those chunks is ever forwarded. */
  lemma QuizTextIsJoinedParts(chunks: seq<Chunk>)
    ensures QuizText(chunks) == Joined(QuizParts(chunks))
    ensures Forwarded(QuizParts(chunks)) == []
  {
    QuizTextJoined(chunks);
    UnstreamedNotForwarded(QuizParts(chunks));
  }

  lemma {:induction false} QuizTextJoined(chunks: seq<Chunk>)
    ensures QuizText(chunks) == Joined(QuizParts(chunks))
  {
    if chunks != [] {
      var c, rest := chunks[0], chunks[1..];
      assert chunks == [c] + rest;
      var head := if IsQuizPart(c) then [c] else [];
      assert QuizParts(chunks) == head + QuizParts(rest);
      QuizTextJoined(rest);
      QuizTextAppend([c], rest);
      OneChunk(c);
      JoinedCons(head, QuizParts(rest));
    }
  }

  /** Joining distributes over a prefix of at most one chunk. */
  lemma JoinedCons(head: seq<Chunk>, rest: seq<Chunk>)
    requires |head| <= 1
    ensures Joined(head + rest) == (if head == [] then [] else head[0].content) + Joined(rest)
  {
    if head != [] {
      assert (head + rest)[0] == head[0] && (head + rest)[1..] == rest;
    } else {
      assert head + rest == rest;
    }
  }

  /** Chunks none of which is streamed are not forwarded at all. */
  lemma {:induction false} UnstreamedNotForwarded(chunks: seq<Chunk>)
    requires forall k :: 0 <= k < |chunks| ==> !IsStreamed(chunks[k])
    ensures Forwarded(chunks) == []
  {
    if chunks != [] {
      var n := |chunks| - 1;
      assert forall k :: 0 <= k < n ==> chunks[..n][k] == chunks[k];
      UnstreamedNotForwarded(chunks[..n]);
    }
  }

  /** The `for` loop over the agent's stream for one turn. */
  method DispatchChunks(chunks: seq<Chunk>) returns (frames: seq<Frame>, generatedQuiz: string)
    ensures frames == Forwarded(chunks)
    ensures generatedQuiz == QuizText(chunks)
  {
    frames, generatedQuiz := [], "";
    var i := 0;
    while i < |chunks|
      invariant 0 <= i <= |chunks|
      invariant frames == Forwarded(chunks[..i])
      invariant generatedQuiz == QuizText(chunks[..i])
    {
      assert chunks[..i + 1][..i] == chunks[..i];
      var c := chunks[i];
      if c.isAiChunk {
        if c.node == Some("answering_node") {
          frames := frames + [StreamFrame(c.content, "answering_node")];
        } else if c.node == Some("quiz_generation") {
          generatedQuiz := generatedQuiz + c.content;
        } else if c.node == Some("fallback_node") {
          frames := frames + [StreamFrame(c.content, "fallback_node")];
        }
      }
      i := i + 1;
    }
    assert chunks[..i] == chunks;
  }

  /** One turn of the tutor socket after the stream: the forwarded frames, then,
      when the quiz text is not empty, the extracted quiz is saved and sent as one
      quiz frame. `failure` is the error that ends the socket, if any. */
  method StreamTurn(chunks: seq<Chunk>, quizzes: Quizzes, users: Users, userId: string, freshId: string, now: int, acknowledged: bool)
    returns (frames: seq<Frame>, failure: Option<Failure>)
    modifies quizzes, users
    ensures QuizText(chunks) == [] ==>
      frames == Forwarded(chunks) && failure == None &&
      quizzes.docs == old(quizzes.docs) && users.docs == old(users.docs)
    ensures QuizText(chunks) != [] && freshId in old(quizzes.docs) ==>
      frames == Forwarded(chunks) && failure == Some(DuplicateKey(freshId)) &&
      quizzes.docs == old(quizzes.docs) && users.docs == old(users.docs)
    ensures QuizText(chunks) != [] && freshId !in old(quizzes.docs) ==>
      var q := Stamped(ExtractMcq(QuizText(chunks)), userId, freshId, now);
      quizzes.docs == old(quizzes.docs)[freshId := q] &&
      users.docs == PushQuiz(old(users.docs), userId, BackReference(q)) &&
      if acknowledged then frames == Forwarded(chunks) + [QuizFrame(q)] && failure == None
      else frames == Forwarded(chunks) && failure == Some(NotAcknowledged)
    ensures failure != None ==> frames == Forwarded(chunks)
    ensures forall k :: 0 <= k < |frames| - 1 ==> !frames[k].QuizFrame?
  {
    var generatedQuiz;
    frames, generatedQuiz := DispatchChunks(chunks);
    failure := None;
    if generatedQuiz != [] {
      var saved := SaveQuiz(quizzes, users, ExtractMcq(generatedQuiz), userId, freshId, now, acknowledged);
      match saved
      case Err(e) => failure := Some(e);
      case Ok(q) => frames := frames + [QuizFrame(q)];
    }
  }
}
