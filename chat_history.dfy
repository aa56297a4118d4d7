/** The chat history of a conversation, kept as one document per session whose
    `messages` array is the log of turns, and its Firestore variant. */
module ChatHistory {
  import opened Common

  /** A chat message. Only human and AI messages are written by the history;
      `Other` stands for every other message class (system, tool, ...). */
  datatype Message = Human(content: string) | Ai(content: string) | Other(kind: string, content: string)

  /** A stored entry: `{"type": ..., "data": {"content": ...}, "timestamp": ...}`. */
  datatype StoredMessage = StoredMessage(msgType: string, content: string, timestamp: int)

  /** A Firestore entry, which has no timestamp. */
  datatype FsEntry = FsEntry(msgType: string, content: string)

  function TypeName(m: Message): string {
    match m
    case Human(_) => "human"
    case Ai(_) => "ai"
    case Other(k, _) => k
  }

  /** `_message_to_dict`, stamped with the current time `now`. */
  function MessageToDict(m: Message, now: int): StoredMessage
  {
    StoredMessage(TypeName(m), m.content, now)
  }

  /** `_dict_to_message`: a human or AI message, or a ValueError for any other type. */
  function DictToMessage(msgType: string, content: string): (r: Result<Message>)
    ensures r.Ok? <==> msgType == "human" || msgType == "ai"
    ensures r.Ok? ==> r.value.content == content && TypeName(r.value) == msgType && !r.value.Other?
    ensures r.Err? ==> r.error == UnsupportedMessageType(msgType)
  {
    if msgType == "human" then Ok(Human(content))
    else if msgType == "ai" then Ok(Ai(content))
    else Err(UnsupportedMessageType(msgType))
  }

  /** Converting a human or AI message to its stored form and back gives it back. */
  lemma MessageRoundTrip(m: Message, now: int)
    requires !m.Other?
    ensures DictToMessage(MessageToDict(m, now).msgType, MessageToDict(m, now).content) == Ok(m)
  {
  }

  /** Converting a stored entry that converts at all, and storing the result with
      the entry's own timestamp, gives the entry back. */
  lemma StoredRoundTrip(d: StoredMessage)
    requires DictToMessage(d.msgType, d.content).Ok?
    ensures MessageToDict(DictToMessage(d.msgType, d.content).value, d.timestamp) == d
  {
  }

  /** `[self._dict_to_message(msg) for msg in messages]`: the first entry of an
      unsupported type raises. */
  function ConvertAll(ds: seq<StoredMessage>): (r: Result<seq<Message>>)
    ensures r.Ok? ==> |r.value| == |ds|
    ensures r.Ok? ==> forall k :: 0 <= k < |ds| ==> DictToMessage(ds[k].msgType, ds[k].content) == Ok(r.value[k])
    ensures r.Ok? <==> forall k :: 0 <= k < |ds| ==> DictToMessage(ds[k].msgType, ds[k].content).Ok?
    ensures r.Err? ==> r.error.UnsupportedMessageType?
  {
    if ds == [] then Ok([])
    else
      match DictToMessage(ds[0].msgType, ds[0].content)
      case Err(e) => Err(e)
      case Ok(m) =>
        match ConvertAll(ds[1..])
        case Err(e) => Err(e)
        case Ok(ms) =>
          assert forall k :: 1 <= k < |ds| ==> ds[k] == ds[1..][k - 1];
          Ok([m] + ms)
  }

  // ----- The session log -----

  /** The `sessions` collection: each session's `messages` array. */
  class SessionStore {
    var docs: map<string, seq<StoredMessage>>

    constructor (docs0: map<string, seq<StoredMessage>>)
      ensures docs == docs0
    {
      docs := docs0;
    }
  }

  /** `find_one` then `insert_one({"_id": id, "messages": []})` when nothing was found. */
  function OpenSession(docs: map<string, seq<StoredMessage>>, id: string): (r: map<string, seq<StoredMessage>>)
    ensures id in r && r.Keys == docs.Keys + {id}
    ensures id in docs ==> r == docs
    ensures id !in docs ==> r[id] == []
    ensures forall k :: k in docs ==> r[k] == docs[k]
  {
    if id in docs then docs else docs[id := []]
  }

  /** `update_one({"_id": id}, {"$push": {"messages": e}})`; nothing happens when
      the session has no document. */
  function Append(docs: map<string, seq<StoredMessage>>, id: string, e: StoredMessage): (r: map<string, seq<StoredMessage>>)
    ensures r.Keys == docs.Keys
    ensures id in docs ==> r[id] == docs[id] + [e]
    ensures forall k :: k in docs && k != id ==> r[k] == docs[k]
  {
    if id in docs then docs[id := docs[id] + [e]] else docs
  }

  /** The projection `{"$slice": -n}`: the last `n` entries, or all when fewer. */
  function Tail<T>(s: seq<T>, n: nat): (r: seq<T>)
    ensures |r| == if n < |s| then n else |s|
    ensures r == s[|s| - |r|..]
  {
    if n < |s| then s[|s| - n..] else s
  }

  predicate SortedByTime(s: seq<StoredMessage>) {
    forall j, k :: 0 <= j < k < |s| ==> s[j].timestamp <= s[k].timestamp
  }

  /** Places `x` after every entry of `s` whose timestamp is not later than its own. */
  function InsertByTime(s: seq<StoredMessage>, x: StoredMessage): (r: seq<StoredMessage>)
    ensures |r| == |s| + 1
  {
    if s == [] then [x]
    else if s[|s| - 1].timestamp <= x.timestamp then s + [x]
    else InsertByTime(s[..|s| - 1], x) + [s[|s| - 1]]
  }

  /** Inserting adds `x` and loses nothing. */
  lemma {:induction false} InsertByTimePermutes(s: seq<StoredMessage>, x: StoredMessage)
    ensures multiset(InsertByTime(s, x)) == multiset(s) + multiset{x}
  {
    if s != [] && s[|s| - 1].timestamp > x.timestamp {
      var n := |s| - 1;
      InsertByTimePermutes(s[..n], x);
      assert s == s[..n] + [s[n]];
    }
  }

  /** `list.sort(key=timestamp)`: an insertion sort, stable as Python's is (see
      `SortByTimeStable`). */
  function SortByTime(s: seq<StoredMessage>): (r: seq<StoredMessage>)
    ensures |r| == |s|
  {
    if s == [] then []
    else InsertByTime(SortByTime(s[..|s| - 1]), s[|s| - 1])
  }

  /** Sorting is a permutation. */
  lemma {:induction false} SortByTimePermutes(s: seq<StoredMessage>)
    ensures multiset(SortByTime(s)) == multiset(s)
  {
    if s != [] {
      var n := |s| - 1;
      SortByTimePermutes(s[..n]);
      InsertByTimePermutes(SortByTime(s[..n]), s[n]);
      assert s == s[..n] + [s[n]];
    }
  }

  lemma {:induction false} InsertByTimeSorted(s: seq<StoredMessage>, x: StoredMessage)
    requires SortedByTime(s)
    ensures SortedByTime(InsertByTime(s, x))
    ensures InsertByTime(s, x)[|s|] == if s != [] && s[|s| - 1].timestamp > x.timestamp then s[|s| - 1] else x
    decreases |s|
  {
    if s == [] {
    } else if s[|s| - 1].timestamp <= x.timestamp {
      AppendSorted(s, x);
    } else {
      var n := |s| - 1;
      var p := s[..n];
      SortedPrefix(s, n);
      InsertByTimeSorted(p, x);
      var r := InsertByTime(p, x);
      if n > 0 {
        assert p[n - 1] == s[n - 1];
      }
      assert r[|r| - 1].timestamp <= s[n].timestamp;
      AppendSorted(r, s[n]);
    }
  }

  /** Every prefix of a log in time order is in time order. */
  lemma SortedPrefix(s: seq<StoredMessage>, n: nat)
    requires SortedByTime(s) && n <= |s|
    ensures SortedByTime(s[..n])
  {
    forall j, k | 0 <= j < k < n
      ensures s[..n][j].timestamp <= s[..n][k].timestamp
    {
      assert s[..n][j] == s[j] && s[..n][k] == s[k];
    }
  }

  /** The window the history reads is in timestamp order and has the same
      entries as before sorting. */
  lemma {:induction false} SortByTimeSorted(s: seq<StoredMessage>)
    ensures SortedByTime(SortByTime(s))
  {
    if s != [] {
      SortByTimeSorted(s[..|s| - 1]);
      InsertByTimeSorted(SortByTime(s[..|s| - 1]), s[|s| - 1]);
    }
  }

  /** Sorting a log that is already in timestamp order changes nothing. */
  lemma {:induction false} SortByTimeOfSorted(s: seq<StoredMessage>)
    requires SortedByTime(s)
    ensures SortByTime(s) == s
  {
    if s != [] {
      var n := |s| - 1;
      var p := s[..n];
      SortedPrefix(s, n);
      SortByTimeOfSorted(p);
      if n > 0 {
        assert p[n - 1] == s[n - 1];
      }
      assert InsertByTime(p, s[n]) == p + [s[n]];
      assert s == p + [s[n]];
    }
  }

  /** The entries of `s` with timestamp `t`, in their order. */
  function AtTime(s: seq<StoredMessage>, t: int): seq<StoredMessage> {
    if s == [] then []
    else AtTime(s[..|s| - 1], t) + (if s[|s| - 1].timestamp == t then [s[|s| - 1]] else [])
  }

  lemma {:induction false} AtTimeAppend(a: seq<StoredMessage>, b: seq<StoredMessage>, t: int)
    ensures AtTime(a + b, t) == AtTime(a, t) + AtTime(b, t)
    decreases |b|
  {
    if b == [] {
      assert a + b == a;
    } else {
      var n := |b| - 1;
      assert (a + b)[..|a + b| - 1] == a + b[..n];
      assert (a + b)[|a + b| - 1] == b[n];
      AtTimeAppend(a, b[..n], t);
    }
  }

  /** Inserting `x` leaves the entries of every other timestamp in their order,
      and puts `x` after the entries that share its timestamp. */
  lemma {:induction false} InsertByTimeStable(s: seq<StoredMessage>, x: StoredMessage, t: int)
    ensures AtTime(InsertByTime(s, x), t) == AtTime(s, t) + (if x.timestamp == t then [x] else [])
    decreases |s|
  {
    var fx: seq<StoredMessage> := if x.timestamp == t then [x] else [];
    if s == [] || s[|s| - 1].timestamp <= x.timestamp {
      AtTimeAppend(s, [x], t);
      assert AtTime([x], t) == AtTime([], t) + fx;
    } else {
      var n := |s| - 1;
      var fl: seq<StoredMessage> := if s[n].timestamp == t then [s[n]] else [];
      InsertByTimeStable(s[..n], x, t);
      AtTimeAppend(InsertByTime(s[..n], x), [s[n]], t);
      assert AtTime([s[n]], t) == AtTime([], t) + fl;
      assert s[..|s| - 1] == s[..n];
      assert fl == [] || fx == [];
    }
  }

  /** The sort is stable: the entries that share a timestamp come out in the order
      they were stored in. */
  lemma {:induction false} SortByTimeStable(s: seq<StoredMessage>, t: int)
    ensures AtTime(SortByTime(s), t) == AtTime(s, t)
  {
    if s != [] {
      var n := |s| - 1;
      SortByTimeStable(s[..n], t);
      InsertByTimeStable(SortByTime(s[..n]), s[n], t);
    }
  }

  /** The `messages` property: the last `maxRecent` entries of the session, sorted
      by timestamp and converted. A session without a document fails (the code
      calls `.get` on the `None` that `find_one` returned). */
  function RecentMessages(docs: map<string, seq<StoredMessage>>, id: string, maxRecent: nat): (r: Result<seq<Message>>)
    ensures id !in docs ==> r == Err(NoDocument(id))
    ensures id in docs && r.Err? ==> r.error.UnsupportedMessageType?
    ensures r.Ok? ==> |r.value| <= maxRecent && |r.value| <= |docs[id]|
  {
    if id !in docs then Err(NoDocument(id))
    else ConvertAll(Window(docs, id, maxRecent))
  }

  /** The entries the history converts: the last `maxRecent`, sorted by time. */
  function Window(docs: map<string, seq<StoredMessage>>, id: string, maxRecent: nat): seq<StoredMessage>
    requires id in docs
  {
    SortByTime(Tail(docs[id], maxRecent))
  }

  /** What the history returns: at most `maxRecent` messages; one for each entry of
      the sorted tail of the log, and a failure exactly when that tail holds an
      entry that is neither human nor AI. */
  lemma RecentMessagesShape(docs: map<string, seq<StoredMessage>>, id: string, maxRecent: nat)
    requires id in docs
    ensures SortedByTime(Window(docs, id, maxRecent))
    ensures multiset(Window(docs, id, maxRecent)) == multiset(docs[id][|docs[id]| - |Window(docs, id, maxRecent)|..])
    ensures RecentMessages(docs, id, maxRecent).Ok? ==>
      |RecentMessages(docs, id, maxRecent).value| == |Window(docs, id, maxRecent)| <= maxRecent
    ensures RecentMessages(docs, id, maxRecent).Ok? <==>
      forall k :: 0 <= k < |Window(docs, id, maxRecent)| ==>
        Window(docs, id, maxRecent)[k].msgType == "human" || Window(docs, id, maxRecent)[k].msgType == "ai"
  {
    var t := Tail(docs[id], maxRecent);
    var w := Window(docs, id, maxRecent);
    SortByTimeSorted(t);
    SortByTimePermutes(t);
    assert t == docs[id][|docs[id]| - |w|..];
    assert RecentMessages(docs, id, maxRecent) == ConvertAll(w);
    forall k | 0 <= k < |w|
      ensures DictToMessage(w[k].msgType, w[k].content).Ok? <==> w[k].msgType == "human" || w[k].msgType == "ai"
    {
    }
  }

  /** A history object: a session id, the size of its recent window, and the
      collection it reads and appends to. */
  class MongoChatHistory {
    const sessionId: string
    const maxRecent: nat
    const store: SessionStore

    /** Creates the session's empty document when there is none; an existing log
        is left as it is. */
    constructor (sessionId: string, maxRecent: nat, store: SessionStore)
      modifies store
      ensures this.sessionId == sessionId && this.maxRecent == maxRecent && this.store == store
      ensures store.docs == OpenSession(old(store.docs), sessionId)
    {
      this.sessionId := sessionId;
      this.maxRecent := maxRecent;
      this.store := store;
      new;
      store.docs := OpenSession(store.docs, sessionId);
    }

    function Messages(): Result<seq<Message>>
      reads this, store
    {
      RecentMessages(store.docs, sessionId, maxRecent)
    }

    /** Appends one human entry at the end of the log and changes nothing else. */
    method AddUserMessage(text: string, now: int)
      modifies store
      ensures store.docs == Append(old(store.docs), sessionId, StoredMessage("human", text, now))
    {
      store.docs := Append(store.docs, sessionId, MessageToDict(Human(text), now));
    }

    /** Appends one AI entry at the end of the log and changes nothing else. */
    method AddAiMessage(text: string, now: int)
      modifies store
      ensures store.docs == Append(old(store.docs), sessionId, StoredMessage("ai", text, now))
    {
      store.docs := Append(store.docs, sessionId, MessageToDict(Ai(text), now));
    }

    /** `$set` of an empty log; a session without a document stays without one. */
    method Clear()
      modifies store
      ensures store.docs.Keys == old(store.docs).Keys
      ensures sessionId in store.docs ==> store.docs[sessionId] == []
      ensures forall k :: k in old(store.docs) && k != sessionId ==> store.docs[k] == old(store.docs)[k]
    {
      if sessionId in store.docs {
        store.docs := store.docs[sessionId := []];
      }
    }
  }

  /** Any window of a log in time order is in time order. */
  lemma TailSorted(s: seq<StoredMessage>, n: nat)
    requires SortedByTime(s)
    ensures SortedByTime(Tail(s, n))
  {
    var d := |s| - |Tail(s, n)|;
    forall j, k | 0 <= j < k < |s| - d
      ensures s[d..][j].timestamp <= s[d..][k].timestamp
    {
      assert s[d..][j] == s[d + j] && s[d..][k] == s[d + k];
    }
  }

  /** Appending an entry no earlier than the last one keeps a log in time order. */
  lemma AppendSorted(log: seq<StoredMessage>, x: StoredMessage)
    requires SortedByTime(log) && (log != [] ==> log[|log| - 1].timestamp <= x.timestamp)
    ensures SortedByTime(log + [x])
  {
    var full := log + [x];
    forall j, k | 0 <= j < k < |full|
      ensures full[j].timestamp <= full[k].timestamp
    {
      assert full[j] == log[j];
      if k < |log| {
        assert full[k] == log[k];
      } else {
        assert log[j].timestamp <= log[|log| - 1].timestamp;
      }
    }
  }

  /** After a question and its reply are appended, in time order, to a log that is
      in time order, a window of at least two messages ends with that question
      and that reply. */
  lemma LastTurnIsRecent(docs: map<string, seq<StoredMessage>>, id: string, q: string, a: string, t1: int, t2: int, maxRecent: nat)
    requires id in docs && SortedByTime(docs[id])
    requires (docs[id] != [] ==> docs[id][|docs[id]| - 1].timestamp <= t1) && t1 <= t2
    requires maxRecent >= 2
    ensures var after := Append(Append(docs, id, MessageToDict(Human(q), t1)), id, MessageToDict(Ai(a), t2));
      var r := RecentMessages(after, id, maxRecent);
      r.Ok? ==> EndsWithTurn(r.value, q, a)
  {
    var h := MessageToDict(Human(q), t1);
    var e := MessageToDict(Ai(a), t2);
    var after := Append(Append(docs, id, h), id, e);
    var w := Tail(docs[id] + [h] + [e], maxRecent);
    TurnWindow(docs[id], h, e, maxRecent);
    assert after[id] == docs[id] + [h] + [e];
    assert Window(after, id, maxRecent) == w;
    MessageRoundTrip(Human(q), t1);
    MessageRoundTrip(Ai(a), t2);
    ConvertedLastTwo(w, h, e, q, a);
  }

  /** Appending a question and its reply, in time order, to a log in time order:
      any window of two or more entries is left as it is by the sort, and ends
      with the question and the reply. */
  lemma TurnWindow(log: seq<StoredMessage>, h: StoredMessage, e: StoredMessage, n: nat)
    requires SortedByTime(log) && (log != [] ==> log[|log| - 1].timestamp <= h.timestamp)
    requires h.timestamp <= e.timestamp && n >= 2
    ensures var w := Tail(log + [h] + [e], n);
      SortByTime(w) == w && |w| >= 2 && w[|w| - 2] == h && w[|w| - 1] == e
  {
    AppendSorted(log, h);
    AppendSorted(log + [h], e);
    TailSorted(log + [h] + [e], n);
    SortByTimeOfSorted(Tail(log + [h] + [e], n));
    TailEndsWith(log, h, e, n);
  }

  /** A log kept in time order is read as its last entries, as they are. */
  lemma WindowOfSorted(docs: map<string, seq<StoredMessage>>, id: string, maxRecent: nat)
    requires id in docs && SortedByTime(docs[id])
    ensures Window(docs, id, maxRecent) == Tail(docs[id], maxRecent)
  {
    TailSorted(docs[id], maxRecent);
    SortByTimeOfSorted(Tail(docs[id], maxRecent));
  }

  /** The messages end with the question `q` and its reply `a`. */
  predicate EndsWithTurn(ms: seq<Message>, q: string, a: string) {
    |ms| >= 2 && ms[|ms| - 2] == Human(q) && ms[|ms| - 1] == Ai(a)
  }

  /** A window of at least two entries over a log ending in `x`, `y` ends in them too. */
  lemma TailEndsWith<T>(s: seq<T>, x: T, y: T, n: nat)
    requires n >= 2
    ensures var w := Tail(s + [x] + [y], n); |w| >= 2 && w[|w| - 2] == x && w[|w| - 1] == y
  {
    var full := s + [x] + [y];
    var w := Tail(full, n);
    assert w[|w| - 2] == full[|full| - 2] && w[|w| - 1] == full[|full| - 1];
  }

  /** Converting a window that ends in a question and its reply. */
  lemma ConvertedLastTwo(w: seq<StoredMessage>, h: StoredMessage, e: StoredMessage, q: string, a: string)
    requires |w| >= 2 && w[|w| - 2] == h && w[|w| - 1] == e
    requires DictToMessage(h.msgType, h.content) == Ok(Human(q)) && DictToMessage(e.msgType, e.content) == Ok(Ai(a))
    ensures ConvertAll(w).Ok? ==> EndsWithTurn(ConvertAll(w).value, q, a)
  {
  }

  // ----- The Firestore variant -----

  /** The Firestore `messages` property: no document gives no messages, and the
      whole log is converted, without a recent window; each entry becomes the
      message its type names. */
  function FirestoreMessages(docs: map<string, seq<FsEntry>>, id: string): (r: Result<seq<Message>>)
    ensures id !in docs ==> r == Ok([])
    ensures id in docs && r.Ok? ==> |r.value| == |docs[id]|
    ensures id in docs ==> (r.Ok? <==> forall k :: 0 <= k < |docs[id]| ==> docs[id][k].msgType in {"human", "ai"})
    ensures id in docs && r.Ok? ==>
      forall k :: 0 <= k < |docs[id]| ==> DictToMessage(docs[id][k].msgType, docs[id][k].content) == Ok(r.value[k])
  {
    if id !in docs then Ok([])
    else
      var es := docs[id];
      var ds := seq(|es|, k requires 0 <= k < |es| => StoredMessage(es[k].msgType, es[k].content, 0));
      assert forall k :: 0 <= k < |es| ==> ds[k].msgType == es[k].msgType && ds[k].content == es[k].content;
      ConvertAll(ds)
  }

  /** `ArrayUnion([e])`: the entry is added at the end unless an equal entry is
      already in the array. */
  function ArrayUnion(es: seq<FsEntry>, e: FsEntry): (r: seq<FsEntry>)
    ensures e in r
    ensures forall x :: x in r <==> x in es || x == e
    ensures e in es ==> r == es
    ensures e !in es ==> r == es + [e]
  {
    if e in es then es else es + [e]
  }

  /** Appending an entry that is already there changes nothing, so a message equal
      to an earlier one (same type, same content) is stored once. */
  lemma ArrayUnionIdempotent(es: seq<FsEntry>, e: FsEntry)
    ensures ArrayUnion(ArrayUnion(es, e), e) == ArrayUnion(es, e)
    ensures |es| <= |ArrayUnion(es, e)| <= |es| + 1
  {
  }

  /** Asking the same question twice keeps one copy of it in the Firestore log. */
  lemma RepeatedQuestionStoredOnce(es: seq<FsEntry>, q: string, a1: string, a2: string)
    ensures var h := FsEntry("human", q);
      var once := ArrayUnion(ArrayUnion(es, h), FsEntry("ai", a1));
      ArrayUnion(once, h) == once
  {
    var h := FsEntry("human", q);
    assert h in ArrayUnion(es, h);
  }

  /** The Firestore `chat_histories` collection: each document's `messages` array. */
  class FirestoreStore {
    var docs: map<string, seq<FsEntry>>

    constructor (docs0: map<string, seq<FsEntry>>)
      ensures docs == docs0
    {
      docs := docs0;
    }
  }

  /** The Firestore history of one session. */
  class FirestoreChatHistory {
    const sessionId: string
    const store: FirestoreStore

    /** Creates the session's empty document when there is none. */
    constructor (sessionId: string, store: FirestoreStore)
      modifies store
      ensures this.sessionId == sessionId && this.store == store
      ensures sessionId in old(store.docs) ==> store.docs == old(store.docs)
      ensures sessionId !in old(store.docs) ==> store.docs == old(store.docs)[sessionId := []]
    {
      this.sessionId := sessionId;
      this.store := store;
      new;
      if sessionId !in store.docs {
        store.docs := store.docs[sessionId := []];
      }
    }

    function Messages(): Result<seq<Message>>
      reads this, store
    {
      FirestoreMessages(store.docs, sessionId)
    }

    /** `document.update` with an `ArrayUnion`: a missing document makes the update
        fail and changes nothing. */
    method AppendEntry(e: FsEntry) returns (r: Result<()>)
      modifies store
      ensures sessionId in old(store.docs) ==>
        r == Ok(()) && store.docs == old(store.docs)[sessionId := ArrayUnion(old(store.docs)[sessionId], e)]
      ensures sessionId !in old(store.docs) ==> r == Err(NoDocument(sessionId)) && store.docs == old(store.docs)
    {
      if sessionId !in store.docs {
        return Err(NoDocument(sessionId));
      }
      store.docs := store.docs[sessionId := ArrayUnion(store.docs[sessionId], e)];
      r := Ok(());
    }

    method AddUserMessage(text: string) returns (r: Result<()>)
      modifies store
      ensures sessionId in old(store.docs) ==>
        r == Ok(()) && store.docs == old(store.docs)[sessionId := ArrayUnion(old(store.docs)[sessionId], FsEntry("human", text))]
      ensures sessionId !in old(store.docs) ==> r == Err(NoDocument(sessionId)) && store.docs == old(store.docs)
    {
      r := AppendEntry(FsEntry("human", text));
    }

    method AddAiMessage(text: string) returns (r: Result<()>)
      modifies store
      ensures sessionId in old(store.docs) ==>
        r == Ok(()) && store.docs == old(store.docs)[sessionId := ArrayUnion(old(store.docs)[sessionId], FsEntry("ai", text))]
      ensures sessionId !in old(store.docs) ==> r == Err(NoDocument(sessionId)) && store.docs == old(store.docs)
    {
      r := AppendEntry(FsEntry("ai", text));
    }

    /** `document.set({"messages": []})`, which creates the document if needed. */
    method Clear()
      modifies store
      ensures store.docs == old(store.docs)[sessionId := []]
    {
      store.docs := store.docs[sessionId := []];
    }
  }
}
