/** The student performance metrics: a full recount of a student's quiz
    submissions, overall and grouped by subject and by difficulty. A group is
    created the first time its key is seen, so the groups keep the order in
    which their keys first appear, as Python dictionaries do. Ratios are exact
    (`real`). */
module Analytics {
  import opened Common

  /** One counted submission: its group key, whether it was correct and its score. */
  datatype Row<K> = Row(key: K, correct: bool, score: real)

  /** The running totals of one group. */
  datatype Group<K> = Group(key: K, total: nat, correct: nat, score: real)

  function Indicator(b: bool): nat { if b then 1 else 0 }

  /** `groups[key]["total"] += 1` and the like, for the row's group. */
  function Bump<K>(g: Group<K>, r: Row<K>): Group<K> {
    Group(g.key, g.total + 1, g.correct + Indicator(r.correct), g.score + r.score)
  }

  /** Counts one row: into its group when one exists, otherwise into a new group
      added at the end. */
  function AddRow<K(==)>(groups: seq<Group<K>>, r: Row<K>): (res: seq<Group<K>>)
    ensures |res| == |groups| || |res| == |groups| + 1
    ensures forall i :: 0 <= i < |groups| ==> res[i].key == groups[i].key
    ensures |res| == |groups| + 1 <==> forall i :: 0 <= i < |groups| ==> groups[i].key != r.key
    ensures |res| == |groups| + 1 ==> res[|groups|] == Group(r.key, 1, Indicator(r.correct), r.score)
  {
    if groups == [] then [Group(r.key, 1, Indicator(r.correct), r.score)]
    else if groups[0].key == r.key then [Bump(groups[0], r)] + groups[1..]
    else [groups[0]] + AddRow(groups[1..], r)
  }

  /** The groups of a sequence of rows, counted in order. */
  function Tally<K(==)>(rows: seq<Row<K>>): (r: seq<Group<K>>)
    ensures |r| <= |rows|
    ensures r == [] <==> rows == []
  {
    if rows == [] then []
    else AddRow(Tally(rows[..|rows| - 1]), rows[|rows| - 1])
  }

  /** One more row adds to the groups of the rows before it. */
  lemma TallyPrefix<K>(rows: seq<Row<K>>, i: nat)
    requires i < |rows|
    ensures Tally(rows[..i + 1]) == AddRow(Tally(rows[..i]), rows[i])
  {
    assert rows[..i + 1][..i] == rows[..i];
  }

  /** The last row adds to the groups of the rows before it. */
  lemma TallyLast<K>(rows: seq<Row<K>>)
    requires rows != []
    ensures Tally(rows) == AddRow(Tally(rows[..|rows| - 1]), rows[|rows| - 1])
  {
  }

  /** The group with key `k`. */
  function Find<K(==)>(groups: seq<Group<K>>, k: K): Option<Group<K>> {
    if groups == [] then None
    else if groups[0].key == k then Some(groups[0])
    else Find(groups[1..], k)
  }

  predicate DistinctKeys<K(==)>(groups: seq<Group<K>>) {
    forall i, j :: 0 <= i < j < |groups| ==> groups[i].key != groups[j].key
  }

  function SumTotals<K>(groups: seq<Group<K>>): nat {
    if groups == [] then 0 else groups[0].total + SumTotals(groups[1..])
  }

  /** How many rows have key `k`, how many of them are correct, and their score sum. */
  function Count<K(==)>(rows: seq<Row<K>>, k: K): nat {
    if rows == [] then 0
    else Count(rows[..|rows| - 1], k) + (if rows[|rows| - 1].key == k then 1 else 0)
  }

  function CountCorrect<K(==)>(rows: seq<Row<K>>, k: K): nat {
    if rows == [] then 0
    else CountCorrect(rows[..|rows| - 1], k) + (if rows[|rows| - 1].key == k then Indicator(rows[|rows| - 1].correct) else 0)
  }

  function ScoreOf<K(==)>(rows: seq<Row<K>>, k: K): real {
    if rows == [] then 0.0
    else ScoreOf(rows[..|rows| - 1], k) + (if rows[|rows| - 1].key == k then rows[|rows| - 1].score else 0.0)
  }

  // ----- Properties of the grouping -----

  lemma {:induction false} AddRowFind<K>(groups: seq<Group<K>>, r: Row<K>, k: K)
    ensures k != r.key ==> Find(AddRow(groups, r), k) == Find(groups, k)
    ensures k == r.key && Find(groups, k).None? ==> Find(AddRow(groups, r), k) == Some(Group(k, 1, Indicator(r.correct), r.score))
    ensures k == r.key && Find(groups, k).Some? ==> Find(AddRow(groups, r), k) == Some(Bump(Find(groups, k).value, r))
  {
    if groups != [] && groups[0].key != r.key {
      AddRowFind(groups[1..], r, k);
    }
  }

  lemma {:induction false} AddRowDistinct<K>(groups: seq<Group<K>>, r: Row<K>)
    requires DistinctKeys(groups)
    ensures DistinctKeys(AddRow(groups, r))
  {
  }

  lemma {:induction false} AddRowSum<K>(groups: seq<Group<K>>, r: Row<K>)
    ensures SumTotals(AddRow(groups, r)) == SumTotals(groups) + 1
  {
    if groups != [] && groups[0].key != r.key {
      AddRowSum(groups[1..], r);
    }
  }

  /** The group for `k` exists exactly when some row has key `k`, and then holds
      the number of such rows, how many of them are correct and their score sum. */
  lemma {:induction false} TallyFind<K>(rows: seq<Row<K>>, k: K)
    ensures Count(rows, k) == 0 ==> Find(Tally(rows), k) == None
    ensures Count(rows, k) > 0 ==> Find(Tally(rows), k) == Some(Group(k, Count(rows, k), CountCorrect(rows, k), ScoreOf(rows, k)))
  {
    if rows != [] {
      var n := |rows| - 1;
      var prefix, last := rows[..n], rows[n];
      TallyFind(prefix, k);
      if Count(prefix, k) == 0 {
        CountZero(prefix, k);
      }
      FindAfterRow(Tally(prefix), last, k, Count(prefix, k), CountCorrect(prefix, k), ScoreOf(prefix, k));
      TallyLast(rows);
    }
  }

  /** The step of `TallyFind`: a key's group, given by its counts so far, after
      one more row is counted. */
  lemma FindAfterRow<K>(before: seq<Group<K>>, last: Row<K>, k: K, c: nat, cc: nat, sc: real)
    requires c == 0 ==> Find(before, k) == None && cc == 0 && sc == 0.0
    requires c > 0 ==> Find(before, k) == Some(Group(k, c, cc, sc))
    ensures last.key != k ==> Find(AddRow(before, last), k) == Find(before, k)
    ensures last.key == k ==>
      Find(AddRow(before, last), k) == Some(Group(k, c + 1, cc + Indicator(last.correct), sc + last.score))
  {
    AddRowFind(before, last, k);
  }

  /** No row with key `k`: nothing correct and no score for `k`. */
  lemma {:induction false} CountZero<K>(rows: seq<Row<K>>, k: K)
    requires Count(rows, k) == 0
    ensures CountCorrect(rows, k) == 0 && ScoreOf(rows, k) == 0.0
  {
    if rows != [] {
      CountZero(rows[..|rows| - 1], k);
    }
  }

  /** Each key has one group, and the group totals add up to the number of rows. */
  lemma {:induction false} TallyShape<K>(rows: seq<Row<K>>)
    ensures DistinctKeys(Tally(rows))
    ensures SumTotals(Tally(rows)) == |rows|
  {
    if rows != [] {
      var n := |rows| - 1;
      TallyShape(rows[..n]);
      AddRowDistinct(Tally(rows[..n]), rows[n]);
      AddRowSum(Tally(rows[..n]), rows[n]);
    }
  }

  lemma {:induction false} CountPositive<K>(rows: seq<Row<K>>, k: K)
    ensures Count(rows, k) > 0 <==> exists i :: 0 <= i < |rows| && rows[i].key == k
    ensures CountCorrect(rows, k) <= Count(rows, k)
  {
    if rows != [] {
      var n := |rows| - 1;
      CountPositive(rows[..n], k);
      if exists i :: 0 <= i < n && rows[..n][i].key == k {
        var i :| 0 <= i < n && rows[..n][i].key == k;
        assert rows[i].key == k;
      }
      if exists i :: 0 <= i < |rows| && rows[i].key == k {
        var i :| 0 <= i < |rows| && rows[i].key == k;
        if i < n {
          assert rows[..n][i].key == k;
        }
      }
    }
  }

  // ----- Ratios and the metrics record -----

  /** `(correct / total) * 100`, 0 for an empty group. */
  function Accuracy(correct: nat, total: nat): real {
    if total == 0 then 0.0 else (correct as real / total as real) * 100.0
  }

  /** `score / total`, 0 for an empty group. */
  function Average(score: real, total: nat): real {
    if total == 0 then 0.0 else score / total as real
  }

  lemma AccuracyBounds(correct: nat, total: nat)
    requires correct <= total
    ensures 0.0 <= Accuracy(correct, total) <= 100.0
  {
    if total > 0 {
      assert correct as real / total as real <= 1.0 by {
        assert (correct as real / total as real) * total as real == correct as real;
      }
    }
  }

  /** One group's entry in the accuracy, average-score and count dictionaries. */
  datatype GroupStats<K> = GroupStats(key: K, accuracy: real, averageScore: real, count: nat)

  function Stats<K>(g: Group<K>): GroupStats<K> {
    GroupStats(g.key, Accuracy(g.correct, g.total), Average(g.score, g.total), g.total)
  }

  function StatsOf<K>(groups: seq<Group<K>>): seq<GroupStats<K>>
  {
    seq(|groups|, i requires 0 <= i < |groups| => Stats(groups[i]))
  }

  function SumCounts<K>(stats: seq<GroupStats<K>>): nat {
    if stats == [] then 0 else stats[0].count + SumCounts(stats[1..])
  }

  lemma {:induction false} SumCountsOfStats<K>(groups: seq<Group<K>>)
    ensures SumCounts(StatsOf(groups)) == SumTotals(groups)
  {
    if groups != [] {
      SumCountsOfStats(groups[1..]);
      assert StatsOf(groups)[1..] == StatsOf(groups[1..]);
    }
  }

  /** The metrics of a student; the subject and difficulty entries are in the order
      their keys were first seen. */
  datatype Metrics<D> = Metrics(
    overallAccuracy: real,
    averageAccuracy: real,
    averageScore: real,
    quizzesTaken: nat,
    subjects: seq<GroupStats<string>>,
    difficulties: seq<GroupStats<D>>)

  /** What a metrics computation returns: the metrics, the "no quizzes" message,
      or the error of a failed step. */
  datatype MetricsOutcome<D> = Computed(metrics: Metrics<D>) | NoQuizzesTaken | Failed(error: Failure)

  /** The metrics of `total` quizzes with `correct` right answers and score sum
      `score`, grouped into the given subject and difficulty groups. */
  function MakeMetrics<D>(total: nat, correct: nat, score: real, subjects: seq<Group<string>>, difficulties: seq<Group<D>>): Metrics<D> {
    var accuracy := Accuracy(correct, total);
    Metrics(accuracy, accuracy, Average(score, total), total, StatsOf(subjects), StatsOf(difficulties))
  }

  // ----- The submissions metrics -----

  /** A document of `quiz_submissions`; every key but `user_id` may be missing. */
  datatype Submission = Submission(
    userId: string,
    quizId: Option<string>,
    isCorrect: Option<bool>,
    score: Option<real>,
    difficulty: Option<string>,
    subject: Option<string>)

  function Submitted(q: Submission): bool { q.isCorrect == Some(true) }
  function ScoreValue(q: Submission): real { q.score.GetOr(0.0) }

  function SubjectRow(q: Submission): Row<string> { Row(q.subject.GetOr("Unknown"), Submitted(q), ScoreValue(q)) }
  function DifficultyRow(q: Submission): Row<string> { Row(q.difficulty.GetOr("easy"), Submitted(q), ScoreValue(q)) }

  function SubjectRows(qs: seq<Submission>): seq<Row<string>>
  {
    seq(|qs|, i requires 0 <= i < |qs| => SubjectRow(qs[i]))
  }

  function DifficultyRows(qs: seq<Submission>): seq<Row<string>>
  {
    seq(|qs|, i requires 0 <= i < |qs| => DifficultyRow(qs[i]))
  }

  /** `sum(1 for q in quizzes_taken if q.get("is_correct", False))`. */
  function CorrectCount(qs: seq<Submission>): (n: nat)
    ensures n <= |qs|
  {
    if qs == [] then 0 else CorrectCount(qs[..|qs| - 1]) + Indicator(Submitted(qs[|qs| - 1]))
  }

  /** `sum(q.get("score", 0) for q in quizzes_taken)`. */
  function ScoreSum(qs: seq<Submission>): real {
    if qs == [] then 0.0 else ScoreSum(qs[..|qs| - 1]) + ScoreValue(qs[|qs| - 1])
  }

  /** The submissions of one user, in stored order (the `find` on `user_id`). */
  function SubmissionsOf(all: seq<Submission>, userId: string): (r: seq<Submission>)
    ensures |r| <= |all|
    ensures forall i :: 0 <= i < |r| ==> r[i].userId == userId
  {
    if all == [] then []
    else SubmissionsOf(all[..|all| - 1], userId) + (if all[|all| - 1].userId == userId then [all[|all| - 1]] else [])
  }

  /** The metrics of a non-empty list of submissions. */
  function BasicMetrics(qs: seq<Submission>): (m: Metrics<string>)
    ensures m.quizzesTaken == |qs| && |m.subjects| <= |qs| && |m.difficulties| <= |qs|
    ensures m.averageAccuracy == m.overallAccuracy
  {
    MakeMetrics(|qs|, CorrectCount(qs), ScoreSum(qs), Tally(SubjectRows(qs)), Tally(DifficultyRows(qs)))
  }

  /** The grouping loop of `updateStudentBasicMetricInDB`: one pass that counts
      each submission into its subject group and its difficulty group. */
  method CountGroups(qs: seq<Submission>) returns (subjects: seq<Group<string>>, difficulties: seq<Group<string>>)
    ensures subjects == Tally(SubjectRows(qs))
    ensures difficulties == Tally(DifficultyRows(qs))
  {
    ghost var srows, drows := SubjectRows(qs), DifficultyRows(qs);
    subjects, difficulties := [], [];
    var i := 0;
    while i < |qs|
      invariant 0 <= i <= |qs|
      invariant subjects == Tally(srows[..i])
      invariant difficulties == Tally(drows[..i])
    {
      TallyPrefix(srows, i);
      TallyPrefix(drows, i);
      subjects := AddRow(subjects, SubjectRow(qs[i]));
      difficulties := AddRow(difficulties, DifficultyRow(qs[i]));
      i := i + 1;
    }
    assert srows[..i] == srows && drows[..i] == drows;
  }

  /** The store the metrics are written to, one document per user. */
  class MetricsStore {
    var docs: map<string, Metrics<string>>

    constructor (docs0: map<string, Metrics<string>>)
      ensures docs == docs0
    {
      docs := docs0;
    }
  }

  /** `updateStudentBasicMetricInDB`: recomputes the user's metrics from all of
      their submissions and writes them once. With no submission it returns the
      "no quizzes" message and writes nothing; a refused write (`writeAccepted`
      false) is returned as an error instead of being raised. */
  method UpdateStudentBasicMetricInDB(store: MetricsStore, all: seq<Submission>, userId: string, writeAccepted: bool)
    returns (r: MetricsOutcome<string>)
    modifies store
    ensures SubmissionsOf(all, userId) == [] ==> r == NoQuizzesTaken && store.docs == old(store.docs)
    ensures SubmissionsOf(all, userId) != [] && !writeAccepted ==>
      r == Failed(StoreFailure) && store.docs == old(store.docs)
    ensures SubmissionsOf(all, userId) != [] && writeAccepted ==>
      r == Computed(BasicMetrics(SubmissionsOf(all, userId))) &&
      store.docs == old(store.docs)[userId := BasicMetrics(SubmissionsOf(all, userId))]
  {
    var taken := SubmissionsOf(all, userId);
    if taken == [] {
      return NoQuizzesTaken;
    }
    var subjects, difficulties := CountGroups(taken);
    var m := MakeMetrics(|taken|, CorrectCount(taken), ScoreSum(taken), subjects, difficulties);
    if !writeAccepted {
      return Failed(StoreFailure);
    }
    store.docs := store.docs[userId := m];
    r := Computed(m);
  }

  // ----- Properties of the metrics -----

  /** The totals of a metrics record over `n` quizzes agree: the quiz count is `n`,
      the per-subject counts and the per-difficulty counts each add up to it, and
      the average accuracy is the overall accuracy, which lies between 0 and 100. */
  ghost predicate TotalsAgree<D>(m: Metrics<D>, n: nat) {
    m.quizzesTaken == n &&
    SumCounts(m.subjects) == n && SumCounts(m.difficulties) == n &&
    m.averageAccuracy == m.overallAccuracy &&
    0.0 <= m.overallAccuracy <= 100.0
  }

  /** Grouping the same `n` quizzes by subject and by difficulty gives metrics
      whose totals agree. */
  lemma TalliedTotalsAgree<D>(n: nat, correct: nat, score: real, subjects: seq<Row<string>>, difficulties: seq<Row<D>>)
    requires |subjects| == n && |difficulties| == n && correct <= n
    ensures TotalsAgree(MakeMetrics(n, correct, score, Tally(subjects), Tally(difficulties)), n)
  {
    TallyShape(subjects);
    TallyShape(difficulties);
    SumCountsOfStats(Tally(subjects));
    SumCountsOfStats(Tally(difficulties));
    AccuracyBounds(correct, n);
  }

  lemma BasicMetricsTotals(qs: seq<Submission>)
    ensures TotalsAgree(BasicMetrics(qs), |qs|)
  {
    TalliedTotalsAgree(|qs|, CorrectCount(qs), ScoreSum(qs), SubjectRows(qs), DifficultyRows(qs));
  }

  /** What the entry of group `k` says about `rows`: it counts the rows with key
      `k` (at least one), and its accuracy, within 0 and 100, and its average score
      use that group's own counts. */
  ghost predicate EntryFor<K>(rows: seq<Row<K>>, k: K, st: GroupStats<K>) {
    st.key == k && st.count == Count(rows, k) >= 1 &&
    st.accuracy == Accuracy(CountCorrect(rows, k), Count(rows, k)) &&
    st.averageScore == Average(ScoreOf(rows, k), Count(rows, k)) &&
    0.0 <= st.accuracy <= 100.0
  }

  /** Only groups with at least one row appear, and each one's entry is computed
      from that group's rows alone. */
  lemma GroupEntry<K>(rows: seq<Row<K>>, k: K)
    ensures Find(Tally(rows), k).Some? <==> exists i :: 0 <= i < |rows| && rows[i].key == k
    ensures Find(Tally(rows), k).Some? ==> EntryFor(rows, k, Stats(Find(Tally(rows), k).value))
  {
    TallyFind(rows, k);
    CountPositive(rows, k);
    AccuracyBounds(CountCorrect(rows, k), Count(rows, k));
  }

  /** A subject has an entry exactly when some submission has it, a missing
      subject counting as "Unknown"; the entry is that subject's own. */
  lemma SubjectEntry(qs: seq<Submission>, s: string)
    ensures Find(Tally(SubjectRows(qs)), s).Some? <==> exists i :: 0 <= i < |qs| && qs[i].subject.GetOr("Unknown") == s
    ensures Find(Tally(SubjectRows(qs)), s).Some? ==> EntryFor(SubjectRows(qs), s, Stats(Find(Tally(SubjectRows(qs)), s).value))
  {
    var rows := SubjectRows(qs);
    GroupEntry(rows, s);
    if exists i :: 0 <= i < |qs| && qs[i].subject.GetOr("Unknown") == s {
      var i :| 0 <= i < |qs| && qs[i].subject.GetOr("Unknown") == s;
      assert rows[i].key == s;
    }
  }

  /** The same for difficulties, a missing difficulty counting as "easy". */
  lemma DifficultyEntry(qs: seq<Submission>, d: string)
    ensures Find(Tally(DifficultyRows(qs)), d).Some? <==> exists i :: 0 <= i < |qs| && qs[i].difficulty.GetOr("easy") == d
    ensures Find(Tally(DifficultyRows(qs)), d).Some? ==> EntryFor(DifficultyRows(qs), d, Stats(Find(Tally(DifficultyRows(qs)), d).value))
  {
    var rows := DifficultyRows(qs);
    GroupEntry(rows, d);
    if exists i :: 0 <= i < |qs| && qs[i].difficulty.GetOr("easy") == d {
      var i :| 0 <= i < |qs| && qs[i].difficulty.GetOr("easy") == d;
      assert rows[i].key == d;
    }
  }

  /** The submissions of two stretches of the collection are those of each
      stretch, in stored order. */
  lemma {:induction false} SubmissionsOfAppend(a: seq<Submission>, b: seq<Submission>, userId: string)
    ensures SubmissionsOf(a + b, userId) == SubmissionsOf(a, userId) + SubmissionsOf(b, userId)
    decreases |b|
  {
    if b == [] {
      assert a + b == a;
    } else {
      var n := |b| - 1;
      assert (a + b)[..|a + b| - 1] == a + b[..n];
      assert (a + b)[|a + b| - 1] == b[n];
      SubmissionsOfAppend(a, b[..n], userId);
    }
  }

  /** A stretch holding only the user's submissions is read back whole, in order. */
  lemma {:induction false} OwnSubmissionsKept(all: seq<Submission>, userId: string)
    requires forall i :: 0 <= i < |all| ==> all[i].userId == userId
    ensures SubmissionsOf(all, userId) == all
  {
    if all != [] {
      var n := |all| - 1;
      OwnSubmissionsKept(all[..n], userId);
      assert all[..n] + [all[n]] == all;
    }
  }

  /** A submission is read exactly when it is stored and is the user's. */
  lemma {:induction false} SubmissionsOfMembers(all: seq<Submission>, userId: string, x: Submission)
    ensures x in SubmissionsOf(all, userId) <==> x in all && x.userId == userId
  {
    if all != [] {
      var n := |all| - 1;
      SubmissionsOfMembers(all[..n], userId, x);
      assert all == all[..n] + [all[n]];
    }
  }

  /** The metrics depend only on the user's submissions: a submission of another
      user, wherever it sits in the collection, changes nothing. */
  lemma OtherUsersIgnored(a: seq<Submission>, q: Submission, b: seq<Submission>, userId: string)
    requires q.userId != userId
    ensures SubmissionsOf(a + [q] + b, userId) == SubmissionsOf(a + b, userId)
  {
    SubmissionsOfAppend(a + [q], b, userId);
    SubmissionsOfAppend(a, [q], userId);
    SubmissionsOfAppend(a, b, userId);
    assert [q][..0] == [];
  }
}
