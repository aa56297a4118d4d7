/** The quiz extractor: turns the Markdown a quiz generation produced into a
    record of five fields, each found after a fixed literal marker.

    Every regular expression of the extractor has the shape `marker \s* (group)`;
    each is modelled by a matcher that, given the index just past the marker,
    returns the span the regular-expression engine captures there (greedy `\s*`
    with backtracking), and by a left-to-right search for the first index where
    the whole pattern matches, as `re.search` does. */
module Preprocessing {
  import opened Common
  import opened Text

  const QuestionMarker: string := "### Question:"
  const CorrectMarker: string := "**Correct Answer:**"
  const ExplanationMarker: string := "**Explanation:**"
  const DifficultyMarker: string := "**Difficulty:**"
  const OptionLetters: string := "ABCD"
  const DifficultyWords: seq<string> := ["easy", "medium", "hard"]

  /** A captured group: the characters `s[start..end]`. */
  datatype Span = Span(start: nat, end: nat)

  /** The structured quiz record; a field whose marker was not found is `None`. */
  datatype Mcq = Mcq(
    question: Option<string>,
    options: map<char, string>,
    correctAnswer: Option<string>,
    explanation: Option<string>,
    difficulty: Option<string>)

  /** The four fields found by `re.search`; the options are found by `re.findall`. */
  datatype Field = Question | CorrectAnswer | Explanation | Difficulty

  predicate NoNewline(t: string) {
    forall j :: 0 <= j < |t| ==> t[j] != '\n'
  }

  /** The end of the line that contains index `i`: the next newline, or the end of the text. */
  function LineEnd(s: string, i: nat): (e: nat)
    requires i <= |s|
    ensures i <= e <= |s|
    ensures forall k :: i <= k < e ==> s[k] != '\n'
    ensures e < |s| ==> s[e] == '\n'
    decreases |s| - i
  {
    if i < |s| && s[i] != '\n' then LineEnd(s, i + 1) else i
  }

  /** The last index in `[lo, hi)` that does not hold a newline. */
  function LastNonNewline(s: string, lo: nat, hi: nat): (r: Option<nat>)
    requires lo <= hi <= |s|
    ensures r.Some? ==> lo <= r.value < hi && s[r.value] != '\n' && forall k :: r.value < k < hi ==> s[k] == '\n'
    ensures r.None? ==> forall k :: lo <= k < hi ==> s[k] == '\n'
    decreases hi - lo
  {
    if hi == lo then None
    else if s[hi - 1] != '\n' then Some(hi - 1)
    else LastNonNewline(s, lo, hi - 1)
  }

  /** `\s*(.+)` at index `i`. Greedy `\s*` takes the whole whitespace run; if a
      character follows the run, `.+` takes the rest of its line. If the run
      reaches the end of the text, `\s*` gives back characters until `.+` can
      start on one that is not a newline; if there is none, there is no match. */
  function LineCapture(s: string, i: nat): (r: Option<Span>)
    requires i <= |s|
    ensures r.Some? ==> i <= r.value.start < r.value.end <= |s|
    ensures r.Some? ==> forall k :: r.value.start <= k < r.value.end ==> s[k] != '\n'
  {
    var e := SkipSpace(s, i);
    if e < |s| then Some(Span(e, LineEnd(s, e)))
    else
      match LastNonNewline(s, i, e)
      case None => None
      case Some(j) => Some(Span(j, LineEnd(s, j)))
  }

  /** `g` is a way for `\s*(.+)` to match at `i` (`.` does not match a newline),
      with `.+` as long as it can be. */
  ghost predicate LineGroupMatch(s: string, i: nat, g: Span) {
    i <= g.start < g.end <= |s| &&
    (forall k :: i <= k < g.start ==> IsSpace(s[k])) &&
    (forall k :: g.start <= k < g.end ==> s[k] != '\n') &&
    (g.end == |s| || s[g.end] == '\n')
  }

  /** `LineCapture` returns the match the backtracking engine finds first (the one
      whose `\s*` is longest), and nothing only when no match exists. */
  lemma LineCaptureIsFirstMatch(s: string, i: nat)
    requires i <= |s|
    ensures LineCapture(s, i).Some? ==> LineGroupMatch(s, i, LineCapture(s, i).value)
    ensures LineCapture(s, i).Some? ==>
      forall g :: LineGroupMatch(s, i, g) ==> g.start <= LineCapture(s, i).value.start
    ensures LineCapture(s, i).None? ==> forall g :: !LineGroupMatch(s, i, g)
  {
    var e := SkipSpace(s, i);
    forall g | LineGroupMatch(s, i, g)
      ensures LineCapture(s, i).Some? && g.start <= LineCapture(s, i).value.start
    {
      if e < |s| {
        SpaceRunWithin(s, i, g.start);
      } else {
        assert s[g.start] != '\n';
      }
    }
  }

  /** `\s*(.+)` with `re.DOTALL` at index `i`: `.+` takes everything up to the end
      of the text, and needs at least one character. */
  function TextCapture(s: string, i: nat): (r: Option<Span>)
    requires i <= |s|
    ensures r.Some? ==> i <= r.value.start < r.value.end == |s|
  {
    var e := SkipSpace(s, i);
    if e < |s| then Some(Span(e, |s|))
    else if i < e then Some(Span(e - 1, |s|))
    else None
  }

  /** `g` is a way for `\s*(.+)` with `re.DOTALL` to match at `i`. */
  ghost predicate TextGroupMatch(s: string, i: nat, g: Span) {
    i <= g.start < g.end == |s| && forall k :: i <= k < g.start ==> IsSpace(s[k])
  }

  lemma TextCaptureIsFirstMatch(s: string, i: nat)
    requires i <= |s|
    ensures TextCapture(s, i).Some? ==> TextGroupMatch(s, i, TextCapture(s, i).value)
    ensures TextCapture(s, i).Some? ==>
      forall g :: TextGroupMatch(s, i, g) ==> g.start <= TextCapture(s, i).value.start
    ensures TextCapture(s, i).None? ==> forall g :: !TextGroupMatch(s, i, g)
  {
    var e := SkipSpace(s, i);
    forall g | TextGroupMatch(s, i, g)
      ensures TextCapture(s, i).Some? && g.start <= TextCapture(s, i).value.start
    {
      SpaceRunWithin(s, i, g.start);
    }
  }

  /** `\s*([A-D])` at index `i`. Giving back whitespace cannot help, since a
      whitespace character is not a letter, so only the end of the run counts. */
  function LetterCapture(s: string, i: nat): (r: Option<Span>)
    requires i <= |s|
    ensures r.Some? ==> i <= r.value.start && r.value.end == r.value.start + 1 <= |s| && s[r.value.start] in OptionLetters
  {
    var e := SkipSpace(s, i);
    if e < |s| && s[e] in OptionLetters then Some(Span(e, e + 1)) else None
  }

  /** `w` (in lower case) occurs at `p`, compared without regard to case. */
  predicate WordAtIgnoreCase(s: string, p: nat, w: string) {
    p + |w| <= |s| && LowerStr(s[p..p + |w|]) == w
  }

  /** `\s*(easy|medium|hard)` with `re.IGNORECASE` at index `i`; the captured text
      keeps the casing it has in the input. */
  function WordCapture(s: string, i: nat): (r: Option<Span>)
    requires i <= |s|
    ensures r.Some? ==> i <= r.value.start <= r.value.end <= |s|
    ensures r.Some? ==> LowerStr(s[r.value.start..r.value.end]) in DifficultyWords
  {
    var e := SkipSpace(s, i);
    if WordAtIgnoreCase(s, e, "easy") then Some(Span(e, e + 4))
    else if WordAtIgnoreCase(s, e, "medium") then Some(Span(e, e + 6))
    else if WordAtIgnoreCase(s, e, "hard") then Some(Span(e, e + 4))
    else None
  }

  function Marker(f: Field): string {
    match f
    case Question => QuestionMarker
    case CorrectAnswer => CorrectMarker
    case Explanation => ExplanationMarker
    case Difficulty => DifficultyMarker
  }

  /** The field's marker occurs at `p`; the difficulty marker is matched without
      regard to case, as its whole pattern is. */
  predicate MarkerAt(f: Field, s: string, p: nat) {
    p + |Marker(f)| <= |s| &&
    if f == Difficulty then LowerStr(s[p..p + |Marker(f)|]) == LowerStr(Marker(f))
    else s[p..p + |Marker(f)|] == Marker(f)
  }

  /** The group the field's whole pattern captures when matched at index `p`. */
  function GroupAt(f: Field, s: string, p: nat): (r: Option<Span>)
    ensures r.Some? ==> MarkerAt(f, s, p) && p + |Marker(f)| <= r.value.start <= r.value.end <= |s|
    ensures r.Some? && f == Explanation ==> r.value.end == |s|
  {
    if !MarkerAt(f, s, p) then None
    else
      var i := p + |Marker(f)|;
      match f
      case Question => LineCapture(s, i)
      case CorrectAnswer => LetterCapture(s, i)
      case Explanation => TextCapture(s, i)
      case Difficulty => WordCapture(s, i)
  }

  /** The least index in `[from, hi]` that satisfies `m`, scanning upwards. */
  function FirstIndex(m: nat -> bool, from: nat, hi: nat): (r: Option<nat>)
    requires from <= hi
    ensures r.Some? ==> from <= r.value <= hi && m(r.value)
    decreases hi - from
  {
    if m(from) then Some(from)
    else if from == hi then None
    else FirstIndex(m, from + 1, hi)
  }

  /** No index before the one found satisfies `m`; when none is found, none does. */
  lemma {:induction false} FirstIndexIsLeast(m: nat -> bool, from: nat, hi: nat)
    requires from <= hi
    ensures FirstIndex(m, from, hi).Some? ==> forall q :: from <= q < FirstIndex(m, from, hi).value ==> !m(q)
    ensures FirstIndex(m, from, hi).None? ==> forall q :: from <= q <= hi ==> !m(q)
    decreases hi - from
  {
    if !m(from) && from < hi {
      FirstIndexIsLeast(m, from + 1, hi);
    }
  }

  /** Whether the field's whole pattern matches at an index. */
  function Matches(f: Field, s: string): (m: nat -> bool)
    ensures forall q :: m(q) == GroupAt(f, s, q).Some?
  {
    (q: nat) => GroupAt(f, s, q).Some?
  }

  /** `re.search`: the least index at or after `from` where the pattern matches. */
  function FirstMatch(f: Field, s: string, from: nat): (r: Option<nat>)
    requires from <= |s|
    ensures r.Some? ==> from <= r.value <= |s| && GroupAt(f, s, r.value).Some?
  {
    FirstIndex(Matches(f, s), from, |s|)
  }

  /** No index before the one `FirstMatch` finds matches, and when it finds none,
      no index matches at all. */
  lemma FirstMatchIsLeast(f: Field, s: string, from: nat)
    requires from <= |s|
    ensures FirstMatch(f, s, from).Some? ==>
      forall q :: from <= q < FirstMatch(f, s, from).value ==> GroupAt(f, s, q).None?
    ensures FirstMatch(f, s, from).None? ==> forall q :: from <= q <= |s| ==> GroupAt(f, s, q).None?
  {
    FirstIndexIsLeast(Matches(f, s), from, |s|);
  }

  /** `m.group(1).strip()` for the first match of the field's pattern, or `None`
      exactly when the pattern matches nowhere. */
  function Search(f: Field, s: string): (r: Option<string>)
    ensures r.None? <==> forall p :: 0 <= p <= |s| ==> GroupAt(f, s, p).None?
    ensures r.Some? ==> var v := r.value; v == [] || (!IsSpace(v[0]) && !IsSpace(v[|v| - 1]))
  {
    FirstMatchIsLeast(f, s, 0);
    match FirstMatch(f, s, 0)
    case None => None
    case Some(p) =>
      var g := GroupAt(f, s, p).value;
      Some(Strip(s[g.start..g.end]))
  }

  /** `\*\*(A|B|C|D)\.\*\*\s*(.+)` at index `p`: the option letter and the span of its text. */
  function OptionAt(s: string, p: nat): (r: Option<(char, Span)>)
    requires p <= |s|
    ensures r.Some? ==> r.value.0 in OptionLetters && p + 6 <= r.value.1.start < r.value.1.end <= |s|
    ensures r.Some? ==> NoNewline(s[r.value.1.start..r.value.1.end])
  {
    if p + 6 <= |s| && s[p..p + 2] == "**" && s[p + 2] in OptionLetters && s[p + 3..p + 6] == ".**" then
      match LineCapture(s, p + 6)
      case None => None
      case Some(g) => Some((s[p + 2], g))
    else None
  }

  /** `re.findall` of the option pattern from index `p`: after a match the scan
      resumes where the match ended, otherwise at the next index. */
  function FindAllOptions(s: string, p: nat): (r: seq<(char, string)>)
    requires p <= |s|
    ensures forall k :: 0 <= k < |r| ==> r[k].0 in OptionLetters && NoNewline(r[k].1)
    decreases |s| - p
  {
    if p == |s| then []
    else
      match OptionAt(s, p)
      case Some((letter, g)) => [(letter, s[g.start..g.end])] + FindAllOptions(s, g.end)
      case None => FindAllOptions(s, p + 1)
  }

  /** `{key: value.strip() for key, value in pairs}`: built left to right, so a
      later pair for the same letter replaces an earlier one. */
  function OptionMap(pairs: seq<(char, string)>): (r: map<char, string>)
  {
    if pairs == [] then map[]
    else
      var n := |pairs| - 1;
      assert forall i :: 0 <= i < n ==> pairs[..n][i] == pairs[i];
      OptionMap(pairs[..n])[pairs[n].0 := Strip(pairs[n].1)]
  }

  /** `extract_mcq`: total; a field whose marker is missing comes out as `None`
      (and the options as an empty map). */
  function ExtractMcq(md: string): (r: Mcq)
    ensures r.question.None? <==> forall p :: 0 <= p <= |md| ==> GroupAt(Question, md, p).None?
    ensures r.correctAnswer.None? <==> forall p :: 0 <= p <= |md| ==> GroupAt(CorrectAnswer, md, p).None?
    ensures r.explanation.None? <==> forall p :: 0 <= p <= |md| ==> GroupAt(Explanation, md, p).None?
    ensures r.difficulty.None? <==> forall p :: 0 <= p <= |md| ==> GroupAt(Difficulty, md, p).None?
  {
    Mcq(
      Search(Question, md),
      OptionMap(FindAllOptions(md, 0)),
      Search(CorrectAnswer, md),
      Search(Explanation, md),
      Search(Difficulty, md))
  }

  // ----- Properties of the extractor -----

  lemma StripOfNoNewline(t: string)
    requires NoNewline(t)
    ensures NoNewline(Strip(t))
  {
    var a, b :| 0 <= a <= b <= |t| && Strip(t) == t[a..b];
    assert forall j :: 0 <= j < b - a ==> Strip(t)[j] == t[a + j];
  }

  /** Stripping text that neither starts nor ends with whitespace changes nothing. */
  lemma StripUnchanged(t: string)
    requires t == [] || (!IsSpace(t[0]) && !IsSpace(t[|t| - 1]))
    ensures Strip(t) == t
  {
    assert SkipSpace(t, 0) == 0;
    assert TrimEnd(t, 0, |t|) == |t|;
  }

  /** A letter lower-cases to a letter only from a letter, never from whitespace. */
  lemma LowerLetterNotSpace(c: char)
    requires 'a' <= Lower(c) <= 'z'
    ensures !IsSpace(c)
  {
  }

  /** The question is a single line with no surrounding whitespace, cut from the
      line that follows the first `### Question:` marker able to match. */
  lemma QuestionShape(md: string)
    ensures ExtractMcq(md).question.Some? ==>
      var q := ExtractMcq(md).question.value;
      NoNewline(q) && (q == [] || (!IsSpace(q[0]) && !IsSpace(q[|q| - 1])))
    ensures ExtractMcq(md).question.Some? ==>
      exists p :: FirstMatch(Question, md, 0) == Some(p) && OccursAt(md, p, QuestionMarker)
  {
    match FirstMatch(Question, md, 0)
    case None =>
    case Some(p) =>
      var g := GroupAt(Question, md, p).value;
      assert ExtractMcq(md).question == Some(Strip(md[g.start..g.end]));
      QuestionGroup(md, p);
      StripOfNoNewline(md[g.start..g.end]);
  }

  /** Where the question pattern matches, its marker is there and the captured
      text stays on one line. */
  lemma QuestionGroup(md: string, p: nat)
    requires GroupAt(Question, md, p).Some?
    ensures var g := GroupAt(Question, md, p).value;
      OccursAt(md, p, QuestionMarker) && NoNewline(md[g.start..g.end])
  {
    var g := GroupAt(Question, md, p).value;
    assert g == LineCapture(md, p + |QuestionMarker|).value;
    assert forall k :: 0 <= k < g.end - g.start ==> md[g.start..g.end][k] == md[g.start + k];
  }

  /** The correct answer is exactly one of the letters A to D; a "." after it is
      not part of it. */
  lemma CorrectAnswerShape(md: string)
    ensures ExtractMcq(md).correctAnswer.Some? ==>
      var c := ExtractMcq(md).correctAnswer.value;
      |c| == 1 && c[0] in OptionLetters
  {
    match FirstMatch(CorrectAnswer, md, 0)
    case None =>
    case Some(p) =>
      var g := GroupAt(CorrectAnswer, md, p).value;
      var t := md[g.start..g.end];
      assert t == [md[g.start]];
      assert !IsSpace(t[0]);
      StripUnchanged(t);
  }

  /** The explanation is everything after the first `**Explanation:**` marker able
      to match, up to the end of the text and across lines, stripped. */
  lemma ExplanationShape(md: string)
    ensures Search(Explanation, md).Some? ==>
      FirstMatch(Explanation, md, 0).Some? &&
      var p := FirstMatch(Explanation, md, 0).value;
      OccursAt(md, p, ExplanationMarker) &&
      Search(Explanation, md).value == Strip(md[p + |ExplanationMarker|..])
  {
    match FirstMatch(Explanation, md, 0)
    case None =>
    case Some(p) =>
      var i := p + |ExplanationMarker|;
      var g := GroupAt(Explanation, md, p).value;
      assert g == TextCapture(md, i).value;
      TextCaptureIsFirstMatch(md, i);
      var t := md[g.start..];
      assert md[g.start..g.end] == t;
      StripAfterSpace(md, i, g.start);
  }

  /** Whitespace between `i` and `j` does not change what stripping the text from
      `i` gives. */
  lemma StripAfterSpace(md: string, i: nat, j: nat)
    requires i <= j <= |md| && forall k :: i <= k < j ==> IsSpace(md[k])
    ensures Strip(md[i..]) == Strip(md[j..])
  {
    var u, d := md[i..], j - i;
    assert u[d..] == md[j..];
    assert forall k :: 0 <= k < d ==> u[..d][k] == md[i + k];
    StripDropSpace(u, d);
  }

  /** The difficulty equals easy, medium or hard without regard to case, and keeps
      the casing it has in the text. */
  lemma DifficultyShape(md: string)
    ensures Search(Difficulty, md).Some? ==>
      var d := Search(Difficulty, md).value;
      LowerStr(d) in DifficultyWords &&
      exists k :: OccursAt(md, k, d)
  {
    match FirstMatch(Difficulty, md, 0)
    case None =>
    case Some(p) =>
      var g := GroupAt(Difficulty, md, p).value;
      assert Search(Difficulty, md) == Some(Strip(md[g.start..g.end]));
      assert LowerStr(md[g.start..g.end]) in DifficultyWords;
      DifficultySpan(md, g);
  }

  /** A captured difficulty word is kept as it occurs in the text. */
  lemma DifficultySpan(md: string, g: Span)
    requires g.start <= g.end <= |md| && LowerStr(md[g.start..g.end]) in DifficultyWords
    ensures Strip(md[g.start..g.end]) == md[g.start..g.end] && OccursAt(md, g.start, md[g.start..g.end])
  {
    DifficultyWordUnpadded(md[g.start..g.end]);
  }

  /** A difficulty word, in any casing, has no whitespace to strip. */
  lemma DifficultyWordUnpadded(t: string)
    requires LowerStr(t) in DifficultyWords
    ensures Strip(t) == t
  {
    var w := LowerStr(t);
    assert w == "easy" || w == "medium" || w == "hard";
    assert 'a' <= w[0] <= 'z' && 'a' <= w[|w| - 1] <= 'z';
    LowerLetterNotSpace(t[0]);
    LowerLetterNotSpace(t[|t| - 1]);
    StripUnchanged(t);
  }

  /** A letter is a key of the option map exactly when some option has it. */
  lemma {:induction false} OptionMapKeys(pairs: seq<(char, string)>, c: char)
    ensures c in OptionMap(pairs) <==> exists i :: 0 <= i < |pairs| && pairs[i].0 == c
  {
    if pairs != [] {
      var n := |pairs| - 1;
      var init := pairs[..n];
      OptionMapKeys(init, c);
      if c != pairs[n].0 {
        if c in OptionMap(init) {
          var i :| 0 <= i < n && init[i].0 == c;
          assert pairs[i].0 == c;
        }
        if exists i :: 0 <= i < |pairs| && pairs[i].0 == c {
          var i :| 0 <= i < |pairs| && pairs[i].0 == c;
          assert init[i].0 == c;
        }
      }
    }
  }

  /** The text stored for a letter is the stripped text of the LAST option that
      has that letter: a repeated letter keeps its last occurrence. */
  lemma {:induction false} OptionMapLastWins(pairs: seq<(char, string)>, i: nat)
    requires i < |pairs|
    requires forall j :: i < j < |pairs| ==> pairs[j].0 != pairs[i].0
    ensures pairs[i].0 in OptionMap(pairs) && OptionMap(pairs)[pairs[i].0] == Strip(pairs[i].1)
  {
    var n := |pairs| - 1;
    if i < n {
      var init := pairs[..n];
      assert init[i] == pairs[i];
      assert forall j :: i < j < |init| ==> init[j] == pairs[j];
      OptionMapLastWins(init, i);
    }
  }

  lemma OptionsShape(md: string)
    ensures forall c :: c in ExtractMcq(md).options ==> c in OptionLetters && NoNewline(ExtractMcq(md).options[c])
  {
    OptionMapShape(FindAllOptions(md, 0));
  }

  /** Pairs with option letters and one-line texts give a map of the same kind. */
  lemma OptionMapShape(pairs: seq<(char, string)>)
    requires forall k :: 0 <= k < |pairs| ==> pairs[k].0 in OptionLetters && NoNewline(pairs[k].1)
    ensures forall c :: c in OptionMap(pairs) ==> c in OptionLetters && NoNewline(OptionMap(pairs)[c])
  {
    forall c | c in OptionMap(pairs)
      ensures c in OptionLetters && NoNewline(OptionMap(pairs)[c])
    {
      OptionMapEntry(pairs, c);
    }
  }

  lemma OptionMapEntry(pairs: seq<(char, string)>, c: char)
    requires forall k :: 0 <= k < |pairs| ==> pairs[k].0 in OptionLetters && NoNewline(pairs[k].1)
    requires c in OptionMap(pairs)
    ensures c in OptionLetters && NoNewline(OptionMap(pairs)[c])
  {
    OptionMapKeys(pairs, c);
    var i :| 0 <= i < |pairs| && pairs[i].0 == c;
    var last := LastWith(pairs, c, i);
    OptionMapLastWins(pairs, last);
    StripOfNoNewline(pairs[last].1);
  }

  /** Every option letter found in the text is a key, and its value is the
      stripped text of the last option found with that letter. */
  lemma OptionsLastWins(md: string, i: nat)
    requires i < |FindAllOptions(md, 0)|
    ensures var pairs := FindAllOptions(md, 0);
      var c := pairs[i].0;
      c in ExtractMcq(md).options && ExtractMcq(md).options[c] == Strip(pairs[LastWith(pairs, c, i)].1)
  {
    var pairs := FindAllOptions(md, 0);
    OptionMapLastWins(pairs, LastWith(pairs, pairs[i].0, i));
  }

  /** No option marker matches at any index in `[lo, hi)`. */
  predicate NoOptionIn(s: string, lo: nat, hi: nat) {
    forall q :: lo <= q < hi && q <= |s| ==> OptionAt(s, q).None?
  }

  /** Where the `k`-th match of a scan from `p` may start: `p` for the first,
      and the end of the previous match otherwise. */
  function Resume(p: nat, gs: seq<Span>, k: nat): nat
    requires k <= |gs|
  {
    if k == 0 then p else gs[k - 1].end
  }

  /** The `k`-th pair of a scan from `p` comes from a match of the option
      pattern at `qs[k]`, no earlier than where the scan resumed and with no
      match skipped before it, whose text is the span `gs[k]`. */
  ghost predicate PairFoundAt(s: string, p: nat, r: seq<(char, string)>, qs: seq<nat>, gs: seq<Span>, k: nat)
    requires k < |r| == |qs| == |gs|
  {
    Resume(p, gs, k) <= qs[k] <= |s| && NoOptionIn(s, Resume(p, gs, k), qs[k]) &&
    OptionAt(s, qs[k]) == Some((r[k].0, gs[k])) && r[k].1 == s[gs[k].start..gs[k].end]
  }

  /** The pairs `r` are what a scan from `p` finds, at positions `qs` with spans
      `gs`, and no match is left after the last one. */
  ghost predicate ScanWitness(s: string, p: nat, r: seq<(char, string)>, qs: seq<nat>, gs: seq<Span>) {
    |qs| == |r| && |gs| == |r| &&
    (forall k :: 0 <= k < |r| ==> PairFoundAt(s, p, r, qs, gs, k)) &&
    NoOptionIn(s, Resume(p, gs, |r|), |s|)
  }

  /** What `re.findall` finds from `p`: each pair comes from a match at a
      witness position, the matches do not overlap, and no index the scan
      skips holds a match. So every non-overlapping marker is found, in order,
      with the rest of its line as its text. */
  lemma {:induction false} FindAllOptionsPositions(s: string, p: nat) returns (qs: seq<nat>, gs: seq<Span>)
    requires p <= |s|
    ensures ScanWitness(s, p, FindAllOptions(s, p), qs, gs)
    decreases |s| - p
  {
    if p == |s| {
      qs, gs := [], [];
    } else {
      match OptionAt(s, p)
      case Some((letter, g)) =>
        var qs', gs' := FindAllOptionsPositions(s, g.end);
        ScanMatch(s, p, letter, g, FindAllOptions(s, g.end), qs', gs');
        qs, gs := [p] + qs', [g] + gs';
      case None =>
        qs, gs := FindAllOptionsPositions(s, p + 1);
        ScanSkip(s, p, FindAllOptions(s, p + 1), qs, gs);
    }
  }

  /** A match at `p` is the first pair; the scan then resumes at its end. */
  lemma ScanMatch(s: string, p: nat, letter: char, g: Span, r: seq<(char, string)>, qs: seq<nat>, gs: seq<Span>)
    requires p <= |s| && OptionAt(s, p) == Some((letter, g)) && ScanWitness(s, g.end, r, qs, gs)
    ensures ScanWitness(s, p, [(letter, s[g.start..g.end])] + r, [p] + qs, [g] + gs)
  {
    var r1, qs1, gs1 := [(letter, s[g.start..g.end])] + r, [p] + qs, [g] + gs;
    forall k | 0 <= k < |r1|
      ensures PairFoundAt(s, p, r1, qs1, gs1, k)
    {
      if k > 0 {
        PairShifted(s, p, g.end, r1, qs1, gs1, r, qs, gs, k);
      }
    }
    assert Resume(p, gs1, |r1|) == Resume(g.end, gs, |r|);
  }

  /** The pair `k` of a scan whose first match was at `p` is the pair `k - 1`
      of the scan that resumed after it. */
  lemma PairShifted(s: string, p: nat, e: nat, r1: seq<(char, string)>, qs1: seq<nat>, gs1: seq<Span>,
                    r: seq<(char, string)>, qs: seq<nat>, gs: seq<Span>, k: nat)
    requires 0 < k < |r1| == |qs1| == |gs1| && |r| == |qs| == |gs| && |r1| == |r| + 1
    requires r1[1..] == r && qs1[1..] == qs && gs1[1..] == gs && gs1[0].end == e
    requires PairFoundAt(s, e, r, qs, gs, k - 1)
    ensures PairFoundAt(s, p, r1, qs1, gs1, k)
  {
    assert r1[k] == r[k - 1] && qs1[k] == qs[k - 1] && gs1[k] == gs[k - 1];
    assert Resume(p, gs1, k) == Resume(e, gs, k - 1);
  }

  /** An index without a match is skipped: the scan from it finds what the
      scan from the next index finds. */
  lemma ScanSkip(s: string, p: nat, r: seq<(char, string)>, qs: seq<nat>, gs: seq<Span>)
    requires p < |s| && OptionAt(s, p).None? && ScanWitness(s, p + 1, r, qs, gs)
    ensures ScanWitness(s, p, r, qs, gs)
  {
    forall k | 0 <= k < |r|
      ensures PairFoundAt(s, p, r, qs, gs, k)
    {
      assert PairFoundAt(s, p + 1, r, qs, gs, k);
      if k == 0 {
        NoOptionExtend(s, p, qs[0]);
      }
    }
    if r == [] {
      NoOptionExtend(s, p, |s|);
    }
  }

  lemma NoOptionExtend(s: string, p: nat, hi: nat)
    requires p <= |s| && OptionAt(s, p).None? && NoOptionIn(s, p + 1, hi)
    ensures NoOptionIn(s, p, hi)
  {
  }

  /** The last index holding letter `c`, given one index `i` that holds it. */
  function LastWith(pairs: seq<(char, string)>, c: char, i: nat): (r: nat)
    requires i < |pairs| && pairs[i].0 == c
    ensures i <= r < |pairs| && pairs[r].0 == c
    ensures forall j :: r < j < |pairs| ==> pairs[j].0 != c
    decreases |pairs| - i
  {
    if exists j :: i < j < |pairs| && pairs[j].0 == c then
      var j :| i < j < |pairs| && pairs[j].0 == c;
      LastWith(pairs, c, j)
    else i
  }

  /** A field whose marker does not occur anywhere is `None`. */
  lemma MissingMarkerGivesNone(f: Field, md: string)
    requires forall p :: 0 <= p <= |md| ==> !MarkerAt(f, md, p)
    ensures Search(f, md) == None
  {
    FirstMatchIsLeast(f, md, 0);
    assert forall q :: 0 <= q <= |md| ==> GroupAt(f, md, q).None?;
  }

  lemma {:induction false} NoStarNoOptions(md: string, p: nat)
    requires p <= |md|
    requires forall k :: 0 <= k < |md| ==> md[k] != '*'
    ensures FindAllOptions(md, p) == []
    decreases |md| - p
  {
    if p < |md| {
      assert OptionAt(md, p).None? by {
        if p + 6 <= |md| {
          assert md[p..p + 2][0] == md[p];
        }
      }
      NoStarNoOptions(md, p + 1);
    }
  }

  lemma NoMarkerWithoutStarOrHash(f: Field, md: string, p: nat)
    requires forall k :: 0 <= k < |md| ==> md[k] != '*' && md[k] != '#'
    ensures !MarkerAt(f, md, p)
  {
    var m := Marker(f);
    if p + |m| <= |md| {
      assert md[p..p + |m|][0] == md[p];
      assert LowerStr(md[p..p + |m|])[0] == Lower(md[p]);
      LowerOfNonLetter(md[p], '*');
    }
  }

  /** Text with no `*` and no `#` in it has none of the markers, and yields a
      record whose every field is absent, without failing. */
  lemma UnstructuredTextGivesEmptyRecord(md: string)
    requires forall k :: 0 <= k < |md| ==> md[k] != '*' && md[k] != '#'
    ensures ExtractMcq(md) == Mcq(None, map[], None, None, None)
  {
    forall f: Field, p | 0 <= p <= |md|
      ensures !MarkerAt(f, md, p)
    {
      NoMarkerWithoutStarOrHash(f, md, p);
    }
    MissingMarkerGivesNone(Question, md);
    MissingMarkerGivesNone(CorrectAnswer, md);
    MissingMarkerGivesNone(Explanation, md);
    MissingMarkerGivesNone(Difficulty, md);
    NoStarNoOptions(md, 0);
  }
}
