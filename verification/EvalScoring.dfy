/**
 Three computations of the same figures about an evaluation run: the run list's aggregates, the
 per-model summary and the result grid. The comparison of an output with its reference is a
 parameter; what matters is when the three agree.
 */
module EvalScoring {
  import opened Prelude

  datatype RunId = RunId(text: string)
  datatype SampleId = SampleId(text: string)
  datatype ModelId = ModelId(text: string)

  /** A result row. */
  datatype Output = Output(run: RunId, sample: SampleId, model: ModelId, text: string, failed: bool)

  /** What a person ruled about an output of a sample, by its text. */
  datatype Ruled = Ruled(sample: SampleId, text: string)

  /** `outputs` in whatever order the table gives them; a run's candidates in the run's own order. */
  datatype Tables = Tables(outputs: seq<Output>, references: map<SampleId, string>, judgements: map<Ruled, int>,
                           candidates: map<RunId, seq<ModelId>>)

  type Matcher = (string, string) -> bool

  const DEFAULT_LIMIT: int := 2000

  function Verdict(ruling: Option<bool>, matches: bool): bool {
    if ruling.Some? then ruling.value else matches
  }

  // -------------------------------------------------------------------
  // Tallies
  // -------------------------------------------------------------------

  /** How many rows, how many that ran without error, how many of those are correct, and of those how many nobody ruled on. */
  datatype Tally = Tally(results: nat, scored: nat, correct: nat, unchecked: nat) {
    function Plus(t: Tally): Tally {
      Tally(results + t.results, scored + t.scored, correct + t.correct, unchecked + t.unchecked)
    }
  }

  const ZERO: Tally := Tally(0, 0, 0, 0)

  function Ruling(t: Tables, o: Output): Option<bool> {
    if Ruled(o.sample, o.text) in t.judgements then Some(t.judgements[Ruled(o.sample, o.text)] != 0) else None
  }

  function Matched(t: Tables, same: Matcher, o: Output): bool {
    o.sample in t.references && same(o.text, t.references[o.sample])
  }

  /** What a row adds, given its ruling and its comparison. */
  function Contribution(failed: bool, ruling: Option<bool>, matched: bool): Tally {
    if failed then Tally(1, 0, 0, 0)
    else if !Verdict(ruling, matched) then Tally(1, 1, 0, 0)
    else Tally(1, 1, 1, if ruling.None? then 1 else 0)
  }

  function Score(t: Tables, same: Matcher, o: Output): Tally {
    Contribution(o.failed, Ruling(t, o), Matched(t, same, o))
  }

  /** The scores of some rows, added up. */
  function Sum<T>(rows: seq<T>, score: T -> Tally): Tally {
    if rows == [] then ZERO else Sum(rows[..|rows| - 1], score).Plus(score(rows[|rows| - 1]))
  }

  /** The rows for which `keep` holds, in order. */
  function Filter<T>(rows: seq<T>, keep: T -> bool): seq<T> {
    if rows == [] then []
    else Filter(rows[..|rows| - 1], keep) + if keep(rows[|rows| - 1]) then [rows[|rows| - 1]] else []
  }

  lemma SumLast<T>(rows: seq<T>, x: T, score: T -> Tally)
    ensures Sum(rows + [x], score) == Sum(rows, score).Plus(score(x))
  {
    assert (rows + [x])[..|rows|] == rows;
  }

  lemma {:induction false} SumAppend<T>(a: seq<T>, b: seq<T>, score: T -> Tally)
    ensures Sum(a + b, score) == Sum(a, score).Plus(Sum(b, score))
    decreases |b|
  {
    if b == [] {
      assert a + b == a;
    } else {
      var n := |b| - 1;
      SumAppend(a, b[..n], score);
      assert a + b == a + b[..n] + [b[n]];
      SumLast(a + b[..n], b[n], score);
    }
  }

  lemma Rearrange(a: Tally, b: Tally, x: Tally)
    ensures a.Plus(x).Plus(b) == a.Plus(b).Plus(x) == a.Plus(b.Plus(x))
  {
  }

  lemma SumMiddle<T>(a: seq<T>, x: T, b: seq<T>, score: T -> Tally)
    ensures Sum(a + [x] + b, score) == Sum(a + b, score).Plus(score(x))
  {
    SumAppend(a + [x], b, score);
    SumLast(a, x, score);
    SumAppend(a, b, score);
    Rearrange(Sum(a, score), Sum(b, score), score(x));
  }

  lemma SumWithout<T>(rows: seq<T>, i: nat, score: T -> Tally)
    requires i < |rows|
    ensures Sum(rows, score) == Sum(rows[..i] + rows[i + 1..], score).Plus(score(rows[i]))
  {
    Whole(rows, i);
    SumMiddle(rows[..i], rows[i], rows[i + 1..], score);
  }

  lemma Whole<T>(rows: seq<T>, i: nat)
    requires i < |rows|
    ensures rows == rows[..i] + [rows[i]] + rows[i + 1..]
  {
  }

  /** Order does not matter to a sum. */
  lemma {:induction false} SumPermutes<T>(a: seq<T>, b: seq<T>, score: T -> Tally)
    requires multiset(a) == multiset(b)
    ensures Sum(a, score) == Sum(b, score)
    decreases |a|
  {
    assert |a| == |multiset(a)| == |multiset(b)| == |b|;
    if a != [] {
      var i := FindLast(a, b);
      SumPermutes(a[..|a| - 1], b[..i] + b[i + 1..], score);
      SumWithout(b, i, score);
    }
  }

  /** What one row may add: it is counted once, and the figures nest. */
  predicate Fair(s: Tally) {
    s.unchecked <= s.correct <= s.scored <= s.results == 1
  }

  /** Unchecked, correct, scored and all rows nest in every sum; nothing scored means every row scored nothing. */
  lemma {:induction false} SumsNest<T>(rows: seq<T>, score: T -> Tally)
    requires forall i :: 0 <= i < |rows| ==> Fair(score(rows[i]))
    ensures var s := Sum(rows, score); s.unchecked <= s.correct <= s.scored <= s.results == |rows|
    ensures Sum(rows, score).scored == 0 <==> forall i :: 0 <= i < |rows| ==> score(rows[i]).scored == 0
  {
    if rows != [] {
      var n := |rows| - 1;
      assert forall i :: 0 <= i < n ==> rows[..n][i] == rows[i];
      SumsNest(rows[..n], score);
    }
  }

  lemma {:induction false} FilterKeeps<T>(rows: seq<T>, keep: T -> bool)
    ensures forall x :: x in Filter(rows, keep) <==> x in rows && keep(x)
  {
    if rows != [] {
      FilterKeeps(rows[..|rows| - 1], keep);
      assert rows == rows[..|rows| - 1] + [rows[|rows| - 1]];
    }
  }

  lemma SumFilterLast<T>(rows: seq<T>, x: T, keep: T -> bool, score: T -> Tally)
    ensures Sum(Filter(rows + [x], keep), score) ==
            if keep(x) then Sum(Filter(rows, keep), score).Plus(score(x)) else Sum(Filter(rows, keep), score)
  {
    assert (rows + [x])[..|rows|] == rows;
    if keep(x) {
      SumLast(Filter(rows, keep), x, score);
    } else {
      assert Filter(rows, keep) + [] == Filter(rows, keep);
    }
  }

  /** When `keep` holds of a row exactly when one of two others does, its sum is theirs. */
  ghost predicate Splits<T>(rows: seq<T>, keep: T -> bool, left: T -> bool, right: T -> bool) {
    forall i :: 0 <= i < |rows| ==> (keep(rows[i]) <==> left(rows[i]) || right(rows[i])) && !(left(rows[i]) && right(rows[i]))
  }

  /** The sum of the kept rows, without the list of them. */
  function Kept<T>(rows: seq<T>, keep: T -> bool, score: T -> Tally): Tally {
    if rows == [] then ZERO
    else
      var before := Kept(rows[..|rows| - 1], keep, score);
      if keep(rows[|rows| - 1]) then before.Plus(score(rows[|rows| - 1])) else before
  }

  lemma {:induction false} KeptIsSum<T>(rows: seq<T>, keep: T -> bool, score: T -> Tally)
    ensures Sum(Filter(rows, keep), score) == Kept(rows, keep, score)
  {
    if rows != [] {
      var n := |rows| - 1;
      KeptIsSum(rows[..n], keep, score);
      if keep(rows[n]) {
        SumLast(Filter(rows[..n], keep), rows[n], score);
      } else {
        assert Filter(rows[..n], keep) + [] == Filter(rows[..n], keep);
      }
    }
  }

  lemma SplitsInit<T>(rows: seq<T>, keep: T -> bool, left: T -> bool, right: T -> bool)
    requires Splits(rows, keep, left, right) && rows != []
    ensures Splits(rows[..|rows| - 1], keep, left, right)
    ensures var x := rows[|rows| - 1]; (keep(x) <==> left(x) || right(x)) && !(left(x) && right(x))
  {
    assert forall i :: 0 <= i < |rows| - 1 ==> rows[..|rows| - 1][i] == rows[i];
  }

  lemma KeptLast<T>(rows: seq<T>, keep: T -> bool, score: T -> Tally)
    requires rows != []
    ensures var init, x := rows[..|rows| - 1], rows[|rows| - 1];
            Kept(rows, keep, score) == if keep(x) then Kept(init, keep, score).Plus(score(x)) else Kept(init, keep, score)
  {
  }

  lemma {:induction false} KeptSplits<T>(rows: seq<T>, keep: T -> bool, left: T -> bool, right: T -> bool, score: T -> Tally)
    requires Splits(rows, keep, left, right)
    ensures Kept(rows, keep, score) == Kept(rows, left, score).Plus(Kept(rows, right, score))
  {
    if rows == [] {
      assert Kept(rows, keep, score) == Kept(rows, left, score) == Kept(rows, right, score) == ZERO;
    } else {
      var init, x := rows[..|rows| - 1], rows[|rows| - 1];
      SplitsInit(rows, keep, left, right);
      KeptSplits(init, keep, left, right, score);
      Rearrange(Kept(init, left, score), Kept(init, right, score), score(x));
      KeptLast(rows, keep, score);
      KeptLast(rows, left, score);
      KeptLast(rows, right, score);
    }
  }

  /** The score of a row, as a function of the row alone. */
  function Scorer(t: Tables, same: Matcher): Output -> Tally { o => Score(t, same, o) }

  function Total(t: Tables, same: Matcher, rows: seq<Output>): Tally { Sum(rows, Scorer(t, same)) }

  lemma ScoresAreFair(t: Tables, same: Matcher, rows: seq<Output>)
    ensures forall i :: 0 <= i < |rows| ==> Fair(Scorer(t, same)(rows[i]))
    ensures forall i :: 0 <= i < |rows| ==> (Scorer(t, same)(rows[i]).scored == 0 <==> rows[i].failed)
  {
  }

  /** The figures of any rows nest, and nothing scored means every row failed. */
  lemma TalliesNest(t: Tables, same: Matcher, rows: seq<Output>)
    ensures var s := Total(t, same, rows); s.unchecked <= s.correct <= s.scored <= s.results == |rows|
    ensures Total(t, same, rows).scored == 0 <==> forall i :: 0 <= i < |rows| ==> rows[i].failed
  {
    ScoresAreFair(t, same, rows);
    SumsNest(rows, Scorer(t, same));
  }

  /** A person's ruling on the output's text, if there is one, and otherwise the comparison with the reference. */
  predicate RightlySaid(t: Tables, same: Matcher, o: Output) {
    || (Ruled(o.sample, o.text) in t.judgements && t.judgements[Ruled(o.sample, o.text)] != 0)
    || (Ruled(o.sample, o.text) !in t.judgements && o.sample in t.references && same(o.text, t.references[o.sample]))
  }

  /** The positions of the rows that ran without error, of the right ones among them, and of those of these nobody ruled on. */
  function Ran(rows: seq<Output>): set<nat> {
    set i: nat | i < |rows| && !rows[i].failed
  }

  function Right(t: Tables, same: Matcher, rows: seq<Output>): set<nat> {
    set i: nat | i < |rows| && !rows[i].failed && RightlySaid(t, same, rows[i])
  }

  function RightUnruled(t: Tables, same: Matcher, rows: seq<Output>): set<nat> {
    set i: nat | i < |rows| && !rows[i].failed && RightlySaid(t, same, rows[i]) && Ruled(rows[i].sample, rows[i].text) !in t.judgements
  }

  lemma OneMoreRan(rows: seq<Output>)
    requires rows != []
    ensures |Ran(rows)| == |Ran(rows[..|rows| - 1])| + (if rows[|rows| - 1].failed then 0 else 1)
  {
    var n := |rows| - 1;
    assert Ran(rows) == Ran(rows[..n]) + (if rows[n].failed then {} else {n});
  }

  lemma OneMoreRight(t: Tables, same: Matcher, rows: seq<Output>)
    requires rows != []
    ensures var r := rows[|rows| - 1];
            |Right(t, same, rows)| == |Right(t, same, rows[..|rows| - 1])| + (if r.failed || !RightlySaid(t, same, r) then 0 else 1)
  {
    var n := |rows| - 1;
    assert Right(t, same, rows) == Right(t, same, rows[..n]) + (if rows[n].failed || !RightlySaid(t, same, rows[n]) then {} else {n});
  }

  lemma OneMoreUnruled(t: Tables, same: Matcher, rows: seq<Output>)
    requires rows != []
    ensures var r := rows[|rows| - 1];
            |RightUnruled(t, same, rows)| == |RightUnruled(t, same, rows[..|rows| - 1])|
              + (if r.failed || !RightlySaid(t, same, r) || Ruled(r.sample, r.text) in t.judgements then 0 else 1)
  {
    var n := |rows| - 1;
    assert RightUnruled(t, same, rows) == RightUnruled(t, same, rows[..n])
           + (if rows[n].failed || !RightlySaid(t, same, rows[n]) || Ruled(rows[n].sample, rows[n].text) in t.judgements then {} else {n});
  }

  /** What the figures count: the rows; those without error; of those the right ones; and of those the ones nobody ruled on. */
  lemma {:induction false} FiguresCount(t: Tables, same: Matcher, rows: seq<Output>)
    ensures Total(t, same, rows) == Tally(|rows|, |Ran(rows)|, |Right(t, same, rows)|, |RightUnruled(t, same, rows)|)
    decreases |rows|
  {
    if rows == [] {
      assert Ran(rows) == {} && Right(t, same, rows) == {} && RightUnruled(t, same, rows) == {};
    } else {
      FiguresCount(t, same, rows[..|rows| - 1]);
      OneMoreRan(rows);
      OneMoreRight(t, same, rows);
      OneMoreUnruled(t, same, rows);
    }
  }

  // -------------------------------------------------------------------
  // The run list
  // -------------------------------------------------------------------

  /** A result joined with its sample and, if there is one, its ruling. */
  datatype Cell = Cell(run: RunId, text: string, failed: bool, reference: string, ruling: Option<int>)

  predicate HasSample(t: Tables, o: Output) { o.sample in t.references }

  /** The inner join on samples: rows whose sample is gone are in none of the three. */
  function JoinedRows(t: Tables): (r: seq<Output>)
    ensures forall o :: o in r ==> o.sample in t.references
  {
    FilterKeeps(t.outputs, (o: Output) => HasSample(t, o));
    Filter(t.outputs, (o: Output) => HasSample(t, o))
  }

  function CellOf(t: Tables, o: Output): Cell
    requires o.sample in t.references
  {
    var key := Ruled(o.sample, o.text);
    Cell(o.run, o.text, o.failed, t.references[o.sample], if key in t.judgements then Some(t.judgements[key]) else None)
  }

  function IsOfRun(run: RunId): Output -> bool { (o: Output) => o.run == run }

  function OfRun(rows: seq<Output>, run: RunId): seq<Output> { Filter(rows, IsOfRun(run)) }

  function Figure(out: map<RunId, Tally>, run: RunId): Tally { if run in out then out[run] else ZERO }

  /** A row's contribution, added field by field as the loops do. */
  method AddRow(e: Tally, failed: bool, ruling: Option<bool>, matched: bool) returns (r: Tally)
    ensures r == e.Plus(Contribution(failed, ruling, matched))
  {
    r := e.(results := e.results + 1);
    if failed {
      return;
    }
    r := r.(scored := r.scored + 1);
    if Verdict(ruling, matched) {
      r := r.(correct := r.correct + 1, unchecked := r.unchecked + if ruling.None? then 1 else 0);
    }
  }

  /** One fold over every cell of every run. */
  method RunAggregates(t: Tables, same: Matcher) returns (out: map<RunId, Tally>)
    ensures forall run :: Figure(out, run) == Total(t, same, OfRun(JoinedRows(t), run))
  {
    out := map[];
    var rows := JoinedRows(t);
    var i := 0;
    while i < |rows|
      invariant 0 <= i <= |rows|
      invariant forall run :: Figure(out, run) == Total(t, same, OfRun(rows[..i], run))
    {
      var cell := CellOf(t, rows[i]);
      var ruling := if cell.ruling.Some? then Some(cell.ruling.value != 0) else None;
      var e := AddRow(Figure(out, cell.run), cell.failed, ruling, same(cell.text, cell.reference));
      CellScores(t, same, rows[i]);
      ghost var before := out;
      out := out[cell.run := e];
      forall run ensures Figure(out, run) == Total(t, same, OfRun(rows[..i + 1], run)) {
        assert Figure(before, run) == Total(t, same, OfRun(rows[..i], run));
        OneMoreRow(t, same, rows, i, run);
      }
      i := i + 1;
    }
    assert rows[..|rows|] == rows;
  }

  lemma OneMoreRow(t: Tables, same: Matcher, rows: seq<Output>, i: nat, run: RunId)
    requires i < |rows|
    ensures Total(t, same, OfRun(rows[..i + 1], run)) ==
            if rows[i].run == run then Total(t, same, OfRun(rows[..i], run)).Plus(Scorer(t, same)(rows[i]))
            else Total(t, same, OfRun(rows[..i], run))
  {
    assert rows[..i + 1] == rows[..i] + [rows[i]];
    SumFilterLast(rows[..i], rows[i], IsOfRun(run), Scorer(t, same));
  }

  lemma CellScores(t: Tables, same: Matcher, o: Output)
    requires o.sample in t.references
    ensures var c := CellOf(t, o);
            var ruling := if c.ruling.Some? then Some(c.ruling.value != 0) else None;
            Scorer(t, same)(o) == Contribution(c.failed, ruling, same(c.text, c.reference)) && c.run == o.run
  {
  }

  // -------------------------------------------------------------------
  // The per-model summary and the grid
  // -------------------------------------------------------------------

  /** The rows of a run, sorted somehow by sample age and model. */
  ghost predicate Orders(t: Tables, run: RunId, ordered: seq<Output>) {
    multiset(ordered) == multiset(OfRun(JoinedRows(t), run))
  }

  /** The first so many; a negative limit is none. */
  function Limited(ordered: seq<Output>, limit: int): seq<Output> {
    if 0 <= limit < |ordered| then ordered[..limit] else ordered
  }

  /** A summary lists the first 2000 rows, a negative limit all of them. */
  lemma LimitsToTheFirst(ordered: seq<Output>, limit: int)
    ensures Limited(ordered, limit) <= ordered
    ensures |Limited(ordered, limit)| == if limit < 0 || |ordered| <= limit then |ordered| else limit
    ensures |Limited(ordered, DEFAULT_LIMIT)| == if |ordered| <= 2000 then |ordered| else 2000
  {
  }

  function IsOfModel(model: ModelId): Output -> bool { (o: Output) => o.model == model }

  function OfModel(rows: seq<Output>, model: ModelId): seq<Output> { Filter(rows, IsOfModel(model)) }

  /** The counters of one model's summary. */
  method SummariseModel(t: Tables, same: Matcher, mine: seq<Output>) returns (s: Tally)
    ensures s == Total(t, same, mine)
  {
    s := ZERO;
    var i := 0;
    while i < |mine|
      invariant 0 <= i <= |mine| && s == Total(t, same, mine[..i])
    {
      var r := mine[i];
      var ruling := if Ruled(r.sample, r.text) in t.judgements then Some(t.judgements[Ruled(r.sample, r.text)] != 0) else None;
      var matched := r.sample in t.references && same(r.text, t.references[r.sample]);
      s := AddRow(s, r.failed, ruling, matched);
      RowScores(t, same, r);
      OneMoreOfModel(t, same, mine, i);
      i := i + 1;
    }
    assert mine[..|mine|] == mine;
  }

  lemma RowScores(t: Tables, same: Matcher, r: Output)
    ensures var ruling := if Ruled(r.sample, r.text) in t.judgements then Some(t.judgements[Ruled(r.sample, r.text)] != 0) else None;
            var matched := r.sample in t.references && same(r.text, t.references[r.sample]);
            Scorer(t, same)(r) == Contribution(r.failed, ruling, matched)
  {
  }

  lemma OneMoreOfModel(t: Tables, same: Matcher, mine: seq<Output>, i: nat)
    requires i < |mine|
    ensures Total(t, same, mine[..i + 1]) == Total(t, same, mine[..i]).Plus(Scorer(t, same)(mine[i]))
  {
    assert mine[..i + 1] == mine[..i] + [mine[i]];
    SumLast(mine[..i], mine[i], Scorer(t, same));
  }

  /** One model's figures among the listed rows, as a function of the model alone. */
  function ModelTally(t: Tables, same: Matcher, listed: seq<Output>): ModelId -> Tally {
    model => Total(t, same, OfModel(listed, model))
  }

  /** One summary per candidate of the run, over the rows the default limit lists. */
  method SummariseRun(t: Tables, same: Matcher, ordered: seq<Output>, models: seq<ModelId>) returns (s: seq<Tally>)
    ensures |s| == |models|
    ensures forall i :: 0 <= i < |s| ==> s[i] == ModelTally(t, same, Limited(ordered, DEFAULT_LIMIT))(models[i])
  {
    var listed := Limited(ordered, DEFAULT_LIMIT);
    s := [];
    var i := 0;
    while i < |models|
      invariant 0 <= i <= |models| && |s| == i
      invariant forall j :: 0 <= j < i ==> s[j] == ModelTally(t, same, listed)(models[j])
    {
      var one := SummariseModel(t, same, OfModel(listed, models[i]));
      assert one == ModelTally(t, same, listed)(models[i]);
      s := s + [one];
      i := i + 1;
    }
  }

  /** The figures of a summary: its models' added up. */
  function SummaryTotal(t: Tables, same: Matcher, listed: seq<Output>, models: seq<ModelId>): Tally {
    Sum(models, ModelTally(t, same, listed))
  }

  /** A cell of the grid: the client reads the verdict off it. */
  datatype View = View(output: Output, matches: bool, ruling: Option<bool>)

  function ViewOf(t: Tables, same: Matcher, o: Output): View {
    View(o, Matched(t, same, o), Ruling(t, o))
  }

  function CountView(v: View): Tally { Contribution(v.output.failed, v.ruling, v.matches) }

  function Views(t: Tables, same: Matcher, listed: seq<Output>): (r: seq<View>)
    ensures |r| == |listed| && forall i :: 0 <= i < |r| ==> r[i] == ViewOf(t, same, listed[i])
  {
    seq(|listed|, i requires 0 <= i < |listed| => ViewOf(t, same, listed[i]))
  }

  /** Counting the verdicts of the grid counts its rows. */
  lemma {:induction false} GridIsTotal(t: Tables, same: Matcher, listed: seq<Output>)
    ensures Sum(Views(t, same, listed), CountView) == Total(t, same, listed)
    decreases |listed|
  {
    if listed != [] {
      var n := |listed| - 1;
      GridIsTotal(t, same, listed[..n]);
      assert Views(t, same, listed)[..n] == Views(t, same, listed[..n]);
    }
  }

  // -------------------------------------------------------------------
  // When they agree
  // -------------------------------------------------------------------

  /** The listed rows of no candidate. */
  function IsOfNone(models: seq<ModelId>): Output -> bool { (o: Output) => o.model !in models }

  function Unclaimed(listed: seq<Output>, models: seq<ModelId>): seq<Output> { Filter(listed, IsOfNone(models)) }

  /** What the summaries miss: rows past the limit, and listed rows of no candidate. */
  function Missed(ordered: seq<Output>, models: seq<ModelId>): seq<Output> {
    var listed := Limited(ordered, DEFAULT_LIMIT);
    Unclaimed(listed, models) + ordered[|listed|..]
  }

  ghost predicate Distinct(models: seq<ModelId>) {
    forall i, j :: 0 <= i < j < |models| ==> models[i] != models[j]
  }

  lemma {:induction false} NoneClaimed(rows: seq<Output>)
    ensures Unclaimed(rows, []) == rows
  {
    if rows != [] {
      NoneClaimed(rows[..|rows| - 1]);
      assert rows == rows[..|rows| - 1] + [rows[|rows| - 1]];
    }
  }

  /** A new candidate claims its rows. */
  lemma ClaimOne(t: Tables, same: Matcher, rows: seq<Output>, models: seq<ModelId>, model: ModelId)
    requires model !in models
    ensures Total(t, same, Unclaimed(rows, models)) ==
            Total(t, same, Unclaimed(rows, models + [model])).Plus(Total(t, same, OfModel(rows, model)))
  {
    KeptSplits(rows, IsOfNone(models), IsOfNone(models + [model]), IsOfModel(model), Scorer(t, same));
    KeptIsSum(rows, IsOfNone(models), Scorer(t, same));
    KeptIsSum(rows, IsOfNone(models + [model]), Scorer(t, same));
    KeptIsSum(rows, IsOfModel(model), Scorer(t, same));
  }

  /** The summaries of all candidates and the unclaimed rows make up the listed ones. */
  ghost predicate AddsUp(t: Tables, same: Matcher, listed: seq<Output>, models: seq<ModelId>) {
    Total(t, same, listed) == SummaryTotal(t, same, listed, models).Plus(Total(t, same, Unclaimed(listed, models)))
  }

  lemma AddsUpLast(t: Tables, same: Matcher, listed: seq<Output>, models: seq<ModelId>, model: ModelId)
    requires AddsUp(t, same, listed, models) && model !in models
    ensures AddsUp(t, same, listed, models + [model])
  {
    var rest, mine := Total(t, same, Unclaimed(listed, models + [model])), Total(t, same, OfModel(listed, model));
    ClaimOne(t, same, listed, models, model);
    SumLast(models, model, ModelTally(t, same, listed));
    Rearrange(SummaryTotal(t, same, listed, models), rest, mine);
  }

  lemma {:induction false} SummariesAdd(t: Tables, same: Matcher, listed: seq<Output>, models: seq<ModelId>)
    requires Distinct(models)
    ensures AddsUp(t, same, listed, models)
    decreases |models|
  {
    if models == [] {
      NoneClaimed(listed);
      assert SummaryTotal(t, same, listed, models) == ZERO;
    } else {
      var init, model := models[..|models| - 1], models[|models| - 1];
      assert models == init + [model] && model !in init;
      SummariesAdd(t, same, listed, init);
      AddsUpLast(t, same, listed, init, model);
    }
  }

  /** The run list counts the rows up to any point and the rows past it. */
  lemma RunListSplits(t: Tables, same: Matcher, run: RunId, ordered: seq<Output>, n: nat)
    requires Orders(t, run, ordered) && n <= |ordered|
    ensures Total(t, same, OfRun(JoinedRows(t), run)) == Total(t, same, ordered[..n]).Plus(Total(t, same, ordered[n..]))
  {
    SumPermutes(OfRun(JoinedRows(t), run), ordered, Scorer(t, same));
    assert ordered == ordered[..n] + ordered[n..];
    SumAppend(ordered[..n], ordered[n..], Scorer(t, same));
  }

  /** The run list's figures are the summaries' and those of the rows the summaries miss. */
  lemma RunListIsSummaryAndMissed(t: Tables, same: Matcher, run: RunId, ordered: seq<Output>, models: seq<ModelId>)
    requires Orders(t, run, ordered) && Distinct(models)
    ensures Total(t, same, OfRun(JoinedRows(t), run)) ==
            SummaryTotal(t, same, Limited(ordered, DEFAULT_LIMIT), models).Plus(Total(t, same, Missed(ordered, models)))
  {
    var listed := Limited(ordered, DEFAULT_LIMIT);
    var unclaimed, rest := Unclaimed(listed, models), ordered[|listed|..];
    assert listed == ordered[..|listed|];
    RunListSplits(t, same, run, ordered, |listed|);
    SummariesAdd(t, same, listed, models);
    SumAppend(unclaimed, rest, Scorer(t, same));
    Rearrange(SummaryTotal(t, same, listed, models), Total(t, same, rest), Total(t, same, unclaimed));
  }

  /** Same number scored, correct and unchecked. */
  predicate SameFigures(a: Tally, b: Tally) {
    a.scored == b.scored && a.correct == b.correct && a.unchecked == b.unchecked
  }

  /** Figures that leave some rows out are the same exactly when those rows scored nothing. */
  lemma MissingNothing(a: Tally, b: Tally)
    requires b.unchecked <= b.correct <= b.scored
    ensures SameFigures(a.Plus(b), a) <==> b.scored == 0
    ensures a.Plus(b).scored == a.scored <==> b.scored == 0
  {
  }

  /**
   The run list and the summary show the same figures exactly when every row that ran without error is
   among the first two thousand and belongs to a candidate of the run. It takes only the number scored
   to tell.
   */
  lemma SummaryAgreesExactly(t: Tables, same: Matcher, run: RunId, ordered: seq<Output>, models: seq<ModelId>)
    requires Orders(t, run, ordered) && Distinct(models)
    ensures var list := Total(t, same, OfRun(JoinedRows(t), run));
            var summary := SummaryTotal(t, same, Limited(ordered, DEFAULT_LIMIT), models);
            && (SameFigures(list, summary) <==> forall i :: 0 <= i < |ordered| && !ordered[i].failed ==> i < DEFAULT_LIMIT && ordered[i].model in models)
            && (SameFigures(list, summary) <==> list.scored == summary.scored)
  {
    var missed := Missed(ordered, models);
    RunListIsSummaryAndMissed(t, same, run, ordered, models);
    TalliesNest(t, same, missed);
    MissingNothing(SummaryTotal(t, same, Limited(ordered, DEFAULT_LIMIT), models), Total(t, same, missed));
    MissedRows(ordered, models);
  }

  lemma MissedRows(ordered: seq<Output>, models: seq<ModelId>)
    ensures (forall i :: 0 <= i < |Missed(ordered, models)| ==> Missed(ordered, models)[i].failed) <==>
            forall i :: 0 <= i < |ordered| && !ordered[i].failed ==> i < DEFAULT_LIMIT && ordered[i].model in models
  {
    var listed := Limited(ordered, DEFAULT_LIMIT);
    var missed := Missed(ordered, models);
    FilterKeeps(listed, IsOfNone(models));
    assert (forall i :: 0 <= i < |missed| ==> missed[i].failed) <==> forall o :: o in missed ==> o.failed;
    forall i | 0 <= i < |ordered| ensures (i < |listed| && ordered[i].model in models) || ordered[i] in missed {
      if i < |listed| {
        assert listed[i] == ordered[i] && listed[i] in listed;
      } else {
        assert ordered[|listed|..][i - |listed|] == ordered[i];
      }
    }
    forall o | o in missed ensures exists i :: 0 <= i < |ordered| && ordered[i] == o && !(i < |listed| && o.model in models) {
      MissedFrom(ordered, models, o);
    }
  }

  lemma MissedFrom(ordered: seq<Output>, models: seq<ModelId>, o: Output)
    requires o in Missed(ordered, models)
    ensures exists i :: 0 <= i < |ordered| && ordered[i] == o && !(i < |Limited(ordered, DEFAULT_LIMIT)| && o.model in models)
  {
    var listed := Limited(ordered, DEFAULT_LIMIT);
    var rest := ordered[|listed|..];
    FilterKeeps(listed, IsOfNone(models));
    if o in Unclaimed(listed, models) {
      var j :| 0 <= j < |listed| && listed[j] == o;
      assert ordered[j] == o;
    } else {
      var j :| 0 <= j < |rest| && rest[j] == o;
      assert ordered[j + |listed|] == o;
    }
  }

  /** The grid and the run list show the same figures exactly when the grid's limit cuts off no row that ran without error. */
  lemma GridAgreesExactly(t: Tables, same: Matcher, run: RunId, ordered: seq<Output>, limit: int)
    requires Orders(t, run, ordered)
    ensures var list := Total(t, same, OfRun(JoinedRows(t), run));
            var grid := Sum(Views(t, same, Limited(ordered, limit)), CountView);
            SameFigures(list, grid) <==> forall i :: |Limited(ordered, limit)| <= i < |ordered| ==> ordered[i].failed
  {
    var listed := Limited(ordered, limit);
    var rest := ordered[|listed|..];
    assert listed == ordered[..|listed|];
    RunListSplits(t, same, run, ordered, |listed|);
    GridIsTotal(t, same, listed);
    TalliesNest(t, same, rest);
    MissingNothing(Total(t, same, listed), Total(t, same, rest));
    NoneCutOff(ordered, |listed|);
  }

  lemma NoneCutOff(ordered: seq<Output>, n: nat)
    requires n <= |ordered|
    ensures (forall i :: 0 <= i < |ordered[n..]| ==> ordered[n..][i].failed) <==> forall i :: n <= i < |ordered| ==> ordered[i].failed
  {
    assert forall i :: n <= i < |ordered| ==> ordered[i] == ordered[n..][i - n];
  }

  /** A run of at most two thousand rows, each of a candidate of the run: all three agree, and their figures nest. */
  lemma AllThreeAgree(t: Tables, same: Matcher, run: RunId, ordered: seq<Output>, models: seq<ModelId>)
    requires Orders(t, run, ordered) && Distinct(models)
    requires |ordered| <= DEFAULT_LIMIT && forall i :: 0 <= i < |ordered| ==> ordered[i].model in models
    ensures var list := Total(t, same, OfRun(JoinedRows(t), run));
            && SameFigures(list, SummaryTotal(t, same, Limited(ordered, DEFAULT_LIMIT), models))
            && SameFigures(list, Sum(Views(t, same, Limited(ordered, DEFAULT_LIMIT)), CountView))
            && list.unchecked <= list.correct <= list.scored <= list.results
  {
    SummaryAgreesExactly(t, same, run, ordered, models);
    GridAgreesExactly(t, same, run, ordered, DEFAULT_LIMIT);
    TalliesNest(t, same, OfRun(JoinedRows(t), run));
  }
}
