/**
 * The row-grouping specification behind `where`: the store returns one solution
 * per combination of label values, so a class with several synonyms arrives as
 * several consecutive rows. The rows are cut into maximal runs of equal
 * `id.value`, and every run is summarised into one group whose label fields are
 * order-preserving sets (Ruby `Set`s) of the values bound in it.
 */
module Grouping {
  import opened Wrappers
  import opened Rdf

  /** The three multi-valued label fields of a solution row. */
  datatype Field = PrefLabelField | SynonymField | DefinitionField

  function FieldOf(row: LabelRow, f: Field): Option<Term> {
    match f
    case PrefLabelField => row.prefLabel
    case SynonymField => row.synonymLabel
    case DefinitionField => row.definition
  }

  /** Two rows belong to the same class when their ids have the same value. */
  predicate SameId(a: LabelRow, b: LabelRow) {
    a.id.value == b.id.value
  }

  // ---------------------------------------------------------------------------
  // Order-preserving sets

  /** `set << v unless v.nil?` on a Ruby Set, which keeps insertion order. */
  function Insert(s: seq<Term>, v: Option<Term>): seq<Term> {
    if v.None? || v.value in s then s else s + [v.value]
  }

  /** The values of s in order of first occurrence, each once. */
  function Dedup(s: seq<Term>): seq<Term> {
    if s == [] then [] else Insert(Dedup(s[..|s| - 1]), Some(s[|s| - 1]))
  }

  predicate NoDuplicates(s: seq<Term>) {
    forall i, j :: 0 <= i < j < |s| ==> s[i] != s[j]
  }

  /** The position of the first occurrence of x in s. */
  function FirstIndex(s: seq<Term>, x: Term): (i: nat)
    requires x in s
    ensures i < |s| && s[i] == x && x !in s[..i]
  {
    if s[0] == x then 0
    else
      var j := FirstIndex(s[1..], x);
      assert s[..j + 1] == [s[0]] + s[1..][..j];
      j + 1
  }

  lemma FirstIndexUnique(s: seq<Term>, x: Term, i: nat)
    requires i < |s| && s[i] == x && x !in s[..i]
    ensures FirstIndex(s, x) == i
  {
  }

  lemma FirstIndexSnoc(s: seq<Term>, y: Term, x: Term)
    requires x in s
    ensures FirstIndex(s + [y], x) == FirstIndex(s, x)
  {
    var i := FirstIndex(s, x);
    assert (s + [y])[..i] == s[..i];
    FirstIndexUnique(s + [y], x, i);
  }

  /**
   * Dedup is the insertion-ordered set of s: no value twice, exactly the values
   * of s, and values ordered by their first occurrence in s.
   */
  lemma {:induction false} DedupIsOrderedSet(s: seq<Term>)
    ensures NoDuplicates(Dedup(s))
    ensures forall x :: x in Dedup(s) <==> x in s
    ensures forall i, j :: 0 <= i < j < |Dedup(s)| ==> FirstIndex(s, Dedup(s)[i]) < FirstIndex(s, Dedup(s)[j])
  {
    if s != [] {
      var p, y := s[..|s| - 1], s[|s| - 1];
      assert s == p + [y];
      DedupIsOrderedSet(p);
      var d := Dedup(p);
      forall x ensures x in Dedup(s) <==> x in s {
        assert x in s <==> x in p || x == y;
      }
      forall i | 0 <= i < |d| ensures FirstIndex(s, d[i]) == FirstIndex(p, d[i]) {
        FirstIndexSnoc(p, y, d[i]);
      }
      if y !in d {
        assert Dedup(s) == d + [y];
        FirstIndexUnique(s, y, |p|);
        assert forall i :: 0 <= i < |d| ==> Dedup(s)[i] == d[i];
      }
    }
  }

  /** Whether an optional value, as a sequence of zero or one values. */
  function Present(v: Option<Term>): seq<Term> {
    if v.Some? then [v.value] else []
  }

  lemma DedupSnoc(s: seq<Term>, v: Option<Term>)
    ensures Dedup(s + Present(v)) == Insert(Dedup(s), v)
  {
    if v.Some? {
      assert (s + [v.value])[..|s|] == s;
    } else {
      assert s + [] == s;
    }
  }

  // ---------------------------------------------------------------------------
  // Runs and groups

  /** The bound values of field f across rows, in row order. */
  function Values(rows: seq<LabelRow>, f: Field): seq<Term> {
    if rows == [] then []
    else Values(rows[..|rows| - 1], f) + Present(FieldOf(rows[|rows| - 1], f))
  }

  /** The accumulated form of one class: its id and three insertion-ordered sets. */
  datatype Group = Group(id: Term, prefLabels: seq<Term>, synonyms: seq<Term>, definitions: seq<Term>)

  /**
   * The group of one run: the id of its last row (the source keeps the id of the
   * row it read last) and the deduplicated bound values of each label field.
   */
  function Summary(run: seq<LabelRow>): Group
    requires run != []
  {
    Group(run[|run| - 1].id,
          Dedup(Values(run, PrefLabelField)),
          Dedup(Values(run, SynonymField)),
          Dedup(Values(run, DefinitionField)))
  }

  /** One step of the loop inside a run: take the row's id and add its bound values. */
  function Accumulate(g: Group, row: LabelRow): Group {
    Group(row.id,
          Insert(g.prefLabels, row.prefLabel),
          Insert(g.synonyms, row.synonymLabel),
          Insert(g.definitions, row.definition))
  }

  /** The first row of a run, added to fresh empty sets. */
  function Start(row: LabelRow): Group {
    Accumulate(Group(row.id, [], [], []), row)
  }

  lemma SummarySnoc(run: seq<LabelRow>, r: LabelRow)
    requires run != []
    ensures Summary(run + [r]) == Accumulate(Summary(run), r)
  {
    var s := run + [r];
    assert s[..|s| - 1] == run;
    DedupSnoc(Values(run, PrefLabelField), r.prefLabel);
    DedupSnoc(Values(run, SynonymField), r.synonymLabel);
    DedupSnoc(Values(run, DefinitionField), r.definition);
  }

  lemma SummaryOne(r: LabelRow)
    ensures Summary([r]) == Start(r)
  {
    assert [r][..0] == [];
    DedupSnoc([], r.prefLabel);
    DedupSnoc([], r.synonymLabel);
    DedupSnoc([], r.definition);
    forall f: Field ensures Values([r], f) == [] + Present(FieldOf(r, f)) {
      assert [r][..0] == [];
    }
  }

  /** The maximal runs of consecutive rows with equal id value, in stream order. */
  function Runs(rows: seq<LabelRow>): (runs: seq<seq<LabelRow>>)
    ensures (|runs| == 0) == (|rows| == 0)
    ensures forall k :: 0 <= k < |runs| ==> runs[k] != []
  {
    if rows == [] then []
    else
      var init := Runs(rows[..|rows| - 1]);
      var r := rows[|rows| - 1];
      if |rows| > 1 && SameId(rows[|rows| - 2], r) then
        init[..|init| - 1] + [init[|init| - 1] + [r]]
      else
        init + [[r]]
  }

  /**
   * The groups `where` builds from a row stream, row by row: a row with the
   * previous row's id value extends the last group, any other row starts a
   * new one.
   */
  function Groups(rows: seq<LabelRow>): (gs: seq<Group>)
    ensures |gs| == |Runs(rows)|
  {
    if rows == [] then []
    else
      var g := Groups(rows[..|rows| - 1]);
      var r := rows[|rows| - 1];
      if |rows| > 1 && SameId(rows[|rows| - 2], r) then g[..|g| - 1] + [Accumulate(g[|g| - 1], r)]
      else g + [Start(r)]
  }

  /**
   * Reading one more row either extends the last group (same id value as the
   * previous row) or completes it and starts a new one.
   */
  lemma GroupsSnoc(rows: seq<LabelRow>, r: LabelRow)
    ensures var g, g' := Groups(rows), Groups(rows + [r]);
            if rows != [] && SameId(rows[|rows| - 1], r)
            then g != [] && g' == g[..|g| - 1] + [Accumulate(g[|g| - 1], r)]
            else g' == g + [Start(r)]
  {
    var s := rows + [r];
    assert s[..|s| - 1] == rows;
    if |s| > 1 {
      assert s[|s| - 2] == rows[|rows| - 1];
    }
  }

  /**
   * The groups of the first n rows, counted by index rather than by slicing:
   * the form in which a loop over the rows keeps them.
   */
  ghost function GroupsOfPrefix(rows: seq<LabelRow>, n: nat): (gs: seq<Group>)
    requires n <= |rows|
    ensures n > 0 <==> gs != []
  {
    if n == 0 then []
    else
      var g := GroupsOfPrefix(rows, n - 1);
      var r := rows[n - 1];
      if n > 1 && SameId(rows[n - 2], r) then g[..|g| - 1] + [Accumulate(g[|g| - 1], r)]
      else g + [Start(r)]
  }

  lemma {:induction false} GroupsOfPrefixIsGroups(rows: seq<LabelRow>, n: nat)
    requires n <= |rows|
    ensures GroupsOfPrefix(rows, n) == Groups(rows[..n])
  {
    if n > 0 {
      GroupsOfPrefixIsGroups(rows, n - 1);
      var p := rows[..n - 1];
      assert rows[..n] == p + [rows[n - 1]];
      if n > 1 {
        assert p[|p| - 1] == rows[n - 2];
      }
      GroupsSnoc(p, rows[n - 1]);
    }
  }

  /** Each group is the summary of the maximal run it comes from. */
  lemma {:induction false} GroupsAreSummaries(rows: seq<LabelRow>)
    ensures forall k :: 0 <= k < |Groups(rows)| ==> Groups(rows)[k] == Summary(Runs(rows)[k])
  {
    if rows != [] {
      var p, r := rows[..|rows| - 1], rows[|rows| - 1];
      assert rows == p + [r];
      GroupsAreSummaries(p);
      GroupsSnoc(p, r);
      RunsSnoc(p, r);
      var g, init := Groups(p), Runs(p);
      if p != [] && SameId(p[|p| - 1], r) {
        SummariesExtendLast(g, init, r);
      } else {
        SummariesAppend(g, init, r);
      }
    }
  }

  /** Pairs each group with the run it summarises. */
  ghost predicate Summarises(gs: seq<Group>, runs: seq<seq<LabelRow>>) {
    |gs| == |runs| && forall k :: 0 <= k < |runs| ==> runs[k] != [] && gs[k] == Summary(runs[k])
  }

  lemma SummariesExtendLast(gs: seq<Group>, runs: seq<seq<LabelRow>>, r: LabelRow)
    requires runs != [] && Summarises(gs, runs)
    ensures Summarises(gs[..|gs| - 1] + [Accumulate(gs[|gs| - 1], r)], runs[..|runs| - 1] + [runs[|runs| - 1] + [r]])
  {
    var n := |runs|;
    var gs', runs' := gs[..n - 1] + [Accumulate(gs[n - 1], r)], runs[..n - 1] + [runs[n - 1] + [r]];
    forall k | 0 <= k < n
      ensures runs'[k] != [] && gs'[k] == Summary(runs'[k])
    {
      if k < n - 1 {
        assert runs'[k] == runs[k] && gs'[k] == gs[k];
      } else {
        SummarySnoc(runs[n - 1], r);
      }
    }
  }

  lemma SummariesAppend(gs: seq<Group>, runs: seq<seq<LabelRow>>, r: LabelRow)
    requires Summarises(gs, runs)
    ensures Summarises(gs + [Start(r)], runs + [[r]])
  {
    var n := |runs|;
    var gs', runs' := gs + [Start(r)], runs + [[r]];
    forall k | 0 <= k <= n
      ensures runs'[k] != [] && gs'[k] == Summary(runs'[k])
    {
      if k < n {
        assert runs'[k] == runs[k] && gs'[k] == gs[k];
      } else {
        SummaryOne(r);
      }
    }
  }

  // ---------------------------------------------------------------------------
  // What the grouping promises

  /** The rows of the runs, run after run. */
  function Flatten(runs: seq<seq<LabelRow>>): seq<LabelRow> {
    if runs == [] then [] else Flatten(runs[..|runs| - 1]) + runs[|runs| - 1]
  }

  /** Every row of the run has the id value of its first row. */
  predicate Uniform(run: seq<LabelRow>) {
    forall i :: 0 <= i < |run| ==> SameId(run[i], run[0])
  }

  /** Reading one more row extends the last run or opens a new one. */
  lemma RunsSnoc(p: seq<LabelRow>, r: LabelRow)
    ensures var init, runs := Runs(p), Runs(p + [r]);
            if p != [] && SameId(p[|p| - 1], r)
            then init != [] && runs == init[..|init| - 1] + [init[|init| - 1] + [r]]
            else runs == init + [[r]]
  {
    var s := p + [r];
    assert s[..|s| - 1] == p;
    if |s| > 1 {
      assert s[|s| - 2] == p[|p| - 1];
    }
  }

  /** Read in order, the runs give back the rows. */
  lemma {:induction false} RunsFlatten(rows: seq<LabelRow>)
    ensures Flatten(Runs(rows)) == rows
  {
    if rows != [] {
      var p, r := rows[..|rows| - 1], rows[|rows| - 1];
      assert rows == p + [r];
      RunsFlatten(p);
      RunsSnoc(p, r);
      var init, runs := Runs(p), Runs(rows);
      if p != [] && SameId(p[|p| - 1], r) {
        var pre, last := init[..|init| - 1], init[|init| - 1];
        assert init == pre + [last] && init[..|init| - 1] == pre;
        assert runs[..|runs| - 1] == pre;
        assert Flatten(runs) == Flatten(pre) + (last + [r]);
      } else {
        assert runs[..|runs| - 1] == init;
      }
    }
  }

  /** The last row of the stream closes the last run. */
  lemma {:induction false} RunsLastRow(rows: seq<LabelRow>)
    requires rows != []
    ensures var runs := Runs(rows); runs[|runs| - 1][|runs[|runs| - 1]| - 1] == rows[|rows| - 1]
  {
    var p, r := rows[..|rows| - 1], rows[|rows| - 1];
    assert rows == p + [r];
    RunsSnoc(p, r);
  }

  /** Each run has a single id value. */
  lemma {:induction false} RunsUniform(rows: seq<LabelRow>)
    ensures forall k :: 0 <= k < |Runs(rows)| ==> Uniform(Runs(rows)[k])
  {
    if rows != [] {
      var p, r := rows[..|rows| - 1], rows[|rows| - 1];
      assert rows == p + [r];
      RunsUniform(p);
      RunsSnoc(p, r);
      var init, runs := Runs(p), Runs(rows);
      if p != [] && SameId(p[|p| - 1], r) {
        RunsLastRow(p);
        var last := init[|init| - 1];
        UniformSnoc(last, r);
        forall k | 0 <= k < |runs| ensures Uniform(runs[k]) {
          if k < |runs| - 1 {
            assert runs[k] == init[k];
          }
        }
      } else {
        forall k | 0 <= k < |runs| ensures Uniform(runs[k]) {
          if k < |init| {
            assert runs[k] == init[k];
          }
        }
      }
    }
  }

  lemma UniformSnoc(run: seq<LabelRow>, r: LabelRow)
    requires run != [] && Uniform(run) && SameId(run[|run| - 1], r)
    ensures Uniform(run + [r])
  {
    assert SameId(run[|run| - 1], run[0]);
  }

  /** Neighbouring runs differ in id value at their boundary. */
  ghost predicate BoundariesDiffer(runs: seq<seq<LabelRow>>)
    requires forall k :: 0 <= k < |runs| ==> runs[k] != []
  {
    forall k :: 0 <= k < |runs| - 1 ==> !SameId(runs[k][|runs[k]| - 1], runs[k + 1][0])
  }

  /** A row added to the last run keeps the boundaries, whose first rows do not change. */
  lemma BoundariesExtendLast(runs: seq<seq<LabelRow>>, r: LabelRow)
    requires runs != [] && forall k :: 0 <= k < |runs| ==> runs[k] != []
    requires BoundariesDiffer(runs)
    ensures var runs' := runs[..|runs| - 1] + [runs[|runs| - 1] + [r]];
            (forall k :: 0 <= k < |runs'| ==> runs'[k] != []) && BoundariesDiffer(runs')
  {
    var runs' := runs[..|runs| - 1] + [runs[|runs| - 1] + [r]];
    assert forall k :: 0 <= k < |runs'| - 1 ==> runs'[k] == runs[k];
    forall k | 0 <= k < |runs'| - 1 ensures !SameId(runs'[k][|runs'[k]| - 1], runs'[k + 1][0]) {
      assert runs'[k + 1][0] == runs[k + 1][0];
    }
  }

  /** A new run whose row differs from the last row of the last run keeps the boundaries. */
  lemma BoundariesAppend(runs: seq<seq<LabelRow>>, r: LabelRow)
    requires forall k :: 0 <= k < |runs| ==> runs[k] != []
    requires BoundariesDiffer(runs)
    requires runs != [] ==> !SameId(runs[|runs| - 1][|runs[|runs| - 1]| - 1], r)
    ensures (forall k :: 0 <= k < |runs + [[r]]| ==> (runs + [[r]])[k] != []) && BoundariesDiffer(runs + [[r]])
  {
    var runs' := runs + [[r]];
    forall k | 0 <= k < |runs'| - 1 ensures !SameId(runs'[k][|runs'[k]| - 1], runs'[k + 1][0]) {
      assert runs'[k] == runs[k];
      if k + 1 < |runs| {
        assert runs'[k + 1] == runs[k + 1];
      }
    }
  }

  /** Two neighbouring runs differ in id value, so every run is maximal. */
  lemma {:induction false} RunsMaximal(rows: seq<LabelRow>)
    ensures var runs := Runs(rows);
            forall k :: 0 <= k < |runs| - 1 ==> !SameId(runs[k][|runs[k]| - 1], runs[k + 1][0])
  {
    if rows != [] {
      var p, r := rows[..|rows| - 1], rows[|rows| - 1];
      assert rows == p + [r];
      RunsMaximal(p);
      RunsSnoc(p, r);
      var init := Runs(p);
      assert BoundariesDiffer(init);
      if p != [] && SameId(p[|p| - 1], r) {
        BoundariesExtendLast(init, r);
      } else {
        if p != [] {
          RunsLastRow(p);
        }
        BoundariesAppend(init, r);
      }
      assert BoundariesDiffer(Runs(rows));
    }
  }

  /**
   * The runs partition the stream into maximal runs: read in order they give
   * back the rows, each run has one id value, neighbouring runs differ in it,
   * and the last row of the stream closes the last run, so nothing at the end
   * of the stream is dropped.
   */
  lemma RunsPartition(rows: seq<LabelRow>)
    ensures var runs := Runs(rows);
            && Flatten(runs) == rows
            && (forall k :: 0 <= k < |runs| ==> Uniform(runs[k]))
            && (forall k :: 0 <= k < |runs| - 1 ==> !SameId(runs[k][|runs[k]| - 1], runs[k + 1][0]))
            && (rows != [] ==> runs[|runs| - 1][|runs[|runs| - 1]| - 1] == rows[|rows| - 1])
  {
    RunsFlatten(rows);
    RunsUniform(rows);
    RunsMaximal(rows);
    if rows != [] {
      RunsLastRow(rows);
    }
  }

  /** The positions after which the id value changes. */
  function ChangePoints(rows: seq<LabelRow>): set<int> {
    set i | 0 <= i < |rows| - 1 && ChangesAt(rows, i)
  }

  predicate ChangesAt(rows: seq<LabelRow>, i: int)
    requires 0 <= i < |rows| - 1
  {
    !SameId(rows[i], rows[i + 1])
  }

  /**
   * An empty stream gives no group; any other gives one group more than it has
   * id changes, so the run still open at the end of the stream is counted.
   */
  lemma {:induction false} GroupCount(rows: seq<LabelRow>)
    ensures |Groups(rows)| == if rows == [] then 0 else |ChangePoints(rows)| + 1
  {
    if rows != [] {
      var p, r := rows[..|rows| - 1], rows[|rows| - 1];
      assert rows == p + [r];
      GroupCount(p);
      GroupsSnoc(p, r);
      if p != [] {
        ChangePointsSnoc(p, r);
        assert |p| - 1 !in ChangePoints(p);
      } else {
        assert ChangePoints(rows) == {};
      }
    }
  }

  /** Appending a row adds at most one change point: the old last index. */
  lemma ChangePointsSnoc(p: seq<LabelRow>, r: LabelRow)
    requires p != []
    ensures ChangePoints(p + [r])
         == ChangePoints(p) + if SameId(p[|p| - 1], r) then {} else {|p| - 1}
  {
    var rows := p + [r];
    var extra: set<int> := if SameId(p[|p| - 1], r) then {} else {|p| - 1};
    forall i | i in ChangePoints(rows) ensures i in ChangePoints(p) + extra {
      if i < |p| - 1 {
        assert rows[i] == p[i] && rows[i + 1] == p[i + 1];
      }
    }
    forall i | i in ChangePoints(p) + extra ensures i in ChangePoints(rows) {
      if i < |p| - 1 {
        assert rows[i] == p[i] && rows[i + 1] == p[i + 1];
      }
    }
  }

  function IdValues(rows: seq<LabelRow>): set<string> {
    set r | r in rows :: r.id.value
  }

  function GroupIdValues(gs: seq<Group>): set<string> {
    set g | g in gs :: g.id.value
  }

  lemma IdValuesSnoc(rows: seq<LabelRow>, r: LabelRow)
    ensures IdValues(rows + [r]) == IdValues(rows) + {r.id.value}
  {
    assert forall x :: x in rows + [r] <==> x in rows || x == r;
  }

  lemma GroupIdValuesSnoc(gs: seq<Group>, g: Group)
    ensures GroupIdValues(gs + [g]) == GroupIdValues(gs) + {g.id.value}
  {
    assert forall x :: x in gs + [g] <==> x in gs || x == g;
  }

  /** The last group has the id of the last row. */
  lemma LastGroupId(rows: seq<LabelRow>)
    requires rows != []
    ensures Groups(rows) != [] && Groups(rows)[|Groups(rows)| - 1].id == rows[|rows| - 1].id
  {
    var p, r := rows[..|rows| - 1], rows[|rows| - 1];
    assert rows == p + [r];
    GroupsSnoc(p, r);
  }

  /** The groups carry exactly the id values of the rows. */
  lemma {:induction false} GroupIdsAreRowIds(rows: seq<LabelRow>)
    ensures GroupIdValues(Groups(rows)) == IdValues(rows)
  {
    if rows != [] {
      var p, r := rows[..|rows| - 1], rows[|rows| - 1];
      assert rows == p + [r];
      GroupIdsAreRowIds(p);
      GroupsSnoc(p, r);
      IdValuesSnoc(p, r);
      var g := Groups(p);
      if p != [] && SameId(p[|p| - 1], r) {
        LastGroupId(p);
        assert g == g[..|g| - 1] + [g[|g| - 1]];
        GroupIdValuesSnoc(g[..|g| - 1], g[|g| - 1]);
        GroupIdValuesSnoc(g[..|g| - 1], Accumulate(g[|g| - 1], r));
      } else {
        GroupIdValuesSnoc(g, Start(r));
      }
    }
  }

  /** Rows of one id value are consecutive in the stream. */
  predicate Contiguous(rows: seq<LabelRow>) {
    forall i, j, k :: 0 <= i < j < k < |rows| && SameId(rows[i], rows[k]) ==> SameId(rows[i], rows[j])
  }

  /** When each id value's rows are consecutive, no two groups share an id value. */
  lemma {:induction false} ContiguousGroupIdsDistinct(rows: seq<LabelRow>)
    requires Contiguous(rows)
    ensures forall j, k :: 0 <= j < k < |Groups(rows)| ==> Groups(rows)[j].id.value != Groups(rows)[k].id.value
  {
    if rows != [] {
      var p, r := rows[..|rows| - 1], rows[|rows| - 1];
      assert rows == p + [r];
      ContiguousPrefix(rows);
      ContiguousGroupIdsDistinct(p);
      GroupsSnoc(p, r);
      var g := Groups(p);
      if p != [] && SameId(p[|p| - 1], r) {
        LastGroupId(p);
        DistinctIdsExtendLast(g, r);
      } else {
        if p != [] {
          NewIdUnseen(rows);
        }
        GroupIdsAreRowIds(p);
        DistinctIdsAppend(g, r);
      }
    }
  }

  /** No two groups share an id value. */
  ghost predicate DistinctIds(gs: seq<Group>) {
    forall j, k :: 0 <= j < k < |gs| ==> gs[j].id.value != gs[k].id.value
  }

  lemma DistinctIdsExtendLast(gs: seq<Group>, r: LabelRow)
    requires gs != [] && DistinctIds(gs) && gs[|gs| - 1].id.value == r.id.value
    ensures DistinctIds(gs[..|gs| - 1] + [Accumulate(gs[|gs| - 1], r)])
  {
    var gs' := gs[..|gs| - 1] + [Accumulate(gs[|gs| - 1], r)];
    forall m | 0 <= m < |gs'|
      ensures gs'[m].id.value == gs[m].id.value
    {
    }
  }

  lemma DistinctIdsAppend(gs: seq<Group>, r: LabelRow)
    requires DistinctIds(gs) && r.id.value !in GroupIdValues(gs)
    ensures DistinctIds(gs + [Start(r)])
  {
    forall m | 0 <= m < |gs|
      ensures gs[m].id.value != r.id.value
    {
      assert gs[m] in gs;
    }
  }

  lemma ContiguousPrefix(rows: seq<LabelRow>)
    requires rows != [] && Contiguous(rows)
    ensures Contiguous(rows[..|rows| - 1])
  {
    var p := rows[..|rows| - 1];
    forall i, j, k | 0 <= i < j < k < |p| && SameId(p[i], p[k])
      ensures SameId(p[i], p[j])
    {
      assert rows[i] == p[i] && rows[j] == p[j] && rows[k] == p[k];
    }
  }

  /** In a contiguous stream, a row whose id differs from the previous row's has an id no earlier row has. */
  lemma NewIdUnseen(rows: seq<LabelRow>)
    requires |rows| > 1 && Contiguous(rows) && !SameId(rows[|rows| - 2], rows[|rows| - 1])
    ensures rows[|rows| - 1].id.value !in IdValues(rows[..|rows| - 1])
  {
    var n := |rows|;
    forall x | 0 <= x < n - 1
      ensures !SameId(rows[x], rows[n - 1])
    {
      if x < n - 2 {
        assert SameId(rows[x], rows[n - 1]) ==> SameId(rows[x], rows[n - 2]);
      }
    }
    var p := rows[..n - 1];
    forall q | q in p
      ensures q.id.value != rows[n - 1].id.value
    {
      var x :| 0 <= x < |p| && p[x] == q;
      assert rows[x] == q;
    }
  }

  /** Lexicographic order on strings, by character code. */
  predicate StrLe(a: string, b: string) {
    a == [] || (b != [] && (a[0] < b[0] || (a[0] == b[0] && StrLe(a[1..], b[1..]))))
  }

  lemma {:induction false} StrLeAntisymmetric(a: string, b: string)
    requires StrLe(a, b) && StrLe(b, a)
    ensures a == b
  {
    if a != [] && b != [] {
      StrLeAntisymmetric(a[1..], b[1..]);
      assert a == [a[0]] + a[1..] && b == [b[0]] + b[1..];
    }
  }

  /** The rows come in ascending order of id value (ORDER BY ?id). */
  predicate SortedById(rows: seq<LabelRow>) {
    forall i, j :: 0 <= i < j < |rows| ==> StrLe(rows[i].id.value, rows[j].id.value)
  }

  /**
   * For a stream ordered by id, `where` builds exactly one group per distinct
   * id value of the stream.
   */
  lemma SortedRowsOneGroupPerId(rows: seq<LabelRow>)
    requires SortedById(rows)
    ensures forall j, k :: 0 <= j < k < |Groups(rows)| ==> Groups(rows)[j].id.value != Groups(rows)[k].id.value
    ensures GroupIdValues(Groups(rows)) == IdValues(rows)
  {
    forall i, j, k | 0 <= i < j < k < |rows| && SameId(rows[i], rows[k]) ensures SameId(rows[i], rows[j]) {
      StrLeAntisymmetric(rows[i].id.value, rows[j].id.value);
    }
    ContiguousGroupIdsDistinct(rows);
    GroupIdsAreRowIds(rows);
  }
}
