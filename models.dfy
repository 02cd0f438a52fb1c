/**
 * LinkedData::Models::Class: an ontology class whose attributes are loaded
 * lazily. Labels are present either from construction or after `LoadLabels`;
 * parents and children count as loaded once their slot holds a list, even an
 * empty one; `Where` rebuilds classes from the store's flat row stream.
 */
module Models {
  import opened Wrappers
  import opened Rdf
  import opened Errors
  import opened Queries
  import opened Grouping
  import NS = Namespaces

  // ---------------------------------------------------------------------------
  // The attributes hash

  /** The keys of `@attributes`: five symbols, and the IRI string of any non-standard predicate. */
  datatype Key =
    | PrefLabelKey
    | SynonymsKey
    | DefinitionsKey
    | ParentsKey
    | ChildrenKey
    | PredicateKey(iri: string)

  /** What `@attributes` holds under a key: nil, a label literal, a list of terms, or a list of classes. */
  datatype Value =
    | Nil
    | Label(term: Term)
    | Terms(terms: seq<Term>)
    | Relatives(classes: seq<Class>)

  /** A missing key reads as nil, as in a Ruby hash. */
  function Get(attrs: map<Key, Value>, k: Key): Value {
    if k in attrs then attrs[k] else Nil
  }

  /** The instance variables of a Class, as a value. */
  datatype ClassState = ClassState(
    resourceId: Term,
    submission: Submission,
    attributes: map<Key, Value>,
    loadedLabels: bool,
    loadedAttributes: bool)

  /**
   * The predicates `load_non_standard_attributes` treats as standard and never
   * stores: the default alt label, the hierarchy property (the submission's or
   * the default), the default and meta preferred labels, the default definition
   * and the submission's preferred-label property.
   */
  function StandardPredicates(sub: Submission): seq<string> {
    [ NS.DefaultAltLabel.value,
      HierarchyPropertyOf(sub).value,
      NS.DefaultPrefLabel.value,
      NS.MetaPrefLabel.value,
      NS.DefaultDefinition.value,
      sub.prefLabelProperty.value ]
  }

  /** Two hashes agree on every non-standard predicate key. */
  ghost predicate SamePredicateValues(a: map<Key, Value>, b: map<Key, Value>) {
    forall p :: Get(a, PredicateKey(p)) == Get(b, PredicateKey(p))
  }

  /** Non-standard predicates hold lists of terms, and no standard predicate is a key. */
  predicate ValidAttributes(attrs: map<Key, Value>, sub: Submission) {
    forall k :: k in attrs && k.PredicateKey? ==> attrs[k].Terms? && k.iri !in StandardPredicates(sub)
  }

  // ---------------------------------------------------------------------------
  // Construction

  /** The `plabel` argument of `initialize`: an array of labels, or one bare value. */
  datatype LabelInput = LabelArray(items: seq<Term>) | LabelValue(item: Term)

  function LabelsGiven(input: LabelInput): seq<Term> {
    match input
    case LabelArray(items) => items
    case LabelValue(item) => [item]
  }

  function StoreLiteral(t: Term): Result<Option<Term>, Error> {
    if t.Literal? then Ok(Some(t)) else Err(ArgumentError(UnknownPrefLabelType))
  }

  /**
   * `set_prefLabel`: the one-label rule. More than one label raises, a label
   * that is not a literal raises, an empty array stores nothing, and otherwise
   * the one given label is stored.
   */
  function SetPrefLabel(input: LabelInput): (r: Result<Option<Term>, Error>)
    ensures r.Err? <==> |LabelsGiven(input)| > 1 || (|LabelsGiven(input)| == 1 && !LabelsGiven(input)[0].Literal?)
    ensures r.Err? ==> r.error == ArgumentError(if |LabelsGiven(input)| > 1 then OnlyOneLabel else UnknownPrefLabelType)
    ensures r.Ok? ==> Present(r.value) == LabelsGiven(input)
  {
    match input
    case LabelArray(items) =>
      if |items| == 0 then Ok(None)
      else if |items| > 1 then Err(ArgumentError(OnlyOneLabel))
      else StoreLiteral(items[0])
    case LabelValue(item) => StoreLiteral(item)
  }

  function ListValue(l: Option<seq<Term>>): Value {
    if l.Some? then Terms(l.value) else Nil
  }

  /** The state `initialize` leaves when given nothing but an id and a submission. */
  function Bare(id: Term, sub: Submission): ClassState {
    ClassState(id, sub, map[SynonymsKey := Nil, DefinitionsKey := Nil], false, false)
  }

  /**
   * `initialize`: labels count as loaded exactly when a `plabel` is given (an
   * empty array included); the preferred label passes `set_prefLabel`; the
   * synonyms and definitions slots always exist and hold what was passed.
   */
  function BuildClass(id: Term, sub: Submission, plabel: Option<LabelInput>,
                      synonyms: Option<seq<Term>>, definitions: Option<seq<Term>>): (r: Result<ClassState, Error>)
  {
    var given := if plabel.Some? then SetPrefLabel(plabel.value) else Ok(None);
    if given.Err? then Err(given.error)
    else
      var base: map<Key, Value> := if given.value.Some? then map[PrefLabelKey := Label(given.value.value)] else map[];
      Ok(ClassState(id, sub, base[SynonymsKey := ListValue(synonyms)][DefinitionsKey := ListValue(definitions)],
                    plabel.Some?, false))
  }

  /**
   * What `initialize` promises: it raises exactly when `set_prefLabel` does;
   * otherwise it keeps the id and submission, sets the labels flag exactly
   * when a label argument was given, stores the synonyms and definitions
   * arguments as they are and the first label when there is one.
   */
  lemma BuildClassSpec(id: Term, sub: Submission, plabel: Option<LabelInput>,
                       synonyms: Option<seq<Term>>, definitions: Option<seq<Term>>)
    ensures var r := BuildClass(id, sub, plabel, synonyms, definitions);
            && (r.Err? <==> plabel.Some? && SetPrefLabel(plabel.value).Err?)
            && (r.Err? ==> r.error == SetPrefLabel(plabel.value).error)
            && (r.Ok? ==> r.value.resourceId == id && r.value.submission == sub)
            && (r.Ok? ==> r.value.loadedLabels == plabel.Some? && !r.value.loadedAttributes)
            && (r.Ok? ==> r.value.attributes.Keys <= {PrefLabelKey, SynonymsKey, DefinitionsKey})
            && (r.Ok? ==> Get(r.value.attributes, SynonymsKey) == ListValue(synonyms))
            && (r.Ok? ==> Get(r.value.attributes, DefinitionsKey) == ListValue(definitions))
            && (r.Ok? ==> (PrefLabelKey in r.value.attributes <==> plabel.Some? && LabelsGiven(plabel.value) != []))
            && (r.Ok? && plabel.Some? && LabelsGiven(plabel.value) != [] ==>
               Get(r.value.attributes, PrefLabelKey) == Label(LabelsGiven(plabel.value)[0]))
            && (plabel.None? && synonyms.None? && definitions.None? ==> r == Ok(Bare(id, sub)))
  {
  }

  // ---------------------------------------------------------------------------
  // Accessors

  function KeyOf(a: Attribute): Key {
    match a
    case PrefLabelAttr => PrefLabelKey
    case DefinitionsAttr => DefinitionsKey
    case SynonymLabelAttr => SynonymsKey
    case ParentsAttr => ParentsKey
    case ChildrenAttr => ChildrenKey
  }

  predicate IsLabelAttribute(a: Attribute) {
    a.PrefLabelAttr? || a.DefinitionsAttr? || a.SynonymLabelAttr?
  }

  /**
   * The guard of an accessor: the label accessors check the labels flag;
   * `parents` and `children` check that their slot is not nil.
   */
  predicate Loaded(s: ClassState, a: Attribute) {
    if IsLabelAttribute(a) then s.loadedLabels else !Get(s.attributes, KeyOf(a)).Nil?
  }

  /** An accessor: ClassAttributeNotLoaded naming the attribute, or the slot's value. */
  function Read(s: ClassState, a: Attribute): Result<Value, Error> {
    if Loaded(s, a) then Ok(Get(s.attributes, KeyOf(a))) else Err(ClassAttributeNotLoaded(a))
  }

  /**
   * A class built without `plabel` raises ClassAttributeNotLoaded from all
   * three label accessors; one built with any `plabel` that passes the
   * one-label rule, an empty array included, answers all three.
   */
  lemma ConstructionGatesLabels(id: Term, sub: Submission, plabel: Option<LabelInput>,
                                synonyms: Option<seq<Term>>, definitions: Option<seq<Term>>, a: Attribute)
    requires BuildClass(id, sub, plabel, synonyms, definitions).Ok?
    requires IsLabelAttribute(a)
    ensures var s := BuildClass(id, sub, plabel, synonyms, definitions).value;
            && (Read(s, a).Ok? <==> plabel.Some?)
            && (plabel.None? ==> Read(s, a) == Err(ClassAttributeNotLoaded(a)))
  {
  }

  /**
   * Round trip: a class built from one literal label and lists of synonyms and
   * definitions reads back exactly those; with an empty label array the
   * preferred label reads back as nil while labels count as loaded.
   */
  lemma ConstructionRoundTrip(id: Term, sub: Submission, labels: seq<Term>, synonyms: seq<Term>, definitions: seq<Term>)
    requires |labels| <= 1 && forall x :: x in labels ==> x.Literal?
    ensures var r := BuildClass(id, sub, Some(LabelArray(labels)), Some(synonyms), Some(definitions));
            && r.Ok?
            && Read(r.value, PrefLabelAttr) == Ok(if labels == [] then Nil else Label(labels[0]))
            && Read(r.value, SynonymLabelAttr) == Ok(Terms(synonyms))
            && Read(r.value, DefinitionsAttr) == Ok(Terms(definitions))
  {
    if labels != [] {
      assert labels[0] in labels;
    }
  }

  // ---------------------------------------------------------------------------
  // The labels and attributes predicates

  /** `loaded_labels?` as written: it reads `@load_labels`, which nothing assigns, so it is always nil. */
  function LoadedLabelsReportAsWritten(s: ClassState): Option<bool> {
    None
  }

  /** The report disagrees with the accessors: a class whose labels are readable is reported as nil. */
  lemma LoadedLabelsReportAsWrittenIsWrong(id: Term, sub: Submission)
    ensures var s := BuildClass(id, sub, Some(LabelArray([])), None, None).value;
            Read(s, PrefLabelAttr).Ok? && LoadedLabelsReportAsWritten(s) == None
  {
  }

  /** `loaded_labels?` reading `@loaded_labels`, the flag the accessors test. */
  function LoadedLabelsReport(s: ClassState): (r: Option<bool>)
    ensures r == Some(true) <==> forall a :: IsLabelAttribute(a) ==> Read(s, a).Ok?
    ensures r == Some(false) <==> forall a :: IsLabelAttribute(a) ==> Read(s, a) == Err(ClassAttributeNotLoaded(a))
  {
    assert IsLabelAttribute(PrefLabelAttr);
    Some(s.loadedLabels)
  }

  /** `loaded_attributes?` as written: it reads `@load_attributes`, which nothing assigns, so it is always nil. */
  function LoadedAttributesReportAsWritten(s: ClassState): Option<bool> {
    None
  }

  /** Even after `load_attributes` has set `@loaded_attributes`, the report is nil. */
  lemma LoadedAttributesReportAsWrittenIsWrong(s: ClassState)
    requires s.loadedAttributes
    ensures LoadedAttributesReportAsWritten(s) == None && LoadedAttributesReportAsWritten(s) != Some(s.loadedAttributes)
  {
  }

  /**
   * `loaded_attributes?` reading `@loaded_attributes`: never nil, false for
   * every freshly built class and true after `load_attributes`.
   */
  function LoadedAttributesReport(s: ClassState): (r: Option<bool>)
    ensures r.Some?
  {
    Some(s.loadedAttributes)
  }

  lemma FreshClassAttributesNotLoaded(id: Term, sub: Submission, plabel: Option<LabelInput>,
                                      synonyms: Option<seq<Term>>, definitions: Option<seq<Term>>)
    requires BuildClass(id, sub, plabel, synonyms, definitions).Ok?
    ensures LoadedAttributesReport(BuildClass(id, sub, plabel, synonyms, definitions).value) == Some(false)
  {
  }

  // ---------------------------------------------------------------------------
  // Non-standard attributes

  /**
   * An element of the standard-predicate array as the source builds it: a
   * string, except that a hierarchy property configured on the submission is
   * pushed as the IRI object itself, without `.value`.
   */
  datatype Entry = Text(s: string) | IriObject(t: Term)

  function StandardPredicatesAsWritten(sub: Submission): seq<Entry> {
    [ Text(NS.DefaultAltLabel.value),
      if sub.hierarchyProperty.Some? then IriObject(sub.hierarchyProperty.value)
      else Text(NS.DefaultHierarchyProperty.value),
      Text(NS.DefaultPrefLabel.value),
      Text(NS.MetaPrefLabel.value),
      Text(NS.DefaultDefinition.value),
      Text(sub.prefLabelProperty.value) ]
  }

  /** `Array#include?` of a predicate string: an IRI object never equals a String. */
  predicate IncludesAsWritten(entries: seq<Entry>, p: string) {
    Text(p) in entries
  }

  /**
   * With a hierarchy property configured on the submission, the as-written
   * filter lets rows of that predicate through, although it is standard.
   */
  lemma ConfiguredHierarchyPropertyPassesAsWritten(sub: Submission, h: Term)
    requires sub.hierarchyProperty == Some(h)
    requires h.value != NS.DefaultAltLabel.value && h.value != NS.DefaultPrefLabel.value
    requires h.value != NS.MetaPrefLabel.value && h.value != NS.DefaultDefinition.value
    requires h.value != sub.prefLabelProperty.value
    ensures !IncludesAsWritten(StandardPredicatesAsWritten(sub), h.value)
    ensures h.value in StandardPredicates(sub)
  {
  }

  /** The objects of the rows whose predicate is p, in row order. */
  function ObjectsOf(rows: seq<AttributeRow>, p: string): seq<Term> {
    if rows == [] then []
    else
      var last := rows[|rows| - 1];
      ObjectsOf(rows[..|rows| - 1], p) + (if last.pred.value == p then [last.obj] else [])
  }

  /** The list already stored under a predicate, or the `[]` the source creates. */
  function ExistingObjects(attrs: map<Key, Value>, p: string): seq<Term> {
    var v := Get(attrs, PredicateKey(p));
    if v.Terms? then v.terms else []
  }

  /** One iteration of `load_non_standard_attributes`. */
  function MergeRow(attrs: map<Key, Value>, standard: seq<string>, row: AttributeRow): map<Key, Value> {
    var p := row.pred.value;
    if p in standard then attrs
    else attrs[PredicateKey(p) := Terms(ExistingObjects(attrs, p) + [row.obj])]
  }

  /** The attributes after `load_non_standard_attributes` has read all rows. */
  function MergeNonStandard(attrs: map<Key, Value>, standard: seq<string>, rows: seq<AttributeRow>): map<Key, Value> {
    if rows == [] then attrs
    else MergeRow(MergeNonStandard(attrs, standard, rows[..|rows| - 1]), standard, rows[|rows| - 1])
  }

  /**
   * The value a key holds after loading non-standard attributes: a
   * non-standard predicate that occurs in the rows holds its earlier list
   * followed by its objects in row order; every other key keeps its value.
   */
  function MergedValue(attrs: map<Key, Value>, standard: seq<string>, rows: seq<AttributeRow>, k: Key): Value {
    if k.PredicateKey? && k.iri !in standard && ObjectsOf(rows, k.iri) != [] then
      Terms(ExistingObjects(attrs, k.iri) + ObjectsOf(rows, k.iri))
    else Get(attrs, k)
  }

  lemma {:induction false} MergeAt(attrs: map<Key, Value>, standard: seq<string>, rows: seq<AttributeRow>, k: Key)
    ensures var m := MergeNonStandard(attrs, standard, rows);
            && Get(m, k) == MergedValue(attrs, standard, rows, k)
            && (k in m <==> k in attrs || (k.PredicateKey? && k.iri !in standard && ObjectsOf(rows, k.iri) != []))
  {
    if rows != [] {
      var init, r := rows[..|rows| - 1], rows[|rows| - 1];
      MergeAt(attrs, standard, init, k);
      if k.PredicateKey? {
        var p := k.iri;
        if p == r.pred.value {
          assert ObjectsOf(rows, p) == ObjectsOf(init, p) + [r.obj];
        } else {
          assert ObjectsOf(rows, p) == ObjectsOf(init, p);
        }
      }
    }
  }

  /**
   * What loading non-standard attributes does to the hash: every key holds its
   * `MergedValue`, and a key is added only for a non-standard predicate that
   * occurs in the rows.
   */
  lemma MergeNonStandardSpec(attrs: map<Key, Value>, standard: seq<string>, rows: seq<AttributeRow>)
    ensures var m := MergeNonStandard(attrs, standard, rows);
            && (forall k :: Get(m, k) == MergedValue(attrs, standard, rows, k))
            && (forall k :: k in m <==> k in attrs || (k.PredicateKey? && k.iri !in standard && ObjectsOf(rows, k.iri) != []))
  {
    forall k: Key {
      MergeAt(attrs, standard, rows, k);
    }
  }

  /** Loading keeps non-standard predicates as lists and standard predicates out of the hash. */
  lemma MergeKeepsValid(attrs: map<Key, Value>, sub: Submission, rows: seq<AttributeRow>)
    requires ValidAttributes(attrs, sub)
    ensures ValidAttributes(MergeNonStandard(attrs, StandardPredicates(sub), rows), sub)
  {
    var m := MergeNonStandard(attrs, StandardPredicates(sub), rows);
    forall k | k in m && k.PredicateKey?
      ensures m[k].Terms? && k.iri !in StandardPredicates(sub)
    {
      MergeAt(attrs, StandardPredicates(sub), rows, k);
    }
  }

  // ---------------------------------------------------------------------------
  // `where`: classes from the row stream

  /** The class `where` builds for one group of rows sharing an id. */
  function FromGroup(sub: Submission, g: Group): Result<ClassState, Error> {
    BuildClass(g.id, sub, Some(LabelArray(g.prefLabels)), Some(g.synonyms), Some(g.definitions))
  }

  /** The classes of a sequence of groups, in order; the first group that fails decides the error. */
  function BuildAll(sub: Submission, gs: seq<Group>): (r: Result<seq<ClassState>, Error>)
    ensures r.Ok? <==> forall k :: 0 <= k < |gs| ==> FromGroup(sub, gs[k]).Ok?
    ensures r.Ok? ==> |r.value| == |gs| && forall k :: 0 <= k < |gs| ==> r.value[k] == FromGroup(sub, gs[k]).value
    ensures r.Err? ==> r.error.ArgumentError?
  {
    if gs == [] then Ok([])
    else
      var front := BuildAll(sub, gs[..|gs| - 1]);
      var last := FromGroup(sub, gs[|gs| - 1]);
      if front.Err? then front
      else if last.Err? then Err(last.error)
      else Ok(front.value + [last.value])
  }

  /** Once a prefix of the groups fails, the later groups do not change the outcome. */
  lemma {:induction false} BuildAllPrefixErr(sub: Submission, gs: seq<Group>, n: nat)
    requires n <= |gs| && BuildAll(sub, gs[..n]).Err?
    ensures BuildAll(sub, gs) == BuildAll(sub, gs[..n])
  {
    if n < |gs| {
      assert gs[..|gs| - 1][..n] == gs[..n];
      BuildAllPrefixErr(sub, gs[..|gs| - 1], n);
    } else {
      assert gs[..n] == gs;
    }
  }

  /** Without labels, one class per row: the row's id and nothing loaded. */
  function BareAll(sub: Submission, rows: seq<LabelRow>): seq<ClassState> {
    seq(|rows|, k requires 0 <= k < |rows| => Bare(rows[k].id, sub))
  }

  function ClassesFromRows(sub: Submission, labels: bool, rows: seq<LabelRow>): Result<seq<ClassState>, Error> {
    if labels then BuildAll(sub, Groups(rows)) else Ok(BareAll(sub, rows))
  }

  /** The outcome of `where`: the query's error, or the classes built from the store's rows. */
  function WhereOutcome(params: WhereParams, store: Store): Result<seq<ClassState>, Error> {
    var q := EntityQuery(params);
    if q.Err? then Err(q.error)
    else ClassesFromRows(params.submission.value, LabelsRequested(params), store.classRows(q.value.0, q.value.1))
  }

  /**
   * With labels, one class per group of consecutive rows sharing an id, whose
   * labels are loaded and hold the group's deduplicated values.
   */
  lemma WhereLabelsGroups(sub: Submission, rows: seq<LabelRow>)
    requires ClassesFromRows(sub, true, rows).Ok?
    ensures var cs := ClassesFromRows(sub, true, rows).value;
            var gs := Groups(rows);
            && |cs| == |gs| == |Runs(rows)|
            && forall k :: 0 <= k < |cs| ==> GroupReadsBack(sub, gs[k], cs[k])
  {
    var cs := ClassesFromRows(sub, true, rows).value;
    var gs := Groups(rows);
    forall k | 0 <= k < |cs|
      ensures GroupReadsBack(sub, gs[k], cs[k])
    {
      FromGroupReadsBack(sub, gs[k]);
    }
  }

  /** The class built from a group is loaded and reads back the group's values. */
  predicate GroupReadsBack(sub: Submission, g: Group, s: ClassState) {
    && s.resourceId == g.id
    && s.submission == sub
    && |g.prefLabels| <= 1
    && Read(s, PrefLabelAttr) == Ok(if g.prefLabels == [] then Nil else Label(g.prefLabels[0]))
    && Read(s, SynonymLabelAttr) == Ok(Terms(g.synonyms))
    && Read(s, DefinitionsAttr) == Ok(Terms(g.definitions))
  }

  lemma FromGroupReadsBack(sub: Submission, g: Group)
    requires FromGroup(sub, g).Ok?
    ensures GroupReadsBack(sub, g, FromGroup(sub, g).value)
  {
  }

  /** A group whose class can be built: at most one preferred label, and that one a literal. */
  predicate GroupOk(g: Group) {
    |g.prefLabels| <= 1 && forall x :: x in g.prefLabels ==> x.Literal?
  }

  /**
   * With labels, `where` succeeds exactly when every group has at most one
   * preferred label and that label is a literal.
   */
  lemma WhereLabelsOkIff(sub: Submission, rows: seq<LabelRow>)
    ensures ClassesFromRows(sub, true, rows).Ok? <==> forall k :: 0 <= k < |Groups(rows)| ==> GroupOk(Groups(rows)[k])
  {
    var gs := Groups(rows);
    assert ClassesFromRows(sub, true, rows) == BuildAll(sub, gs);
    if BuildAll(sub, gs).Ok? {
      forall k | 0 <= k < |gs|
        ensures GroupOk(gs[k])
      {
        FromGroupOk(sub, gs[k]);
      }
    } else {
      var k :| 0 <= k < |gs| && !FromGroup(sub, gs[k]).Ok?;
      FromGroupOk(sub, gs[k]);
      assert !GroupOk(Groups(rows)[k]);
    }
  }

  /** One group gives a class exactly when it has at most one preferred label, a literal. */
  lemma FromGroupOk(sub: Submission, g: Group)
    ensures FromGroup(sub, g).Ok? <==> GroupOk(g)
  {
    if |g.prefLabels| == 1 {
      assert g.prefLabels[0] in g.prefLabels;
    }
  }

  /** Two different preferred labels within one run of an id make `where` raise ArgumentError. */
  lemma TwoPrefLabelsInRunFail(sub: Submission, rows: seq<LabelRow>, k: nat, a: Term, b: Term)
    requires k < |Runs(rows)|
    requires a in Values(Runs(rows)[k], PrefLabelField) && b in Values(Runs(rows)[k], PrefLabelField) && a != b
    ensures ClassesFromRows(sub, true, rows).Err?
    ensures ClassesFromRows(sub, true, rows).error.ArgumentError?
  {
    var g := Groups(rows)[k];
    TwoValuesTwoLabels(Runs(rows)[k], a, b);
    GroupsAreSummaries(rows);
    assert !FromGroup(sub, g).Ok?;
  }

  lemma TwoValuesTwoLabels(run: seq<LabelRow>, a: Term, b: Term)
    requires run != []
    requires a in Values(run, PrefLabelField) && b in Values(run, PrefLabelField) && a != b
    ensures |Summary(run).prefLabels| > 1
  {
    var d := Dedup(Values(run, PrefLabelField));
    DedupIsOrderedSet(Values(run, PrefLabelField));
    var i :| 0 <= i < |d| && d[i] == a;
    var j :| 0 <= j < |d| && d[j] == b;
    assert i != j;
  }

  /** How many classes `where` returns: with labels one per id change plus one, without one per row. */
  lemma WhereCount(sub: Submission, labels: bool, rows: seq<LabelRow>)
    requires ClassesFromRows(sub, labels, rows).Ok?
    ensures |ClassesFromRows(sub, labels, rows).value| ==
            if !labels then |rows| else if rows == [] then 0 else |ChangePoints(rows)| + 1
  {
    GroupCount(rows);
  }

  /** Over rows sorted by id, the classes `where` builds with labels have distinct ids, one per id in the rows. */
  lemma WhereSortedOnePerId(sub: Submission, rows: seq<LabelRow>)
    requires SortedById(rows) && ClassesFromRows(sub, true, rows).Ok?
    ensures var cs := ClassesFromRows(sub, true, rows).value;
            && (forall i, j :: 0 <= i < j < |cs| ==> cs[i].resourceId.value != cs[j].resourceId.value)
            && (set c | c in cs :: c.resourceId.value) == IdValues(rows)
  {
    SortedRowsOneGroupPerId(rows);
    BuildAllIds(sub, Groups(rows));
  }

  /** The classes built from groups carry the groups' ids, position by position. */
  lemma BuildAllIds(sub: Submission, gs: seq<Group>)
    requires BuildAll(sub, gs).Ok?
    ensures var cs := BuildAll(sub, gs).value;
            && (forall k :: 0 <= k < |cs| ==> cs[k].resourceId == gs[k].id)
            && (set c | c in cs :: c.resourceId.value) == GroupIdValues(gs)
  {
    var cs := BuildAll(sub, gs).value;
    forall k | 0 <= k < |cs|
      ensures cs[k].resourceId == gs[k].id
    {
      assert FromGroup(sub, gs[k]).Ok?;
    }
    forall c | c in cs
      ensures c.resourceId.value in GroupIdValues(gs)
    {
      var k :| 0 <= k < |cs| && cs[k] == c;
      assert gs[k] in gs;
    }
    forall g | g in gs
      ensures g.id.value in (set c | c in cs :: c.resourceId.value)
    {
      var k :| 0 <= k < |gs| && gs[k] == g;
      assert cs[k] in cs;
    }
  }

  /** Without labels, one unloaded class per row, in row order, even for repeated ids. */
  lemma WhereWithoutLabels(sub: Submission, rows: seq<LabelRow>, a: Attribute)
    requires IsLabelAttribute(a)
    ensures var r := ClassesFromRows(sub, false, rows);
            && r.Ok? && |r.value| == |rows|
            && forall k :: 0 <= k < |rows| ==>
                 r.value[k].resourceId == rows[k].id && Read(r.value[k], a) == Err(ClassAttributeNotLoaded(a))
  {
  }

  /** Every class `where` can return has a valid attributes hash. */
  lemma WhereStatesValid(sub: Submission, labels: bool, rows: seq<LabelRow>)
    requires ClassesFromRows(sub, labels, rows).Ok?
    ensures forall s :: s in ClassesFromRows(sub, labels, rows).value ==> ValidAttributes(s.attributes, sub) && s.submission == sub
  {
    var cs := ClassesFromRows(sub, labels, rows).value;
    forall s | s in cs
      ensures ValidAttributes(s.attributes, sub) && s.submission == sub
    {
      var k :| 0 <= k < |cs| && cs[k] == s;
      if labels {
        assert s.attributes.Keys <= {PrefLabelKey, SynonymsKey, DefinitionsKey};
      }
    }
  }

  /**
   * All groups of a prefix of the rows but the last are groups of all the rows:
   * a group is complete once a row with another id has been read.
   */
  lemma {:induction false} CompletedGroupsPersist(rows: seq<LabelRow>, n: nat)
    requires 0 < n <= |rows|
    ensures var g := Groups(rows[..n]);
            var h := Groups(rows);
            && 0 < |g| <= |h|
            && g[..|g| - 1] == h[..|g| - 1]
  {
    if n == |rows| {
      assert rows[..n] == rows;
    } else {
      var p := rows[..|rows| - 1];
      assert rows == p + [rows[|rows| - 1]];
      assert p[..n] == rows[..n];
      CompletedGroupsPersist(p, n);
      GroupsGrow(p, rows[|rows| - 1]);
    }
  }

  /** One more row keeps every completed group and never shortens the sequence of groups. */
  lemma GroupsGrow(p: seq<LabelRow>, r: LabelRow)
    ensures var g, h := Groups(p), Groups(p + [r]);
            && |g| <= |h|
            && (g != [] ==> g[..|g| - 1] == h[..|g| - 1])
  {
    GroupsSnoc(p, r);
  }

  // ---------------------------------------------------------------------------
  // The class

  /** Every class of the sequence was allocated by the call. */
  twostate predicate AllFresh(new cs: seq<Class>) {
    forall k :: 0 <= k < |cs| ==> fresh(cs[k])
  }

  /** The classes are, position by position, in the given states. */
  ghost predicate InStates(cs: seq<Class>, states: seq<ClassState>)
    reads cs
  {
    |cs| == |states| && forall k :: 0 <= k < |cs| ==> cs[k].State() == states[k]
  }

  twostate lemma AllFreshSnoc(new cs: seq<Class>, new c: Class)
    requires AllFresh(cs) && fresh(c)
    ensures AllFresh(cs + [c])
  {
  }

  /** The states of a sequence of classes, in order. */
  ghost function States(cs: seq<Class>): (ss: seq<ClassState>)
    reads cs
    ensures |ss| == |cs|
  {
    if cs == [] then [] else States(cs[..|cs| - 1]) + [cs[|cs| - 1].State()]
  }

  lemma StatesSnoc(cs: seq<Class>, c: Class)
    ensures States(cs + [c]) == States(cs) + [c.State()]
  {
    assert (cs + [c])[..|cs|] == cs;
  }

  lemma {:induction false} StatesAreInStates(cs: seq<Class>)
    ensures InStates(cs, States(cs))
  {
    if cs != [] {
      var p := cs[..|cs| - 1];
      StatesAreInStates(p);
      assert cs == p + [cs[|cs| - 1]];
      InStatesSnoc(p, States(p), cs[|cs| - 1]);
    }
  }

  lemma InStatesSnoc(cs: seq<Class>, states: seq<ClassState>, c: Class)
    requires InStates(cs, states)
    ensures InStates(cs + [c], states + [c.State()])
  {
  }

  /** One class per relative row, in row order, each with the row's id and nothing loaded. */
  ghost predicate BareRelatives(cs: seq<Class>, rows: seq<RelativeRow>, sub: Submission)
    reads cs
  {
    |cs| == |rows| && forall k :: 0 <= k < |cs| ==> cs[k].State() == Bare(rows[k].relativeId, sub)
  }

  /** One class per relative row, in row order, with the row's id and the given submission. */
  ghost predicate RelativesFor(cs: seq<Class>, rows: seq<RelativeRow>, sub: Submission) {
    |cs| == |rows| && forall k :: 0 <= k < |cs| ==> cs[k].resourceId == rows[k].relativeId && cs[k].submission == sub
  }

  lemma BareRelativesFor(cs: seq<Class>, rows: seq<RelativeRow>, sub: Submission)
    requires BareRelatives(cs, rows, sub)
    ensures RelativesFor(cs, rows, sub)
  {
    forall k | 0 <= k < |cs| ensures cs[k].resourceId == rows[k].relativeId && cs[k].submission == sub {
      assert cs[k].State() == Bare(rows[k].relativeId, sub);
    }
  }

  class Class {
    const resourceId: Term
    const submission: Submission
    var attributes: map<Key, Value>
    var loadedLabels: bool
    var loadedAttributes: bool

    ghost predicate Valid()
      reads this
    {
      ValidAttributes(attributes, submission)
    }

    function State(): ClassState
      reads this
    {
      ClassState(resourceId, submission, attributes, loadedLabels, loadedAttributes)
    }

    /** `Class.new(resource_id, submission)`: nothing loaded. */
    constructor (resourceId: Term, submission: Submission)
      ensures State() == Bare(resourceId, submission) && Valid()
    {
      this.resourceId := resourceId;
      this.submission := submission;
      attributes := map[SynonymsKey := Nil, DefinitionsKey := Nil];
      loadedLabels := false;
      loadedAttributes := false;
    }

    constructor FromState(s: ClassState)
      requires ValidAttributes(s.attributes, s.submission)
      ensures State() == s && Valid()
    {
      resourceId := s.resourceId;
      submission := s.submission;
      attributes := s.attributes;
      loadedLabels := s.loadedLabels;
      loadedAttributes := s.loadedAttributes;
    }

    /** `Class.new` with label data, which raises when the preferred label breaks the one-label rule. */
    static method New(resourceId: Term, submission: Submission, plabel: Option<LabelInput>,
                      synonyms: Option<seq<Term>>, definitions: Option<seq<Term>>) returns (r: Result<Class, Error>)
      ensures r.Err? ==> BuildClass(resourceId, submission, plabel, synonyms, definitions) == Err(r.error)
      ensures r.Ok? ==> fresh(r.value) && BuildClass(resourceId, submission, plabel, synonyms, definitions) == Ok(r.value.State())
      ensures r.Ok? ==> r.value.Valid()
    {
      var s := BuildClass(resourceId, submission, plabel, synonyms, definitions);
      if s.Err? {
        return Err(s.error);
      }
      BuildClassSpec(resourceId, submission, plabel, synonyms, definitions);
      assert forall k :: k in s.value.attributes ==> !k.PredicateKey?;
      var c := new Class.FromState(s.value);
      return Ok(c);
    }

    /** `self.find`: always raises; classes are looked up with `where`. */
    static function Find(id: Term): (r: Result<Class, Error>)
      ensures r == Err(ArgumentError(FindNotSupported))
    {
      Err(ArgumentError(FindNotSupported))
    }

    function PrefLabel(): (r: Result<Value, Error>)
      reads this
      ensures r.Err? <==> !loadedLabels
      ensures r.Err? ==> r.error == ClassAttributeNotLoaded(PrefLabelAttr)
      ensures r.Ok? ==> r.value == Get(attributes, PrefLabelKey)
    {
      Read(State(), PrefLabelAttr)
    }

    function SynonymLabel(): (r: Result<Value, Error>)
      reads this
      ensures r.Err? <==> !loadedLabels
      ensures r.Err? ==> r.error == ClassAttributeNotLoaded(SynonymLabelAttr)
      ensures r.Ok? ==> r.value == Get(attributes, SynonymsKey)
    {
      Read(State(), SynonymLabelAttr)
    }

    function Definitions(): (r: Result<Value, Error>)
      reads this
      ensures r.Err? <==> !loadedLabels
      ensures r.Err? ==> r.error == ClassAttributeNotLoaded(DefinitionsAttr)
      ensures r.Ok? ==> r.value == Get(attributes, DefinitionsKey)
    {
      Read(State(), DefinitionsAttr)
    }

    function Parents(): (r: Result<Value, Error>)
      reads this
      ensures r.Err? <==> Get(attributes, ParentsKey) == Nil
      ensures r.Err? ==> r.error == ClassAttributeNotLoaded(ParentsAttr)
      ensures r.Ok? ==> r.value == Get(attributes, ParentsKey)
    {
      Read(State(), ParentsAttr)
    }

    function Children(): (r: Result<Value, Error>)
      reads this
      ensures r.Err? <==> Get(attributes, ChildrenKey) == Nil
      ensures r.Err? ==> r.error == ClassAttributeNotLoaded(ChildrenAttr)
      ensures r.Ok? ==> r.value == Get(attributes, ChildrenKey)
    {
      Read(State(), ChildrenAttr)
    }

    /** `loaded_parents?`: true exactly when `parents` would not raise. */
    function LoadedParents(): (b: bool)
      reads this
      ensures b <==> Parents().Ok?
    {
      Get(attributes, ParentsKey) != Nil
    }

    /** `loaded_children?`: true exactly when `children` would not raise. */
    function LoadedChildren(): (b: bool)
      reads this
      ensures b <==> Children().Ok?
    {
      Get(attributes, ChildrenKey) != Nil
    }

    /** The rows the store answers to the parents (children = false) or children query. */
    function RelativeRows(children: bool, store: Store): seq<RelativeRow> {
      store.relativeRows(HierarchyQuery(resourceId, submission, children))
    }

    /** `load_relatives`: a new class for each row, in row order, with this class's submission. */
    method LoadRelatives(children: bool, store: Store) returns (relatives: seq<Class>)
      ensures AllFresh(relatives)
      ensures BareRelatives(relatives, RelativeRows(children, store), submission)
    {
      var rows := store.relativeRows(HierarchyQuery(resourceId, submission, children));
      relatives := [];
      var i := 0;
      while i < |rows|
        invariant 0 <= i <= |rows|
        invariant |relatives| == i
        invariant forall k :: 0 <= k < i ==> fresh(relatives[k]) && relatives[k].State() == Bare(rows[k].relativeId, submission)
      {
        var c := new Class(rows[i].relativeId, submission);
        relatives := relatives + [c];
        i := i + 1;
      }
    }

    /** `load_parents`: the parents slot holds the relatives, and nothing else changes. */
    method LoadParents(store: Store) returns (parents: seq<Class>)
      requires Valid()
      modifies this
      ensures Valid()
      ensures attributes == old(attributes)[ParentsKey := Relatives(parents)]
      ensures Parents() == Ok(Relatives(parents))
      ensures loadedLabels == old(loadedLabels) && loadedAttributes == old(loadedAttributes)
      ensures AllFresh(parents)
      ensures BareRelatives(parents, RelativeRows(false, store), submission)
    {
      parents := LoadRelatives(false, store);
      attributes := attributes[ParentsKey := Relatives(parents)];
    }

    /** `load_children`: the children slot holds the relatives, and nothing else changes. */
    method LoadChildren(store: Store) returns (children: seq<Class>)
      requires Valid()
      modifies this
      ensures Valid()
      ensures attributes == old(attributes)[ChildrenKey := Relatives(children)]
      ensures Children() == Ok(Relatives(children))
      ensures loadedLabels == old(loadedLabels) && loadedAttributes == old(loadedAttributes)
      ensures AllFresh(children)
      ensures BareRelatives(children, RelativeRows(true, store), submission)
    {
      children := LoadRelatives(true, store);
      attributes := attributes[ChildrenKey := Relatives(children)];
    }

    function AttributeRows(store: Store): seq<AttributeRow> {
      store.attributeRows(NonStandardAttributesQuery(resourceId, submission))
    }

    /** `load_non_standard_attributes`: each non-standard row's object is appended to its predicate's list. */
    method LoadNonStandardAttributes(store: Store)
      requires Valid()
      modifies this
      ensures Valid()
      ensures attributes == MergeNonStandard(old(attributes), StandardPredicates(submission), AttributeRows(store))
      ensures loadedLabels == old(loadedLabels) && loadedAttributes == old(loadedAttributes)
    {
      var standard := StandardPredicates(submission);
      var rows := store.attributeRows(NonStandardAttributesQuery(resourceId, submission));
      ghost var start := attributes;
      var i := 0;
      while i < |rows|
        invariant 0 <= i <= |rows|
        invariant attributes == MergeNonStandard(start, standard, rows[..i])
        invariant loadedLabels == old(loadedLabels) && loadedAttributes == old(loadedAttributes)
      {
        var p := rows[i].pred.value;
        assert rows[..i + 1][..i] == rows[..i];
        if p !in standard {
          MergeKeepsValid(start, submission, rows[..i]);
          var key := PredicateKey(p);
          if key !in attributes {
            attributes := attributes[key := Terms([])];
          }
          attributes := attributes[key := Terms(attributes[key].terms + [rows[i].obj])];
        }
        i := i + 1;
      }
      assert rows[..i] == rows;
      MergeKeepsValid(start, submission, rows);
    }

    /**
     * `load_attributes`: loads parents and children where their slot is still
     * nil, then the non-standard attributes, and records that attributes are
     * loaded. Labels are not touched.
     */
    method LoadAttributes(store: Store)
      requires Valid()
      modifies this
      ensures Valid()
      ensures loadedAttributes && loadedLabels == old(loadedLabels)
      ensures LoadedAttributesReport(State()) == Some(true)
      ensures LoadedParents() && LoadedChildren()
      ensures SameLabelValues(attributes, old(attributes))
      ensures SamePredicateValues(attributes, MergeNonStandard(old(attributes), StandardPredicates(submission), AttributeRows(store)))
      ensures old(LoadedParents()) ==> Get(attributes, ParentsKey) == old(Get(attributes, ParentsKey))
      ensures old(LoadedChildren()) ==> Get(attributes, ChildrenKey) == old(Get(attributes, ChildrenKey))
      ensures !old(LoadedParents()) ==>
                && Get(attributes, ParentsKey).Relatives?
                && RelativesFor(Get(attributes, ParentsKey).classes, RelativeRows(false, store), submission)
      ensures !old(LoadedChildren()) ==>
                && Get(attributes, ChildrenKey).Relatives?
                && RelativesFor(Get(attributes, ChildrenKey).classes, RelativeRows(true, store), submission)
    {
      LoadParentsUnlessLoaded(store);
      ghost var parents := Get(attributes, ParentsKey);
      assert Get(attributes, ChildrenKey) == old(Get(attributes, ChildrenKey));
      LoadChildrenUnlessLoaded(store);
      ghost var children := Get(attributes, ChildrenKey);
      assert Get(attributes, ParentsKey) == parents;
      assert attributes == old(attributes)[ParentsKey := parents][ChildrenKey := children];
      LoadNonStandardAttributes(store);
      loadedAttributes := true;
      RelativesThenMerge(old(attributes), parents, children, StandardPredicates(submission), AttributeRows(store));
    }

    /** `load_parents unless loaded_parents?`: a nil parents slot receives new relatives. */
    method LoadParentsUnlessLoaded(store: Store)
      requires Valid()
      modifies this
      ensures Valid()
      ensures attributes == old(attributes)[ParentsKey := Get(attributes, ParentsKey)]
      ensures loadedLabels == old(loadedLabels) && loadedAttributes == old(loadedAttributes)
      ensures old(LoadedParents()) ==> Get(attributes, ParentsKey) == old(Get(attributes, ParentsKey))
      ensures !old(LoadedParents()) ==>
                && Get(attributes, ParentsKey).Relatives?
                && AllFresh(Get(attributes, ParentsKey).classes)
                && BareRelatives(Get(attributes, ParentsKey).classes, RelativeRows(false, store), submission)
                && RelativesFor(Get(attributes, ParentsKey).classes, RelativeRows(false, store), submission)
    {
      if !LoadedParents() {
        var parents := LoadParents(store);
        BareRelativesFor(parents, RelativeRows(false, store), submission);
      } else {
        assert old(attributes)[ParentsKey := Get(attributes, ParentsKey)] == attributes;
      }
    }

    /** `load_children unless loaded_children?`: a nil children slot receives new relatives. */
    method LoadChildrenUnlessLoaded(store: Store)
      requires Valid()
      modifies this
      ensures Valid()
      ensures attributes == old(attributes)[ChildrenKey := Get(attributes, ChildrenKey)]
      ensures loadedLabels == old(loadedLabels) && loadedAttributes == old(loadedAttributes)
      ensures old(LoadedChildren()) ==> Get(attributes, ChildrenKey) == old(Get(attributes, ChildrenKey))
      ensures !old(LoadedChildren()) ==>
                && Get(attributes, ChildrenKey).Relatives?
                && AllFresh(Get(attributes, ChildrenKey).classes)
                && BareRelatives(Get(attributes, ChildrenKey).classes, RelativeRows(true, store), submission)
                && RelativesFor(Get(attributes, ChildrenKey).classes, RelativeRows(true, store), submission)
    {
      if !LoadedChildren() {
        var children := LoadChildren(store);
        BareRelativesFor(children, RelativeRows(true, store), submission);
      } else {
        assert old(attributes)[ChildrenKey := Get(attributes, ChildrenKey)] == attributes;
      }
    }

    /** The `where` parameters `load_labels` passes: this class's submission and id, labels on. */
    function LabelsParams(): WhereParams {
      WhereParams(Some(submission), None, Some(Some(resourceId)), None, None)
    }

    /**
     * `load_labels`: the labels of the first class `where` returns for this id,
     * and labels count as loaded. When `where` returns no class, `classes[0]`
     * is nil and reading its label raises NoMethodError.
     */
    method LoadLabels(store: Store) returns (r: Result<(), Error>)
      requires Valid()
      modifies this
      ensures Valid()
      ensures r.Err? <==> WhereOutcome(LabelsParams(), store).Err? || WhereOutcome(LabelsParams(), store).value == []
      ensures r.Err? ==> unchanged(this)
      ensures r.Err? && WhereOutcome(LabelsParams(), store).Err? ==> r.error == WhereOutcome(LabelsParams(), store).error
      ensures r.Err? && WhereOutcome(LabelsParams(), store).Ok? ==> r.error == NoMethodOnNil
      ensures r.Ok? ==> var first := WhereOutcome(LabelsParams(), store).value[0];
                && attributes == old(attributes)[PrefLabelKey := Get(first.attributes, PrefLabelKey)]
                                                [SynonymsKey := Get(first.attributes, SynonymsKey)]
                                                [DefinitionsKey := Get(first.attributes, DefinitionsKey)]
                && loadedLabels && loadedAttributes == old(loadedAttributes)
                && LoadedLabelsReport(State()) == Some(true)
    {
      ghost var outcome := WhereOutcome(LabelsParams(), store);
      var classes := Where(LabelsParams(), store);
      if classes.Err? {
        return Err(classes.error);
      }
      if |classes.value| == 0 {
        return Err(NoMethodOnNil);
      }
      LabelsParamsLoadLabels(resourceId, submission, store);
      var first := classes.value[0];
      assert first.State() == outcome.value[0];
      var pref := first.PrefLabel();
      var synonyms := first.SynonymLabel();
      var definitions := first.Definitions();
      LabelUpdateKeepsValid(attributes, submission, pref.value, synonyms.value, definitions.value);
      attributes := attributes[PrefLabelKey := pref.value][SynonymsKey := synonyms.value][DefinitionsKey := definitions.value];
      loadedLabels := true;
      return Ok(());
    }

    /**
     * `where`: builds the entity query, reads the store's rows in order and,
     * with labels, closes a class each time the id changes, accumulating the
     * label sets of the current id; without labels, one class per row.
     */
    static method Where(params: WhereParams, store: Store) returns (r: Result<seq<Class>, Error>)
      ensures r.Err? <==> WhereOutcome(params, store).Err?
      ensures r.Err? ==> r.error == WhereOutcome(params, store).error
      ensures r.Ok? ==> AllFresh(r.value) && InStates(r.value, WhereOutcome(params, store).value)
    {
      var query := EntityQuery(params);
      if query.Err? {
        return Err(query.error);
      }
      var rows := store.classRows(query.value.0, query.value.1);
      r := Collect(params.submission.value, LabelsRequested(params), rows);
    }

    /**
     * The loop of `where` over the store's rows. The source tests the labels
     * flag in every iteration; the flag does not change, so the two branches
     * are two loops here.
     */
    static method Collect(submission: Submission, loadLabels: bool, rows: seq<LabelRow>) returns (r: Result<seq<Class>, Error>)
      ensures r.Err? <==> ClassesFromRows(submission, loadLabels, rows).Err?
      ensures r.Err? ==> r.error == ClassesFromRows(submission, loadLabels, rows).error
      ensures r.Ok? ==> AllFresh(r.value) && InStates(r.value, ClassesFromRows(submission, loadLabels, rows).value)
    {
      if loadLabels {
        r := CollectGroups(submission, rows);
      } else {
        var classes := CollectBare(submission, rows);
        r := Ok(classes);
      }
    }

    /** Without labels: one new class per row, with the row's id. */
    static method CollectBare(submission: Submission, rows: seq<LabelRow>) returns (classes: seq<Class>)
      ensures AllFresh(classes) && InStates(classes, BareAll(submission, rows))
    {
      classes := [];
      ghost var states: seq<ClassState> := [];
      var i := 0;
      while i < |rows|
        invariant 0 <= i <= |rows|
        invariant AllFresh(classes) && InStates(classes, states)
        invariant |states| == i && forall k :: 0 <= k < i ==> states[k] == Bare(rows[k].id, submission)
      {
        var c := new Class(rows[i].id, submission);
        InStatesSnoc(classes, states, c);
        AllFreshSnoc(classes, c);
        classes := classes + [c];
        states := states + [c.State()];
        i := i + 1;
      }
      assert states == BareAll(submission, rows);
    }

    /**
     * Builds the class of a completed group and appends it to the classes
     * built from the groups before it, or fails with that group's error.
     */
    static method CloseGroup(submission: Submission, id: Term, prefLabels: seq<Term>, synonyms: seq<Term>,
                             definitions: seq<Term>, classes: seq<Class>, ghost done: seq<Group>,
                             ghost states: seq<ClassState>)
      returns (r: Result<seq<Class>, Error>)
      requires BuildAll(submission, done) == Ok(states) && States(classes) == states
      ensures var all := BuildAll(submission, done + [Group(id, prefLabels, synonyms, definitions)]);
              && (r.Err? ==> all == Err(r.error))
              && (r.Ok? ==> && all.Ok? && |r.value| == |classes| + 1
                            && r.value == classes + [r.value[|classes|]] && fresh(r.value[|classes|])
                            && States(r.value) == all.value)
    {
      var c := New(id, submission, Some(LabelArray(prefLabels)), Some(synonyms), Some(definitions));
      ClosedGroup(submission, done, states, Group(id, prefLabels, synonyms, definitions));
      if c.Err? {
        return Err(c.error);
      }
      StatesSnoc(classes, c.value);
      r := Ok(classes + [c.value]);
    }

    /**
     * With labels: a class is closed each time the id value changes, and at
     * the end; the label sets of the current id accumulate in between.
     */
    static method CollectGroups(submission: Submission, rows: seq<LabelRow>) returns (r: Result<seq<Class>, Error>)
      ensures r.Err? <==> BuildAll(submission, Groups(rows)).Err?
      ensures r.Err? ==> r.error == BuildAll(submission, Groups(rows)).error
      ensures r.Ok? ==> AllFresh(r.value) && InStates(r.value, BuildAll(submission, Groups(rows)).value)
    {
      var classes: seq<Class> := [];
      var prefLabels: seq<Term> := [];
      var synonyms: seq<Term> := [];
      var definitions: seq<Term> := [];
      var prev: Option<Term> := None;
      ghost var done: seq<Group> := [];
      ghost var states: seq<ClassState> := [];
      var i := 0;
      while i < |rows|
        invariant 0 <= i <= |rows|
        invariant AllFresh(classes) && States(classes) == states
        invariant BuildAll(submission, done) == Ok(states)
        invariant prev.None? <==> i == 0
        invariant i == 0 ==> done == []
        invariant i > 0 ==>
                    prev == Some(rows[i - 1].id) &&
                    GroupsOfPrefix(rows, i) == done + [Group(prev.value, prefLabels, synonyms, definitions)]
      {
        var row := rows[i];
        ghost var current := Group(if prev.Some? then prev.value else row.id, prefLabels, synonyms, definitions);
        WhereStep(rows, i, done, current);
        ghost var open := OpenGroup(rows, i, current);
        if prev.Some? && prev.value.value != row.id.value {
          var c := CloseGroup(submission, prev.value, prefLabels, synonyms, definitions, classes, done, states);
          if c.Err? {
            EarlyFailure(submission, rows, i, done, current);
            return Err(c.error);
          }
          AllFreshSnoc(classes, c.value[|classes|]);
          classes := c.value;
          states := BuildAll(submission, done + [current]).value;
          done := done + [current];
          prev := None;
        }
        if prev.None? {
          prefLabels, synonyms, definitions := [], [], [];
        }
        prefLabels := Insert(prefLabels, row.prefLabel);
        synonyms := Insert(synonyms, row.synonymLabel);
        definitions := Insert(definitions, row.definition);
        prev := Some(row.id);
        assert Group(prev.value, prefLabels, synonyms, definitions) == Accumulate(open, row);
        i := i + 1;
      }
      assert rows[..i] == rows;
      GroupsOfPrefixIsGroups(rows, i);
      if prev.Some? {
        ghost var current := Group(prev.value, prefLabels, synonyms, definitions);
        var c := CloseGroup(submission, prev.value, prefLabels, synonyms, definitions, classes, done, states);
        if c.Err? {
          return Err(c.error);
        }
        AllFreshSnoc(classes, c.value[|classes|]);
        classes := c.value;
        states := BuildAll(submission, done + [current]).value;
      }
      StatesAreInStates(classes);
      return Ok(classes);
    }
  }

  /** Closing one more group extends the classes built so far, or fails with that group's error. */
  lemma ClosedGroup(sub: Submission, done: seq<Group>, states: seq<ClassState>, current: Group)
    requires BuildAll(sub, done) == Ok(states)
    ensures FromGroup(sub, current).Ok? ==> BuildAll(sub, done + [current]) == Ok(states + [FromGroup(sub, current).value])
    ensures FromGroup(sub, current).Err? ==> BuildAll(sub, done + [current]) == Err(FromGroup(sub, current).error)
  {
    assert (done + [current])[..|done|] == done;
  }

  /** A group that fails when the id changes decides the outcome for the whole stream. */
  lemma EarlyFailure(sub: Submission, rows: seq<LabelRow>, i: nat, done: seq<Group>, current: Group)
    requires 0 < i < |rows|
    requires GroupsOfPrefix(rows, i + 1) == done + [current] + [Start(rows[i])]
    requires BuildAll(sub, done + [current]).Err?
    ensures BuildAll(sub, Groups(rows)) == BuildAll(sub, done + [current])
  {
    GroupsOfPrefixIsGroups(rows, i + 1);
    var closed := done + [current];
    CompletedGroupsPersist(rows, i + 1);
    assert Groups(rows)[..|closed|] == closed;
    BuildAllPrefixErr(sub, Groups(rows), |closed|);
  }

  /** Whether row i of a stream closes the group before it. */
  predicate ClosesGroup(rows: seq<LabelRow>, i: nat)
    requires i < |rows|
  {
    i > 0 && !SameId(rows[i - 1], rows[i])
  }

  /** The group row i is added to: the open one, or a new empty one with its id. */
  function OpenGroup(rows: seq<LabelRow>, i: nat, current: Group): Group
    requires i < |rows|
  {
    if i > 0 && SameId(rows[i - 1], rows[i]) then current else Group(rows[i].id, [], [], [])
  }

  /**
   * The groups of the rows read so far after one more row: a row with the
   * previous row's id extends the current group, any other row completes it
   * and starts a new one.
   */
  lemma WhereStep(rows: seq<LabelRow>, i: nat, done: seq<Group>, current: Group)
    requires i < |rows|
    requires i == 0 ==> done == []
    requires i > 0 ==> GroupsOfPrefix(rows, i) == done + [current]
    ensures GroupsOfPrefix(rows, i + 1)
         == (if ClosesGroup(rows, i) then done + [current] else done) + [Accumulate(OpenGroup(rows, i, current), rows[i])]
  {
    var g := done + [current];
    assert g[..|g| - 1] == done;
  }

  /** The three label keys agree in two hashes. */
  predicate SameLabelValues(a: map<Key, Value>, b: map<Key, Value>) {
    && Get(a, PrefLabelKey) == Get(b, PrefLabelKey)
    && Get(a, SynonymsKey) == Get(b, SynonymsKey)
    && Get(a, DefinitionsKey) == Get(b, DefinitionsKey)
  }

  lemma MergeKeepsSymbolKeys(attrs: map<Key, Value>, standard: seq<string>, rows: seq<AttributeRow>)
    ensures var m := MergeNonStandard(attrs, standard, rows);
            && SameLabelValues(m, attrs)
            && Get(m, ParentsKey) == Get(attrs, ParentsKey)
            && Get(m, ChildrenKey) == Get(attrs, ChildrenKey)
  {
    MergeAt(attrs, standard, rows, ParentsKey);
    MergeAt(attrs, standard, rows, ChildrenKey);
    MergeAt(attrs, standard, rows, PrefLabelKey);
    MergeAt(attrs, standard, rows, SynonymsKey);
    MergeAt(attrs, standard, rows, DefinitionsKey);
  }

  lemma SymbolUpdateKeepsPredicates(m: map<Key, Value>, k: Key, v: Value)
    requires !k.PredicateKey?
    ensures SamePredicateValues(m[k := v], m)
  {
  }

  lemma SamePredicateValuesTrans(a: map<Key, Value>, b: map<Key, Value>, c: map<Key, Value>)
    requires SamePredicateValues(a, b) && SamePredicateValues(b, c)
    ensures SamePredicateValues(a, c)
  {
  }

  /**
   * Filling the parents and children slots and then merging the non-standard
   * rows keeps the label slots and gives each predicate key the value the
   * merge alone would give.
   */
  lemma RelativesThenMerge(before: map<Key, Value>, parents: Value, children: Value,
                           standard: seq<string>, rows: seq<AttributeRow>)
    ensures var m := MergeNonStandard(before[ParentsKey := parents][ChildrenKey := children], standard, rows);
            && SameLabelValues(m, before)
            && SamePredicateValues(m, MergeNonStandard(before, standard, rows))
            && Get(m, ParentsKey) == parents && Get(m, ChildrenKey) == children
  {
    var between := before[ParentsKey := parents][ChildrenKey := children];
    SymbolUpdateKeepsPredicates(before, ParentsKey, parents);
    SymbolUpdateKeepsPredicates(before[ParentsKey := parents], ChildrenKey, children);
    SamePredicateValuesTrans(between, before[ParentsKey := parents], before);
    MergeKeepsSymbolKeys(between, standard, rows);
    MergePredicateKeysOnly(before, between, standard, rows);
  }

  /** Predicate keys written before loading are the same whether or not symbol keys changed in between. */
  lemma MergePredicateKeysOnly(before: map<Key, Value>, between: map<Key, Value>, standard: seq<string>, rows: seq<AttributeRow>)
    requires SamePredicateValues(between, before)
    ensures SamePredicateValues(MergeNonStandard(between, standard, rows), MergeNonStandard(before, standard, rows))
  {
    forall p
      ensures Get(MergeNonStandard(between, standard, rows), PredicateKey(p)) ==
              Get(MergeNonStandard(before, standard, rows), PredicateKey(p))
    {
      MergeAt(before, standard, rows, PredicateKey(p));
      MergeAt(between, standard, rows, PredicateKey(p));
      assert ExistingObjects(between, p) == ExistingObjects(before, p);
    }
  }

  /** The first class `where` returns for `load_labels` has its labels loaded. */
  lemma LabelsParamsLoadLabels(id: Term, sub: Submission, store: Store)
    requires WhereOutcome(WhereParams(Some(sub), None, Some(Some(id)), None, None), store).Ok?
    requires |WhereOutcome(WhereParams(Some(sub), None, Some(Some(id)), None, None), store).value| > 0
    ensures WhereOutcome(WhereParams(Some(sub), None, Some(Some(id)), None, None), store).value[0].loadedLabels
  {
    var params := WhereParams(Some(sub), None, Some(Some(id)), None, None);
    var q := EntityQuery(params);
    var rows := store.classRows(q.value.0, q.value.1);
    assert FromGroup(sub, Groups(rows)[0]).Ok?;
  }

  /** Writing the three label keys keeps the attributes hash valid. */
  lemma LabelUpdateKeepsValid(attrs: map<Key, Value>, sub: Submission, pref: Value, synonyms: Value, definitions: Value)
    requires ValidAttributes(attrs, sub)
    ensures ValidAttributes(attrs[PrefLabelKey := pref][SynonymsKey := synonyms][DefinitionsKey := definitions], sub)
  {
  }
}
