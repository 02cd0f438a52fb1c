/**
 * The graph-pattern queries the class core sends to the store, as structured
 * values: which clauses a query has, in which order, and not their text. The
 * clause kinds are those of the W3C SPARQL 1.1 Query Language: basic triple
 * patterns, OPTIONAL (section 6), FILTER with `bound` (section 17.4.1.1),
 * `isBlank` (section 17.4.2.2) and `=`, and ORDER BY (section 15.1). Every
 * query of the core is a SELECT DISTINCT over one named GRAPH.
 */
module Queries {
  import opened Wrappers
  import opened Rdf
  import opened Errors
  import NS = Namespaces

  /** A position of a triple pattern: a variable `?name` or a constant `<iri>`. */
  datatype Node = Var(name: string) | Ref(iri: string)

  datatype Triple = Triple(subj: Node, pred: Node, obj: Node)

  /** Filter conditions. */
  datatype Expr =
    | IsBlank(v: string)               // isBLANK(?v)
    | IsBound(v: string)               // bound(?v)
    | Not(operand: Expr)               // !e
    | Equals(v: string, iri: string)   // ?v = <iri>

  datatype Clause =
    | Match(triple: Triple)
    | Optional(triple: Triple)
    | Filter(cond: Expr)

  datatype Projection = AllVars | Vars(names: seq<string>)

  datatype Query = Query(
    projection: Projection,
    graph: string,
    body: seq<Clause>,
    orderBy: Option<string>)

  /** Execution options; `subpropertyRules` is `rules: :SUBP`. */
  datatype QueryOptions = QueryOptions(subpropertyRules: bool)

  /**
   * The store handle: its answer to each kind of query the core issues. How the
   * store evaluates a query is not part of this model, so each field is an
   * arbitrary total function from the query to its solutions.
   */
  datatype Store = Store(
    classRows: (Query, QueryOptions) -> seq<LabelRow>,
    relativeRows: Query -> seq<RelativeRow>,
    attributeRows: Query -> seq<AttributeRow>)

  // ---------------------------------------------------------------------------
  // Variables of a query

  function NodeVars(n: Node): set<string> {
    if n.Var? then {n.name} else {}
  }

  function TripleVars(t: Triple): set<string> {
    NodeVars(t.subj) + NodeVars(t.pred) + NodeVars(t.obj)
  }

  function ExprVars(e: Expr): set<string> {
    match e
    case IsBlank(v) => {v}
    case IsBound(v) => {v}
    case Not(operand) => ExprVars(operand)
    case Equals(v, _) => {v}
  }

  /** The variables a clause's triple pattern mentions; a filter mentions none. */
  function ClauseVars(c: Clause): set<string> {
    if c.Filter? then {} else TripleVars(c.triple)
  }

  /** The variables that the triple patterns (plain or OPTIONAL) of a body mention. */
  function PatternVars(body: seq<Clause>): set<string> {
    if body == [] then {} else ClauseVars(body[0]) + PatternVars(body[1..])
  }

  lemma {:induction false} PatternVarsConcat(a: seq<Clause>, b: seq<Clause>)
    ensures PatternVars(a + b) == PatternVars(a) + PatternVars(b)
  {
    if a != [] {
      assert (a + b)[1..] == a[1..] + b;
      PatternVarsConcat(a[1..], b);
    } else {
      assert a + b == b;
    }
  }

  lemma PatternVarsOne(c: Clause)
    ensures PatternVars([c]) == ClauseVars(c)
  {
    assert [c][1..] == [];
  }

  lemma PatternVarsTwo(c: Clause, d: Clause)
    ensures PatternVars([c, d]) == ClauseVars(c) + ClauseVars(d)
  {
    assert [c, d] == [c] + [d];
    PatternVarsConcat([c], [d]);
    PatternVarsOne(c);
    PatternVarsOne(d);
  }

  /** Every filter of the query names only variables that some pattern of it mentions. */
  predicate FiltersUseBoundVars(q: Query) {
    forall i :: 0 <= i < |q.body| && q.body[i].Filter? ==> ExprVars(q.body[i].cond) <= PatternVars(q.body)
  }

  /** Every projected variable is one that some pattern of the query mentions. */
  predicate ProjectionBound(q: Query) {
    q.projection.Vars? ==> forall i :: 0 <= i < |q.projection.names| ==> q.projection.names[i] in PatternVars(q.body)
  }

  // ---------------------------------------------------------------------------
  // Configuration read from the submission

  /** The hierarchy property, falling back to the default when the submission has none. */
  function HierarchyPropertyOf(sub: Submission): (t: Term)
    ensures sub.hierarchyProperty.Some? ==> t == sub.hierarchyProperty.value
    ensures sub.hierarchyProperty.None? ==> t == NS.DefaultHierarchyProperty
  {
    if sub.hierarchyProperty.Some? then sub.hierarchyProperty.value else NS.DefaultHierarchyProperty
  }

  /** The class type, falling back to the default when the submission has none. */
  function ClassTypeOf(sub: Submission): (t: Term)
    ensures sub.classType.Some? ==> t == sub.classType.value
    ensures sub.classType.None? ==> t == NS.DefaultTypeForClasses
  {
    if sub.classType.Some? then sub.classType.value else NS.DefaultTypeForClasses
  }

  // ---------------------------------------------------------------------------
  // The class query of `where`

  /**
   * The parameters hash of `where`; an absent key is None. A key given with
   * nil is told apart from an absent one only where the core tests presence.
   */
  datatype WhereParams = WhereParams(
    submission: Option<Submission>,
    labels: Option<bool>,                 // :labels, by truthiness
    resourceId: Option<Option<Term>>,     // :resource_id; Some(None) is the key given with nil
    root: Option<bool>,                   // :root, by truthiness
    missingLabelsGeneration: Option<bool>) // :missing_labels_generation, only its presence matters

  /** `:labels` defaults to true when the key is absent. */
  function LabelsRequested(p: WhereParams): bool {
    if p.labels.Some? then p.labels.value else true
  }

  predicate RootRequested(p: WhereParams) {
    p.root == Some(true)
  }

  const PrefLabelVar := "prefLabel"
  const SynonymVar := "synonymLabel"
  const DefinitionVar := "definition"

  /** The predicate the synonym pattern uses: rdfs:label when generating missing labels. */
  function SynonymPredicate(generatingMissing: bool): Term {
    if generatingMissing then NS.RdfsLabel else NS.DefaultAltLabel
  }

  /** The three OPTIONAL label patterns of `labels_query_block`. */
  function LabelsQueryBlock(generatingMissing: bool): (block: seq<Clause>)
    ensures |block| == 3
    ensures forall c :: c in block ==> c.Optional? && c.triple.subj == Var("id")
    ensures PatternVars(block) == {"id", PrefLabelVar, SynonymVar, DefinitionVar}
    ensures Optional(Triple(Var("id"), Ref(NS.DefaultPrefLabel.value), Var(PrefLabelVar))) in block
    ensures Optional(Triple(Var("id"), Ref(NS.DefaultDefinition.value), Var(DefinitionVar))) in block
    ensures Optional(Triple(Var("id"), Ref(NS.RdfsLabel.value), Var(SynonymVar))) in block <==> generatingMissing
    ensures Optional(Triple(Var("id"), Ref(NS.DefaultAltLabel.value), Var(SynonymVar))) in block <==> !generatingMissing
  {
    var pref := Optional(Triple(Var("id"), Ref(NS.DefaultPrefLabel.value), Var(PrefLabelVar)));
    var syn := Optional(Triple(Var("id"), Ref(SynonymPredicate(generatingMissing).value), Var(SynonymVar)));
    var def := Optional(Triple(Var("id"), Ref(NS.DefaultDefinition.value), Var(DefinitionVar)));
    assert [pref, syn, def] == [pref] + [syn, def];
    PatternVarsConcat([pref], [syn, def]);
    PatternVarsOne(pref);
    PatternVarsTwo(syn, def);
    [pref, syn, def]
  }

  function TypePattern(sub: Submission): Clause {
    Match(Triple(Var("id"), Ref(NS.RdfType), Ref(ClassTypeOf(sub).value)))
  }

  function RootPattern(sub: Submission): Clause {
    Optional(Triple(Var("id"), Ref(HierarchyPropertyOf(sub).value), Var("superId")))
  }

  const RootFilter := Filter(Not(IsBound("superId")))
  const NotBlankId := Filter(Not(IsBlank("id")))

  /** Whether a given `:resource_id` is an IRI; nil is not. */
  predicate ResourceIdIsIri(id: Option<Term>) {
    id.Some? && id.value.Iri?
  }

  function OneClassFilter(p: WhereParams): seq<Clause> {
    if p.resourceId.Some? && p.resourceId.value.Some? then [Filter(Equals("id", p.resourceId.value.value.value))] else []
  }

  function RootFilterBlock(p: WhereParams, sub: Submission): seq<Clause> {
    if RootRequested(p) then [RootPattern(sub), RootFilter] else []
  }

  function LabelsBlock(p: WhereParams): seq<Clause> {
    if LabelsRequested(p) then LabelsQueryBlock(p.missingLabelsGeneration.Some?) else []
  }

  /**
   * The argument checks and clause assembly of `where`: ArgumentError without a
   * submission or with a resource id that is not an IRI, and otherwise the class
   * query with the options it is executed with.
   */
  function EntityQuery(p: WhereParams): (r: Result<(Query, QueryOptions), Error>)
    ensures r.Err? <==> p.submission.None? || (p.resourceId.Some? && !ResourceIdIsIri(p.resourceId.value))
    ensures p.submission.None? ==> r == Err(ArgumentError(NoSubmission))
    ensures p.submission.Some? && p.resourceId == Some(None) ==> r == Err(ArgumentError(ResourceIdNotIri))
    ensures p.submission.Some? && p.resourceId.Some? && !ResourceIdIsIri(p.resourceId.value) ==>
              r == Err(ArgumentError(ResourceIdNotIri))
    ensures r.Ok? ==> r.value.1.subpropertyRules == LabelsRequested(p)
  {
    if p.submission.None? then Err(ArgumentError(NoSubmission))
    else
      var sub := p.submission.value;
      if p.resourceId.Some? && !ResourceIdIsIri(p.resourceId.value) then Err(ArgumentError(ResourceIdNotIri))
      else
        var body := [TypePattern(sub)] + LabelsBlock(p) + OneClassFilter(p) + RootFilterBlock(p, sub) + [NotBlankId];
        Ok((Query(AllVars, sub.resourceId.value, body, Some("id")), QueryOptions(LabelsRequested(p))))
  }

  /** The variables the class query's patterns mention: the label variables only with labels, ?superId only with :root. */
  lemma EntityQueryVars(p: WhereParams)
    requires EntityQuery(p).Ok?
    ensures PatternVars(EntityQuery(p).value.0.body) ==
              {"id"}
              + (if LabelsRequested(p) then {PrefLabelVar, SynonymVar, DefinitionVar} else {})
              + (if RootRequested(p) then {"superId"} else {})
  {
    var q := EntityQuery(p).value.0;
    var sub := p.submission.value;
    var a, b, c, d, e := [TypePattern(sub)], LabelsBlock(p), OneClassFilter(p), RootFilterBlock(p, sub), [NotBlankId];
    assert q.body == a + b + c + d + e;
    PatternVarsConcat(a, b);
    PatternVarsConcat(a + b, c);
    PatternVarsConcat(a + b + c, d);
    PatternVarsConcat(a + b + c + d, e);
    PatternVarsOne(TypePattern(sub));
    PatternVarsOne(NotBlankId);
    if c != [] { PatternVarsOne(c[0]); }
    if d != [] { PatternVarsTwo(RootPattern(sub), RootFilter); }
  }

  /** The clauses of the class query, as a membership test on its parts. */
  lemma EntityQueryBody(p: WhereParams)
    requires EntityQuery(p).Ok?
    ensures var q := EntityQuery(p).value.0;
            var sub := p.submission.value;
            && q.body[0] == TypePattern(sub)
            && forall x :: x in q.body <==>
                 || x == TypePattern(sub) || x in LabelsBlock(p) || x in OneClassFilter(p)
                 || x in RootFilterBlock(p, sub) || x == NotBlankId
  {
    var q := EntityQuery(p).value.0;
    var sub := p.submission.value;
    var a, b, c, d, e := [TypePattern(sub)], LabelsBlock(p), OneClassFilter(p), RootFilterBlock(p, sub), [NotBlankId];
    assert q.body == a + b + c + d + e;
  }

  /**
   * The class query selects all variables from the submission's graph, in
   * ?id order; it starts with the class-type pattern and keeps the non-blank
   * filter on ?id.
   */
  lemma EntityQueryShape(p: WhereParams)
    requires EntityQuery(p).Ok?
    ensures var q := EntityQuery(p).value.0;
            var sub := p.submission.value;
            && q.projection == AllVars
            && q.graph == sub.resourceId.value
            && q.orderBy == Some("id")
            && q.body[0] == TypePattern(sub)
            && NotBlankId in q.body
  {
    EntityQueryBody(p);
  }

  /** The class query holds the labels block exactly when labels are requested. */
  lemma EntityQueryLabels(p: WhereParams)
    requires EntityQuery(p).Ok?
    ensures var q := EntityQuery(p).value.0;
            forall c :: c in LabelsQueryBlock(p.missingLabelsGeneration.Some?) ==>
              (c in q.body <==> LabelsRequested(p))
  {
    EntityQueryBody(p);
    var sub := p.submission.value;
    forall x | x in LabelsQueryBlock(p.missingLabelsGeneration.Some?)
      ensures x != TypePattern(sub) && x != NotBlankId && x !in OneClassFilter(p) && x !in RootFilterBlock(p, sub)
    {
      assert x.Optional? && x.triple.obj != Var("superId");
    }
  }

  /**
   * The class query holds the unbound-?superId root test exactly when :root is
   * truthy, the resource filter when a resource id is given, and no
   * `=` filter otherwise.
   */
  lemma EntityQueryFilters(p: WhereParams)
    requires EntityQuery(p).Ok?
    ensures var q := EntityQuery(p).value.0;
            var sub := p.submission.value;
            && (RootFilter in q.body <==> RootRequested(p))
            && (RootPattern(sub) in q.body <==> RootRequested(p))
            && (p.resourceId.Some? ==> Filter(Equals("id", p.resourceId.value.value.value)) in q.body)
            && (p.resourceId.None? ==> forall c :: c in q.body ==> !(c.Filter? && c.cond.Equals?))
  {
    EntityQueryBody(p);
  }

  /** The filters of the class query use only variables its patterns mention. */
  lemma EntityQueryFiltersBound(p: WhereParams)
    requires EntityQuery(p).Ok?
    ensures FiltersUseBoundVars(EntityQuery(p).value.0)
  {
    var q := EntityQuery(p).value.0;
    EntityQueryBody(p);
    EntityQueryVars(p);
    forall i | 0 <= i < |q.body| && q.body[i].Filter?
      ensures ExprVars(q.body[i].cond) <= PatternVars(q.body)
    {
      EntityQueryFilterVars(p, q.body[i]);
    }
  }

  /** A filter of the class query tests ?id, or ?superId when :root is truthy. */
  lemma EntityQueryFilterVars(p: WhereParams, x: Clause)
    requires EntityQuery(p).Ok? && x in EntityQuery(p).value.0.body && x.Filter?
    ensures ExprVars(x.cond) <= {"id"} + (if RootRequested(p) then {"superId"} else {})
  {
    EntityQueryBody(p);
    assert x !in LabelsBlock(p);
  }

  // ---------------------------------------------------------------------------
  // The hierarchy query of `load_relatives`

  /** Children are subjects of the hierarchy property pointing at the class; parents its objects. */
  function RelativePattern(self: Term, sub: Submission, children: bool): Triple {
    var hp := Ref(HierarchyPropertyOf(sub).value);
    if children then Triple(Var("relativeId"), hp, Ref(self.value))
    else Triple(Ref(self.value), hp, Var("relativeId"))
  }

  /**
   * The hierarchy query as the source writes it: its blank-node filter names
   * ?parentId, a variable none of its patterns mentions.
   */
  function HierarchyQueryAsWritten(self: Term, sub: Submission, children: bool): Query {
    Query(Vars(["relativeId"]), sub.resourceId.value,
          [Match(RelativePattern(self, sub, children)), Filter(Not(IsBlank("parentId")))],
          Some("relativeId"))
  }

  lemma HierarchyQueryAsWrittenFiltersUnbound(self: Term, sub: Submission, children: bool)
    ensures !FiltersUseBoundVars(HierarchyQueryAsWritten(self, sub, children))
  {
    var q := HierarchyQueryAsWritten(self, sub, children);
    PatternVarsTwo(q.body[0], q.body[1]);
    assert q.body == [q.body[0], q.body[1]];
    assert q.body[1].Filter? && "parentId" in ExprVars(q.body[1].cond);
  }

  /**
   * The hierarchy query with its blank-node filter on ?relativeId, the variable
   * it selects: the class is the object of the hierarchy property when loading
   * children and its subject when loading parents.
   */
  function HierarchyQuery(self: Term, sub: Submission, children: bool): (q: Query)
    ensures q.graph == sub.resourceId.value && q.orderBy == Some("relativeId")
    ensures q.projection == Vars(["relativeId"])
    ensures children ==>
              Match(Triple(Var("relativeId"), Ref(HierarchyPropertyOf(sub).value), Ref(self.value))) in q.body
    ensures !children ==>
              Match(Triple(Ref(self.value), Ref(HierarchyPropertyOf(sub).value), Var("relativeId"))) in q.body
    ensures forall c :: c in q.body && c.Match? ==> c.triple == RelativePattern(self, sub, children)
    ensures Filter(Not(IsBlank("relativeId"))) in q.body
    ensures q.body == [Match(RelativePattern(self, sub, children)), Filter(Not(IsBlank("relativeId")))]
    ensures FiltersUseBoundVars(q) && ProjectionBound(q)
  {
    var body := [Match(RelativePattern(self, sub, children)), Filter(Not(IsBlank("relativeId")))];
    PatternVarsTwo(body[0], body[1]);
    Query(Vars(["relativeId"]), sub.resourceId.value, body, Some("relativeId"))
  }

  // ---------------------------------------------------------------------------
  // The query of `load_non_standard_attributes`

  /** Every (predicate, object) pair of the class within its graph, objects not blank. */
  function NonStandardAttributesQuery(self: Term, sub: Submission): (q: Query)
    ensures q.graph == sub.resourceId.value && q.orderBy.None?
    ensures q.projection == Vars(["predicate", "object"])
    ensures Match(Triple(Ref(self.value), Var("predicate"), Var("object"))) in q.body
    ensures Filter(Not(IsBlank("object"))) in q.body
    ensures q.body == [Match(Triple(Ref(self.value), Var("predicate"), Var("object"))), Filter(Not(IsBlank("object")))]
    ensures FiltersUseBoundVars(q) && ProjectionBound(q)
  {
    var body := [Match(Triple(Ref(self.value), Var("predicate"), Var("object"))), Filter(Not(IsBlank("object")))];
    PatternVarsTwo(body[0], body[1]);
    Query(Vars(["predicate", "object"]), sub.resourceId.value, body, None)
  }
}
