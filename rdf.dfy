/**
 * The values the triple store hands back and the configuration the class core
 * reads from its owning submission.
 */
module Rdf {
  import opened Wrappers

  /**
   * A term of a solution row. Every kind carries the `value` string that the
   * source compares (`prev.value != sol.get(:id).value`) and splices into
   * queries (`<#{x.value}>`).
   */
  datatype Term =
    | Iri(value: string)
    | Literal(value: string, tag: Option<string>)  // language or datatype tag
    | BlankNode(value: string)

  /**
   * The submission that owns a class, reduced to what the core reads from it:
   * the graph IRI (`resource_id`), the optional hierarchy property and class
   * type, and the preferred-label property.
   */
  datatype Submission = Submission(
    resourceId: Term,
    hierarchyProperty: Option<Term>,
    classType: Option<Term>,
    prefLabelProperty: Term)

  /**
   * One solution of the class query. `?id` is bound in every solution (the type
   * pattern binds it); the three label variables are bound only where their
   * OPTIONAL pattern matched.
   */
  datatype LabelRow = LabelRow(
    id: Term,
    prefLabel: Option<Term>,
    synonymLabel: Option<Term>,
    definition: Option<Term>)

  /** One solution of the hierarchy query. */
  datatype RelativeRow = RelativeRow(relativeId: Term)

  /** One solution of the non-standard attributes query. */
  datatype AttributeRow = AttributeRow(pred: Term, obj: Term)  // ?predicate, ?object
}
