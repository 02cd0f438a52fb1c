/** The exception classes the core raises, with what distinguishes their messages. */
module Errors {

  /** The attribute named by a ClassAttributeNotLoaded message. */
  datatype Attribute =
    | PrefLabelAttr
    | DefinitionsAttr
    | SynonymLabelAttr
    | ParentsAttr
    | ChildrenAttr

  /** What an ArgumentError complains about. */
  datatype ArgumentProblem =
    | OnlyOneLabel           // more than one preferred label
    | UnknownPrefLabelType   // a preferred label that is not a literal
    | NoSubmission           // `where` without a submission
    | ResourceIdNotIri       // `where` with a resource id that is not an IRI
    | FindNotSupported       // `Class.find`

  datatype Error =
    | ArgumentError(problem: ArgumentProblem)
    | ClassAttributeNotLoaded(attribute: Attribute)
    | NoMethodOnNil   // Ruby's NoMethodError: a method called on nil
}
