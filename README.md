# LinkedData::Models::Class in Dafny

This project models `LinkedData::Models::Class` from `ontologies_linked_data`: an ontology class whose
labels, parents, children and other attributes are loaded lazily from a triple store, together with
`Class.where`, which rebuilds classes from the store's stream of solution rows.

The model has six modules:

- `Wrappers`: `Option` (Ruby's nil) and `Result` (the value, or the raised error).
- `Rdf`: RDF terms (IRI, literal, blank node), the owning submission, and the three kinds of solution row.
- `Errors`: the errors the class raises.
  - `ArgumentError`, tagged with its cause.
  - `ClassAttributeNotLoaded`, naming the attribute.
  - `NoMethodOnNil`, for Ruby's NoMethodError on `nil`.
- `Namespaces`: the IRIs taken from `LinkedData::Utils::Namespaces`. They are placeholder constants.
- `Queries`: the store's queries as structured values.
  - A query is a sequence of clause datatypes: triple patterns, OPTIONAL, and FILTER with
    `bound`, `isBlank` or `=`, as in the W3C SPARQL 1.1 Query Language.
  - Each query has a graph, a projection and an ORDER BY, plus an options record holding `rules: :SUBP`.
  - Covers the class query of `where`, `labels_query_block`, the hierarchy query of `load_relatives`,
    and the query of `load_non_standard_attributes`.
- `Grouping`: the specification of `where`'s row grouping.
  - The stream is cut into maximal runs of equal `id.value` (`Runs`).
  - Each run is summarised into a group (`Summary`). A group holds insertion-ordered, deduplicated
    label sets (`Dedup`), which stand for Ruby `Set`s.
  - `Groups` is the same fold done row by row. `GroupsAreSummaries` proves the two agree.
- `Models`: the attributes hash, the class and its load methods.
  - The attributes hash is a `map<Key, Value>`.
  - `BuildClass` is `initialize` on values, and `Read` is the accessors' guard.
  - The merge function specifies `load_non_standard_attributes`.
  - `class Class` holds the mutable `@attributes`, `@loaded_labels` and `@loaded_attributes`. Its
    methods implement the loads imperatively; each is proved against the value-level functions.
  - `Class.Where` checks its arguments through `EntityQuery` and fails with that error; otherwise it
    runs one of two loops. With labels, the states of the fresh classes it returns are, position by
    position, `BuildAll(Groups(rows))`, or it fails with that value's error. Without labels, it
    returns one bare class per row (`BareAll`).

The store is a parameter: a `Store` value with one total function per query kind, from the query to
its solution rows. How the store evaluates a query is outside the model.

## Model

| member | source | states |
|---|---|---|
| Models.SetPrefLabel | lib/ontologies_linked_data/models/class.rb:34-52 | Raises ArgumentError exactly when more than one label is given, or when the one label is not a literal, and the error names which case. Otherwise it stores exactly the labels given: none for an empty array, else the one label. |
| Models.BuildClassSpec | lib/ontologies_linked_data/models/class.rb:15-30 | `initialize` raises exactly when `set_prefLabel` does. Otherwise it keeps id and submission, sets the labels flag exactly when `plabel` is non-nil, and leaves attributes unloaded. Synonyms and definitions are stored as passed. A prefLabel key exists exactly when a label was given, and holds the first label. With no label data the state is the bare one. |
| Models.Class.constructor | lib/ontologies_linked_data/models/class.rb:15-30 | `Class.new(resource_id, submission)` with no label data, as used for relatives and for label-less `where`. The object starts with nothing loaded: both flags are false, only the synonyms and definitions slots exist and they hold nil, and there is no prefLabel, parents or children entry. The attributes hash is valid. |
| Models.Class.New | lib/ontologies_linked_data/models/class.rb:15-30 | `Class.new` with label data returns a fresh object in the state `BuildClass` describes, with a valid attributes hash, or the error it describes. |
| Models.ConstructionGatesLabels | lib/ontologies_linked_data/models/class.rb:15-69 | A label accessor succeeds exactly when the class was built with a non-nil `plabel`, an empty array included. With a nil `plabel`, each of the three accessors raises ClassAttributeNotLoaded naming its attribute. |
| Models.ConstructionRoundTrip | lib/ontologies_linked_data/models/class.rb:15-69 | From at most one literal label and lists of synonyms and definitions, the class builds and reads back exactly those. With an empty label array, prefLabel reads nil. |
| Models.Class.PrefLabel | lib/ontologies_linked_data/models/class.rb:56-59 | Raises ClassAttributeNotLoaded(prefLabel) exactly when labels are not loaded; otherwise returns the stored slot. |
| Models.Class.Definitions | lib/ontologies_linked_data/models/class.rb:61-64 | Same guard; returns the definitions slot. |
| Models.Class.SynonymLabel | lib/ontologies_linked_data/models/class.rb:66-69 | Same guard; returns the synonyms slot. |
| Models.Class.LoadedParents | lib/ontologies_linked_data/models/class.rb:71-73 | True exactly when `parents` would not raise. |
| Models.Class.LoadedChildren | lib/ontologies_linked_data/models/class.rb:76-78 | True exactly when `children` would not raise. |
| Models.Class.Parents | lib/ontologies_linked_data/models/class.rb:168-172 | Raises ClassAttributeNotLoaded(parents) exactly when the slot is nil. A stored empty list counts as loaded. Otherwise it returns the stored list. |
| Models.Class.Children | lib/ontologies_linked_data/models/class.rb:174-178 | The same for the children slot. |
| Models.Class.Find | lib/ontologies_linked_data/models/class.rb:80-84 | Always raises ArgumentError. |
| Models.LoadedLabelsReportAsWrittenIsWrong | lib/ontologies_linked_data/models/class.rb:86-88 | As written, the report is nil for a class whose labels are readable. |
| Models.LoadedLabelsReport | lib/ontologies_linked_data/models/class.rb:86-88 | Reading `@loaded_labels`, the report is true exactly when all three label accessors succeed. It is false exactly when all three raise ClassAttributeNotLoaded. |
| Models.LoadedAttributesReportAsWrittenIsWrong | lib/ontologies_linked_data/models/class.rb:181-183 | As written, the report is nil even after `load_attributes` has set the flag. |
| Models.LoadedAttributesReport | lib/ontologies_linked_data/models/class.rb:181-183 | Reading `@loaded_attributes`, the report is never nil, unlike the as-written one. `FreshClassAttributesNotLoaded` and `Class.LoadAttributes` state that it is false before loading and true after. |
| Models.FreshClassAttributesNotLoaded | lib/ontologies_linked_data/models/class.rb:28 | Every newly built class reports its attributes as not loaded. |
| Models.Class.LoadLabels | lib/ontologies_linked_data/models/class.rb:90-98 | Fails exactly when the `where` lookup for this id fails (same error) or returns no class (NoMethodError on `classes[0]`); a failure changes nothing. Otherwise it copies the first class's prefLabel, synonyms and definitions into this class, sets `@loaded_labels`, so the corrected report `LoadedLabelsReport` is `Some(true)` (the as-written `loaded_labels?` stays nil, see Findings), and leaves everything else unchanged. |
| Models.LabelsParamsLoadLabels | lib/ontologies_linked_data/models/class.rb:92 | `where` called with only the submission and resource id loads labels, so the first class's accessors succeed. |
| Models.Class.LoadRelatives | lib/ontologies_linked_data/models/class.rb:142-165 | One fresh class per solution row, in row order. Each has the row's `relativeId` and this class's submission, and nothing is loaded. |
| Models.Class.LoadParents | lib/ontologies_linked_data/models/class.rb:100-104 | Only the parents slot changes, and it holds the returned relatives. Afterwards `parents` returns exactly that list, and the flags are unchanged. |
| Models.Class.LoadChildren | lib/ontologies_linked_data/models/class.rb:106-110 | Only the children slot changes, and it holds the relatives from the child-direction query. Afterwards `children` returns exactly that list. |
| Models.Class.LoadParentsUnlessLoaded | lib/ontologies_linked_data/models/class.rb:186 | A loaded parents slot is left as it was. A nil slot receives fresh bare relatives, one per row. No other key changes. |
| Models.Class.LoadChildrenUnlessLoaded | lib/ontologies_linked_data/models/class.rb:187 | The same for children. |
| Models.Class.LoadNonStandardAttributes | lib/ontologies_linked_data/models/class.rb:113-140 | The new hash is `MergeNonStandard` of the old hash over the attribute rows, and it stays valid. Both flags are unchanged. |
| Models.MergeNonStandardSpec | lib/ontologies_linked_data/models/class.rb:134-139 | After the merge, a non-standard predicate that occurs in the rows holds its earlier list followed by its objects in row order. Every other key keeps its value. Keys are added only for non-standard predicates that occur in the rows. |
| Models.MergeAt | lib/ontologies_linked_data/models/class.rb:134-139 | The same statement for one key, proved by induction over the rows. |
| Models.MergeKeepsValid | lib/ontologies_linked_data/models/class.rb:126-139 | No standard predicate becomes a key. Non-standard predicates keep holding lists. |
| Models.ConfiguredHierarchyPropertyPassesAsWritten | lib/ontologies_linked_data/models/class.rb:128-129 | Take the standard list as written, with the configured hierarchy IRI object pushed in place of its string. That property's rows are then not recognised as standard, although the property is standard. |
| Models.Class.LoadAttributes | lib/ontologies_linked_data/models/class.rb:185-190 | Afterwards parents and children are loaded and `@loaded_attributes` is true, so the corrected report `LoadedAttributesReport` is `Some(true)` (the as-written `loaded_attributes?` stays nil, see Findings). A previously loaded parents or children list is unchanged, and a nil one now holds relatives with the query rows' ids and this submission. Label slots and the labels flag are unchanged. Every predicate key holds what the non-standard merge alone gives. |
| Queries.HierarchyPropertyOf | lib/ontologies_linked_data/models/class.rb:144-145 | The submission's hierarchy property, or the default when it has none. |
| Queries.ClassTypeOf | lib/ontologies_linked_data/models/class.rb:217 | The submission's class type, or the default when it has none. |
| Queries.HierarchyQuery | lib/ontologies_linked_data/models/class.rb:144-158 | With `children`, the class is the object of the hierarchy pattern `?relativeId hp <self>`. Otherwise it is the subject, `<self> hp ?relativeId`. The query selects `?relativeId` from the submission's graph in that order. Its body is exactly that pattern followed by the blank-node filter on `?relativeId`, a variable the pattern binds. |
| Queries.HierarchyQueryAsWrittenFiltersUnbound | lib/ontologies_linked_data/models/class.rb:156 | As written, the blank-node filter tests `?parentId`, which no pattern of the query binds. |
| Queries.NonStandardAttributesQuery | lib/ontologies_linked_data/models/class.rb:114-121 | Selects `?predicate ?object` of the class in the submission's graph, excluding blank objects. Its body is exactly that one pattern followed by the blank-object filter, and every filter and projected variable is bound. |
| Queries.LabelsQueryBlock | lib/ontologies_linked_data/models/class.rb:193-204 | Three OPTIONAL patterns on `?id` binding prefLabel, synonymLabel and definition. Two of them are always the default prefLabel pattern and the default definition pattern. The synonym predicate is `rdfs:label` exactly when generating missing labels, and the alt label otherwise. |
| Queries.EntityQuery | lib/ontologies_linked_data/models/class.rb:207-254 | Raises ArgumentError exactly when there is no submission, or `:resource_id` is given and is not an IRI (a nil value included), and names which. Otherwise the `:SUBP` rules are set exactly when labels are requested. |
| Queries.EntityQueryShape | lib/ontologies_linked_data/models/class.rb:245-254 | Selects all variables from the submission's graph, ordered by `?id`. It starts with the class-type pattern and always holds `FILTER(!isBLANK(?id))`. |
| Queries.EntityQueryLabels | lib/ontologies_linked_data/models/class.rb:238-243 | The labels block is in the query exactly when `:labels` is absent or truthy. |
| Queries.EntityQueryFilters | lib/ontologies_linked_data/models/class.rb:219-236 | The unbound-`?superId` root test and its OPTIONAL pattern are present exactly when `:root` is truthy. The `?id` resource filter is present when a resource id is given. Without one, there is no `=` filter. |
| Queries.EntityQueryVars | lib/ontologies_linked_data/models/class.rb:245-253 | The patterns bind `?id`, plus the label variables exactly with labels, plus `?superId` exactly with `:root`. |
| Queries.EntityQueryFilterVars | lib/ontologies_linked_data/models/class.rb:245-253 | Every filter of the class query tests `?id`, or `?superId` when `:root` is truthy. |
| Queries.EntityQueryFiltersBound | lib/ontologies_linked_data/models/class.rb:245-253 | Every filter of the class query names only variables its patterns bind. |
| Grouping.DedupIsOrderedSet | lib/ontologies_linked_data/models/class.rb:269-275 | Adding values to a Ruby Set keeps each value once, keeps exactly the values seen, and orders them by first occurrence. |
| Grouping.RunsPartition | lib/ontologies_linked_data/models/class.rb:261-285 | Read in order, the runs give back the rows. Each run has one id value, and neighbouring runs differ in it. The last row ends the last run, so nothing at the end of the stream is dropped. |
| Grouping.GroupsAreSummaries | lib/ontologies_linked_data/models/class.rb:261-285 | The group built row by row for each run is that run's summary: the id of its last row, and the deduplicated bound values of each label field. |
| Grouping.GroupCount | lib/ontologies_linked_data/models/class.rb:261-285 | An empty stream gives no group. Any other stream gives one group per id change plus one, for the run the final flush closes. |
| Grouping.GroupIdsAreRowIds | lib/ontologies_linked_data/models/class.rb:261-285 | The groups carry exactly the id values of the rows. |
| Grouping.ContiguousGroupIdsDistinct | lib/ontologies_linked_data/models/class.rb:261-285 | When each id value's rows are consecutive, no two groups share an id value. |
| Grouping.SortedRowsOneGroupPerId | lib/ontologies_linked_data/models/class.rb:253 | Over rows in `ORDER BY ?id` order, there is exactly one group per distinct id value. |
| Models.BuildAll | lib/ontologies_linked_data/models/class.rb:264-284 | Succeeds exactly when every group's class can be built, and then gives one state per group, in order. A failure is an ArgumentError. |
| Models.Class.Where | lib/ontologies_linked_data/models/class.rb:207-287 | Fails exactly when the argument checks or building a class fail, with that error. Otherwise it returns fresh classes, in order, in the states `WhereOutcome` gives for the store's rows. |
| Models.Class.Collect | lib/ontologies_linked_data/models/class.rb:256-286 | Fails exactly when `ClassesFromRows` fails, with the same error. Otherwise it returns fresh classes in those states: groups with labels, one bare class per row without. |
| Models.Class.CollectGroups | lib/ontologies_linked_data/models/class.rb:256-286 | The labels loop. Fails exactly when `BuildAll(Groups(rows))` fails, with the same error. Otherwise it returns fresh classes in exactly those states, the final flush included. |
| Models.Class.CollectBare | lib/ontologies_linked_data/models/class.rb:279-280 | Without labels, one fresh bare class per row, in row order. |
| Models.Class.CloseGroup | lib/ontologies_linked_data/models/class.rb:263-266 | Closing a group appends one fresh class in the group's state, or fails with the group's error. |
| Models.EarlyFailure | lib/ontologies_linked_data/models/class.rb:263-266 | A group that fails when the id changes decides the outcome for the whole stream. |
| Models.WhereLabelsGroups | lib/ontologies_linked_data/models/class.rb:256-286 | With labels, there is one class per maximal run, in stream order. Each has the run's id and submission, labels loaded, and the group's deduplicated prefLabel, synonym and definition values. |
| Models.WhereLabelsOkIff | lib/ontologies_linked_data/models/class.rb:264-265 | With labels, `where` succeeds exactly when every group has at most one preferred label and it is a literal. |
| Models.TwoPrefLabelsInRunFail | lib/ontologies_linked_data/models/class.rb:264-265 | Two different preferred labels in one run make `where` raise ArgumentError. |
| Models.WhereCount | lib/ontologies_linked_data/models/class.rb:256-286 | With labels there is one class per id change plus one, and none for an empty stream. Without labels there is one per row. |
| Models.WhereSortedOnePerId | lib/ontologies_linked_data/models/class.rb:253-286 | For rows sorted by id, the classes have pairwise distinct ids, one per distinct id of the rows. |
| Models.WhereWithoutLabels | lib/ontologies_linked_data/models/class.rb:279-280 | Without labels, there is one class per row, even for repeated ids. Each has the row's id and label accessors that raise ClassAttributeNotLoaded. |
| Models.WhereStatesValid | lib/ontologies_linked_data/models/class.rb:256-286 | Every class `where` builds has the submission it was given and a valid attributes hash. |

## Left out

- Store execution (`Goo.store.query`) is left out. Its answers are the `Store` parameter, and store failures are not modelled.
- `submission.load` / `submission.loaded?` are left out. A submission is a value that already holds the fields the class reads.
- The `LinkedData::Utils::Namespaces` module is not part of this model. Its IRIs are placeholder constants named after the methods that return them.
- The SPARQL text is not produced. The queries are structured values that record which clauses are present, not their text or whitespace.
- The store's SPARQL semantics are not verified. This covers what OPTIONAL, DISTINCT, `:SUBP` rules and ORDER BY do to the rows.
- A class with a nil submission is not modelled. `Submission` is a value; only `where`'s `:submission` argument is optional.
- The `loaded_labels=` writer of `attr_accessor :loaded_labels` is not modelled. Nothing in the class calls it.
- The model assumes that Ruby `Array` and `Set` membership compare terms by value, that is, that the store's term classes define `==`, `eql?` and `hash` by value. Those classes are not part of this model. `Term` equality is structural: kind, value and tag.
- `:labels` is read by truthiness: an absent key means true, and `nil` or `false` means false. The model stores the resulting boolean.
- The per-row `if load_labels` test in `where` is taken out of the loop, because the flag never changes. `Collect` runs one of two loops.
- The messages of the raised exceptions are not modelled. Each error carries a tag for which check raised it.
- Models.Class.LoadAttributes: for a newly loaded parents or children list, it states each relative's id and submission, not its full bare state. That weaker statement keeps the proof within the solver's budget; `LoadParentsUnlessLoaded` and `LoadChildrenUnlessLoaded` state the bare state.
- Models.Class.LoadRelatives: it sends the corrected hierarchy query, whose blank-node filter is on `?relativeId`, not the as-written one (see Findings). The store's answer is an arbitrary parameter, so no stated property depends on which of the two queries is sent.
- Models.Class.LoadNonStandardAttributes: it filters with the corrected standard list, where the configured hierarchy property is a string like the other entries (see Findings). As written, rows of a configured hierarchy property are kept as a non-standard attribute; `ConfiguredHierarchyPropertyPassesAsWritten` states this.
- Models.Class.LoadAttributes: its non-standard merge uses the same corrected standard list as `LoadNonStandardAttributes`.
- Models.Class.Where: each returned class is stated to be freshly allocated; that two positions of the result hold different objects is not stated.

## Findings

| source | as written | input that shows it | evidently intended | confidence | as-written member | corrected member |
|---|---|---|---|---|---|---|
| lib/ontologies_linked_data/models/class.rb:86-88 | `loaded_labels?` returns `@load_labels`, which is never assigned, so it always returns nil | a class built with `plabel = []`: its label accessors succeed, but the report is nil | return `@loaded_labels` | not executed | Models.LoadedLabelsReportAsWrittenIsWrong | Models.LoadedLabelsReport |
| lib/ontologies_linked_data/models/class.rb:181-183 | `loaded_attributes?` returns `@load_attributes`, which is never assigned, so it always returns nil | any class after `load_attributes`, whose `@loaded_attributes` is true | return `@loaded_attributes` | not executed | Models.LoadedAttributesReportAsWrittenIsWrong | Models.LoadedAttributesReport |
| lib/ontologies_linked_data/models/class.rb:156 | the hierarchy query filters `!isBLANK(?parentId)`, a variable no pattern of the query binds. By section 17.2 of the SPARQL 1.1 Query Language, `isBLANK` of an unbound variable is an error, and a FILTER whose expression errors drops the solution. A conforming store therefore returns no relatives at all | any class and either direction: the filter names a variable outside the query's patterns | `FILTER (!isBLANK(?relativeId))` | not executed | Queries.HierarchyQueryAsWrittenFiltersUnbound | Queries.HierarchyQuery |
| lib/ontologies_linked_data/models/class.rb:128-129 | a submission's own `hierarchyProperty` is pushed as the IRI object, while every other entry is a string, so `include?` on the predicate string never matches it | a submission with `hierarchyProperty` set to an IRI different from the other five standard predicates: rows of that predicate are stored as a non-standard attribute | push `hierarchyProperty.value` | not executed | Models.ConfiguredHierarchyPropertyPassesAsWritten | Models.MergeKeepsValid |
