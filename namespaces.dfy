/**
 * The IRIs the class core takes from LinkedData::Utils::Namespaces. That module
 * is not part of this model: each constant stands for the IRI of the same name
 * there, and its text here is a placeholder that only names it.
 */
module Namespaces {
  import opened Rdf

  const DefaultAltLabel: Term := Iri("Namespaces.default_altLabel_iri")
  const DefaultPrefLabel: Term := Iri("Namespaces.default_pref_label_iri")
  const MetaPrefLabel: Term := Iri("Namespaces.meta_prefLabel_iri")
  const DefaultDefinition: Term := Iri("Namespaces.default_definition_iri")
  const DefaultHierarchyProperty: Term := Iri("Namespaces.default_hieararchy_property_iri")
  const DefaultTypeForClasses: Term := Iri("Namespaces.default_type_for_classes_iri")
  const RdfsLabel: Term := Iri("Namespaces.rdfs_label_iri")
  /** The `a` keyword of a triple pattern. */
  const RdfType: string := "http://www.w3.org/1999/02/22-rdf-syntax-ns#type"
}
