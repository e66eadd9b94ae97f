/**
 * The entity extraction result (backend/app/models/entities.py): three
 * required, ordered term lists. Empty lists are accepted, and the schema
 * checks neither duplicates nor that a term sits in only one list.
 */
module Entities {

  datatype StructuredMedicalEntities = StructuredMedicalEntities(
    icdTerms: seq<string>,
    cptTerms: seq<string>,
    hcpcsTerms: seq<string>)
}
