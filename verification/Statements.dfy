/** The in-toto statement as the verifier decodes it. */
module Statements {
  import opened Basics
  import opened Json

  const TYPE_V1 := "https://in-toto.io/Statement/v1"
  const PREDICATE_TYPE_V0 := "https://agentattest.dev/predicate/v0"
  const PREDICATE_TYPE_V1 := "https://agentattest.dev/predicate/v1"

  datatype Document = Document(kind: string, predicateType: string, body: Value)

  /** A member decoded into a string: absent and null leave it empty. */
  predicate DecodesAsText(j: Value, key: string) {
    Has(j, key) ==> Member(j, key).Null? || Member(j, key).Str?
  }

  predicate DecodesAsDigest(j: Value) {
    j.Null? || (j.Obj? && forall k | k in j.fields :: j.fields[k].Null? || j.fields[k].Str?)
  }

  predicate DecodesAsSubject(j: Value) {
    j.Null? || (j.Obj? && DecodesAsText(j, "name") && DecodesAsDigest(Member(j, "digest")))
  }

  predicate DecodesAsSubjects(j: Value) {
    j.Null? || (j.Arr? && forall s | s in j.items :: DecodesAsSubject(s))
  }

  /** Decoding the document and its predicate; a predicate that is absent or neither object nor null fails. */
  function Parse(j: Value): Option<Document> {
    if j.Obj? && DecodesAsText(j, "_type") && DecodesAsText(j, "predicateType")
       && DecodesAsSubjects(Member(j, "subject"))
       && Has(j, "predicate") && (Member(j, "predicate").Obj? || Member(j, "predicate").Null?)
    then Some(Document(TextOf(j, "_type"), TextOf(j, "predicateType"), Member(j, "predicate")))
    else None
  }
}
