/** The field rules of the aws_cloudfront_function resource (the ResourceFunction schema literal). */
module Schema {
  import opened Wrappers

  datatype ValueType = TypeString | TypeBool | TypeSet

  datatype Field = Field(valueType: ValueType, required: bool, optional: bool, computed: bool,
                         forceNew: bool, defaultBool: Option<bool>)

  const Fields: map<string, Field> := map[
    "arn" := Field(TypeString, false, false, true, false, None),
    "code" := Field(TypeString, true, false, false, false, None),
    "comment" := Field(TypeString, false, true, false, false, None),
    "etag" := Field(TypeString, false, false, true, false, None),
    "live_stage_etag" := Field(TypeString, false, false, true, false, None),
    "name" := Field(TypeString, true, false, false, true, None),
    "publish" := Field(TypeBool, false, true, false, false, Some(true)),
    "runtime" := Field(TypeString, true, false, false, false, None),
    "key_value_store_association" := Field(TypeSet, false, true, false, false, None),
    "status" := Field(TypeString, false, false, true, false, None)
  ]

  /** The fields whose change makes Update call UpdateFunction (d.HasChanges). */
  const UpdateTrackedFields: set<string> := {"code", "comment", "runtime", "key_value_store_association"}

  /** The value of publish: the configured one, else the schema default. */
  function PublishValue(configured: Option<bool>): (publish: bool)
    ensures configured.Some? ==> publish == configured.value
    ensures configured.None? ==> publish
  {
    match configured
    case Some(b) => b
    case None => Fields["publish"].defaultBool.value
  }

  /** name is the one field whose change replaces the function instead of updating it. */
  lemma OnlyNameForcesNew()
    ensures forall f :: f in Fields ==> (Fields[f].forceNew <==> f == "name")
  {
  }

  /** The service computes arn, etag, live_stage_etag and status; the others are configuration. */
  lemma ComputedFields()
    ensures (set f | f in Fields && Fields[f].computed) == {"arn", "etag", "live_stage_etag", "status"}
  {
  }

  /**
   * Every configured field that does not force replacement is either tracked by
   * Update's change test or is the publish flag that Update consults directly.
   */
  lemma InPlaceFields()
    ensures (set f | f in Fields && !Fields[f].computed && !Fields[f].forceNew) == UpdateTrackedFields + {"publish"}
  {
  }
}
