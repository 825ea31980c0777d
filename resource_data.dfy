/**
 * The local state of one aws_cloudfront_function resource (schema.ResourceData):
 * the values d.Get returns and d.Set writes, the resource ID, the prior values
 * of the fields Update's change test compares, and the IsNewResource flag.
 */
module Resource {
  import opened Wrappers
  import opened Associations
  import Schema

  /** The configuration the user writes for one resource; unset optional fields are None. */
  datatype Config = Config(name: string, code: string, comment: Option<string>, runtime: string,
                           keyValueStoreAssociation: seq<AssociationRecord>, publish: Option<bool>)

  /** The values of the fields Update's change test looks at. */
  datatype TrackedFields = TrackedFields(code: string, comment: string, runtime: string,
                                         keyValueStoreAssociation: seq<AssociationRecord>)

  /** Every field of the resource and its ID, as one value. */
  datatype ResourceState = ResourceState(id: string, arn: string, comment: string, etag: string,
                                         name: string, runtime: string, status: string, code: string,
                                         keyValueStoreAssociation: seq<AssociationRecord>,
                                         liveStageEtag: string, publish: bool)

  /** The set a TypeSet field denotes. */
  function Elements(s: seq<AssociationRecord>): set<AssociationRecord>
  {
    set a | a in s
  }

  class ResourceData {
    var id: string
    var arn: string
    var comment: string
    var etag: string
    var name: string
    var runtime: string
    var status: string
    var code: string
    var keyValueStoreAssociation: seq<AssociationRecord>
    var liveStageEtag: string
    var publish: bool
    /** d.IsNewResource(): the resource is being created in this apply. */
    var isNew: bool
    /** The tracked fields as the prior state held them. */
    var prior: TrackedFields

    function State(): ResourceState
      reads this
    {
      ResourceState(id, arn, comment, etag, name, runtime, status, code,
                    keyValueStoreAssociation, liveStageEtag, publish)
    }

    function Tracked(): TrackedFields
      reads this
    {
      TrackedFields(code, comment, runtime, keyValueStoreAssociation)
    }

    /**
     * d.HasChanges("code", "comment", "runtime", "key_value_store_association"):
     * a tracked field differs from its prior value; the association blocks
     * are compared as a set.
     */
    predicate HasChanges()
      reads this
    {
      exists field :: field in Schema.UpdateTrackedFields && Changed(field)
    }

    /** The field named field is one HasChanges tracks and differs from its prior value. */
    predicate Changed(field: string)
      reads this
    {
      if field == "code" then prior.code != code
      else if field == "comment" then prior.comment != comment
      else if field == "runtime" then prior.runtime != runtime
      else if field == "key_value_store_association" then Elements(prior.keyValueStoreAssociation) != Elements(keyValueStoreAssociation)
      else false
    }

    /**
     * The planned state for Create: the configuration with the schema's
     * defaults applied, no ID and no computed values yet.
     */
    constructor FromConfig(config: Config)
      ensures State() == ResourceState("", "", if config.comment.Some? then config.comment.value else "", "",
                                       config.name, config.runtime, "", config.code,
                                       config.keyValueStoreAssociation, "", Schema.PublishValue(config.publish))
      ensures isNew && prior == Tracked()
    {
      id, arn, etag, status, liveStageEtag := "", "", "", "", "";
      comment := if config.comment.Some? then config.comment.value else "";
      name, runtime, code := config.name, config.runtime, config.code;
      keyValueStoreAssociation := config.keyValueStoreAssociation;
      publish := Schema.PublishValue(config.publish);
      isNew := true;
      prior := TrackedFields(code, comment, runtime, keyValueStoreAssociation);
    }

    /** The configuration gives the field named field a value other than the one held. */
    predicate Differs(config: Config, field: string)
      reads this
    {
      if field == "name" then config.name != name
      else if field == "code" then config.code != code
      else if field == "comment" then (if config.comment.Some? then config.comment.value else "") != comment
      else if field == "runtime" then config.runtime != runtime
      else if field == "key_value_store_association" then Elements(config.keyValueStoreAssociation) != Elements(keyValueStoreAssociation)
      else if field == "publish" then Schema.PublishValue(config.publish) != publish
      else false
    }

    /**
     * The planned state for Update: a new configuration over this prior state.
     * A change to a ForceNew field replaces the resource (Delete then Create)
     * and nothing here changes; name is the only such field.
     */
    method PlanUpdate(config: Config) returns (replace: bool)
      modifies this`comment, this`runtime, this`code, this`keyValueStoreAssociation, this`publish,
               this`isNew, this`prior
      ensures replace <==> exists f :: f in Schema.Fields && Schema.Fields[f].forceNew && old(Differs(config, f))
      ensures replace <==> config.name != name
      ensures replace ==> unchanged(this)
      ensures !replace ==>
                comment == (if config.comment.Some? then config.comment.value else "")
                && runtime == config.runtime && code == config.code
                && keyValueStoreAssociation == config.keyValueStoreAssociation
                && publish == Schema.PublishValue(config.publish)
      ensures !replace ==> prior == old(Tracked()) && !isNew
    {
      replace := exists f :: f in Schema.Fields && Schema.Fields[f].forceNew && Differs(config, f);
      Schema.OnlyNameForcesNew();
      assert replace ==> Differs(config, "name");
      assert config.name != name ==> "name" in Schema.Fields && Schema.Fields["name"].forceNew && Differs(config, "name");
      if !replace {
        prior := Tracked();
        comment := if config.comment.Some? then config.comment.value else "";
        runtime, code := config.runtime, config.code;
        keyValueStoreAssociation := config.keyValueStoreAssociation;
        publish := Schema.PublishValue(config.publish);
        isNew := false;
      }
    }
  }

  /**
   * key_value_store_association is a TypeSet: listing the same blocks in
   * another order is not a change, so with the other tracked fields as before
   * Update sends no UpdateFunction request.
   */
  lemma ReorderedAssociationsAreNoChange(d: ResourceData)
    requires d.prior.code == d.code && d.prior.comment == d.comment && d.prior.runtime == d.runtime
    requires multiset(d.prior.keyValueStoreAssociation) == multiset(d.keyValueStoreAssociation)
    ensures !d.HasChanges()
  {
    forall a | true
      ensures a in Elements(d.prior.keyValueStoreAssociation) <==> a in Elements(d.keyValueStoreAssociation)
    {
      assert a in d.prior.keyValueStoreAssociation <==> a in multiset(d.prior.keyValueStoreAssociation);
      assert a in d.keyValueStoreAssociation <==> a in multiset(d.keyValueStoreAssociation);
    }
  }

  /**
   * The change test, driven by the schema's update-tracked fields, is
   * d.HasChanges("code", "comment", "runtime", "key_value_store_association"):
   * it holds exactly when one of those four attributes differs from its prior
   * value, and no other field can count as changed.
   */
  lemma ChangeTestCoversTrackedFields(d: ResourceData)
    ensures d.HasChanges() <==>
              d.prior.code != d.code || d.prior.comment != d.comment || d.prior.runtime != d.runtime
              || Elements(d.prior.keyValueStoreAssociation) != Elements(d.keyValueStoreAssociation)
    ensures forall f :: d.Changed(f) ==> f in Schema.UpdateTrackedFields
  {
    assert d.prior.code != d.code ==> d.Changed("code");
    assert d.prior.comment != d.comment ==> d.Changed("comment");
    assert d.prior.runtime != d.runtime ==> d.Changed("runtime");
    assert Elements(d.prior.keyValueStoreAssociation) != Elements(d.keyValueStoreAssociation) ==>
             d.Changed("key_value_store_association");
  }
}
