/**
 * The CRUD handlers of the aws_cloudfront_function resource
 * (resourceFunctionCreate, resourceFunctionRead, resourceFunctionUpdate,
 * resourceFunctionDelete and the passthrough importer) against the abstract
 * service of module Remote.
 */
module FunctionResource {
  import opened Wrappers
  import opened Associations
  import opened Remote
  import opened Resource

  /** The step whose failure a diagnostic reports. */
  datatype Step = Creating | Publishing | ReadingDevelopmentStage | ReadingDevelopmentCode
                | ReadingLiveStage | Updating | Deleting

  /** diag.Diagnostics: no errors, or the one error a handler returns. */
  datatype Diagnostics = NoErrors | Failed(step: Step, kind: ErrorKind)

  /** The FunctionConfig that Create and Update send for d. */
  function ConfigOf(d: ResourceData): FunctionConfig
    reads d
  {
    FunctionConfig(d.comment, d.runtime, Expanded(d.keyValueStoreAssociation))
  }

  /** The requests Read sends for id against the service as it stands. */
  function ReadCalls(store: FunctionStore, id: string): seq<Call>
    reads store`functions
  {
    [DescribeFunctionCall(id, Development)]
    + if store.DescribeResult(id, Development).Err? then [] else CodeAndLiveCalls(store, id)
  }

  /** The requests Read sends once the DEVELOPMENT stage has been described. */
  function CodeAndLiveCalls(store: FunctionStore, id: string): seq<Call>
    reads store`functions
  {
    [GetFunctionCall(id, Development)]
    + if store.CodeResult(id, Development).Err? then [] else [DescribeFunctionCall(id, Live)]
  }

  /** The diagnostics Read returns for id against the service as it stands. */
  function ReadOutcome(store: FunctionStore, id: string, isNew: bool): Diagnostics
    reads store`functions
  {
    var dev := store.DescribeResult(id, Development);
    if dev.Err? then
      if dev.kind == NotFound && !isNew then NoErrors else Failed(ReadingDevelopmentStage, dev.kind)
    else CodeAndLiveOutcome(store, id)
  }

  /** The diagnostics Read returns once the DEVELOPMENT stage has been described. */
  function CodeAndLiveOutcome(store: FunctionStore, id: string): Diagnostics
    reads store`functions
  {
    var code := store.CodeResult(id, Development);
    if code.Err? then Failed(ReadingDevelopmentCode, code.kind)
    else
      var live := store.DescribeResult(id, Live);
      if live.Err? && live.kind != NotFound then Failed(ReadingLiveStage, live.kind) else NoErrors
  }

  /** The DEVELOPMENT stage is mandatory: missing, it is drift (ID cleared) unless the resource is new. */
  lemma ReadDevelopmentMandatory(store: FunctionStore, id: string, isNew: bool)
    requires store.DescribeResult(id, Development).Err?
    ensures (ReadOutcome(store, id, isNew) == NoErrors)
              <==> (store.DescribeResult(id, Development).kind == NotFound && !isNew)
    ensures (ReadOutcome(store, id, isNew) != NoErrors)
              ==> ReadOutcome(store, id, isNew) == Failed(ReadingDevelopmentStage, store.DescribeResult(id, Development).kind)
  {
  }

  /** A failure to fetch the DEVELOPMENT code fails the whole read. */
  lemma ReadCodeFatal(store: FunctionStore, id: string, isNew: bool)
    requires store.DescribeResult(id, Development).Ok? && store.CodeResult(id, Development).Err?
    ensures ReadOutcome(store, id, isNew) == Failed(ReadingDevelopmentCode, store.CodeResult(id, Development).kind)
  {
  }

  /** The LIVE stage is optional: only an error other than NotFound fails the read. */
  lemma ReadLiveOptional(store: FunctionStore, id: string, isNew: bool)
    requires store.DescribeResult(id, Development).Ok? && store.CodeResult(id, Development).Ok?
    ensures (ReadOutcome(store, id, isNew) == NoErrors)
              <==> (store.DescribeResult(id, Live).Ok? || store.DescribeResult(id, Live).kind == NotFound)
  {
  }

  /** Against a fault-free service, Read succeeds exactly when the function exists or the resource is not new. */
  lemma ReadSucceedsWithoutFaults(store: FunctionStore, id: string, isNew: bool)
    requires DescribeFunctionApi(Development) !in store.faults && GetFunctionApi(Development) !in store.faults
    requires DescribeFunctionApi(Live) !in store.faults
    ensures ReadOutcome(store, id, isNew) == NoErrors <==> id in store.functions || !isNew
  {
  }

  /** A clean read of a function the service holds describes its DEVELOPMENT stage, its code and its LIVE stage. */
  lemma CleanReadOfHeld(store: FunctionStore, id: string, isNew: bool)
    requires id in store.functions && ReadOutcome(store, id, isNew) == NoErrors
    ensures var f := store.functions[id];
            && store.DescribeResult(id, Development)
                 == Ok(FunctionDescription(id, f.arn, f.status, f.development.config, f.development.etag))
            && store.CodeResult(id, Development) == Ok(f.development.code)
            && (f.live.Some? ==> store.DescribeResult(id, Live).Ok? && store.DescribeResult(id, Live).value.etag == f.live.value.etag)
            && (f.live.None? ==> store.DescribeResult(id, Live) == Err(NotFound) || store.DescribeResult(id, Live) == Err(Other))
  {
  }

  /** resourceFunctionRead. */
  method Read(d: ResourceData, store: FunctionStore) returns (diags: Diagnostics)
    modifies d`id, d`arn, d`comment, d`etag, d`name, d`runtime, d`status, d`code,
             d`keyValueStoreAssociation, d`liveStageEtag, store`log
    ensures diags == ReadOutcome(store, old(d.id), d.isNew)
    ensures store.log == old(store.log) + ReadCalls(store, old(d.id))
    ensures ReadStored(d, store, old(d.id))
  {
    ghost var log0 := store.log;
    var dev := ReadDevelopmentStage(d, store);
    if !d.isNew && dev.Err? && dev.kind == NotFound {
      d.id := "";
      return NoErrors;
    }
    if dev.Err? {
      return Failed(ReadingDevelopmentStage, dev.kind);
    }
    diags := ReadCodeAndLive(d, store);
    assert store.log == log0 + ([DescribeFunctionCall(d.id, Development)] + CodeAndLiveCalls(store, d.id));
  }

  /**
   * What Read stores into d for id: on drift of a resource that is not new the
   * ID is cleared; a failed DEVELOPMENT read stores nothing; otherwise the
   * description is stored, then the code, then the LIVE ETag ("" when there is
   * no LIVE stage), each only as far as the read got.
   */
  twostate predicate ReadStored(d: ResourceData, store: FunctionStore, id: string)
    reads d, store`functions
  {
    var dev := store.DescribeResult(id, Development);
    var code := store.CodeResult(id, Development);
    var live := store.DescribeResult(id, Live);
    (dev.Err? ==>
       d.id == (if dev.kind == NotFound && !d.isNew then "" else id)
       && unchanged(d`arn, d`comment, d`etag, d`name, d`runtime, d`status, d`code,
                    d`keyValueStoreAssociation, d`liveStageEtag))
    && (dev.Ok? ==> d.id == id && DescriptionStored(d, dev.value))
    && (dev.Ok? && code.Err? ==> unchanged(d`code, d`liveStageEtag))
    && (dev.Ok? && code.Ok? ==>
          d.code == code.value
          && d.liveStageEtag == if live.Ok? then live.value.etag
                                else if live.kind == NotFound then ""
                                else old(d.liveStageEtag))
  }

  /** d holds the d.Set values of a DEVELOPMENT stage description. */
  ghost predicate DescriptionStored(d: ResourceData, desc: FunctionDescription)
    reads d
  {
    d.arn == desc.arn && d.comment == desc.config.comment && d.etag == desc.etag && d.name == desc.name
    && d.runtime == desc.config.runtime && d.status == desc.status
    && d.keyValueStoreAssociation == Normalized(Flattened(desc.config.keyValueStoreAssociations))
  }

  /** The first part of resourceFunctionRead: describe the DEVELOPMENT stage and, if found, store it. */
  method ReadDevelopmentStage(d: ResourceData, store: FunctionStore) returns (dev: Result<FunctionDescription>)
    modifies d`arn, d`comment, d`etag, d`name, d`runtime, d`status, d`keyValueStoreAssociation, store`log
    ensures dev == store.DescribeResult(d.id, Development)
    ensures store.log == old(store.log) + [DescribeFunctionCall(d.id, Development)]
    ensures dev.Err? ==> unchanged(d`arn, d`comment, d`etag, d`name, d`runtime, d`status, d`keyValueStoreAssociation)
    ensures dev.Ok? ==> DescriptionStored(d, dev.value)
  {
    dev := store.DescribeFunction(d.id, Development);
    if dev.Ok? {
      var associations := Flatten(dev.value.config.keyValueStoreAssociations);
      d.arn, d.comment, d.etag, d.name, d.runtime, d.status, d.keyValueStoreAssociation :=
        dev.value.arn, dev.value.config.comment, dev.value.etag, dev.value.name,
        dev.value.config.runtime, dev.value.status, Normalized(associations);
    }
  }

  /** The second part of resourceFunctionRead: the DEVELOPMENT code, then the LIVE stage. */
  method ReadCodeAndLive(d: ResourceData, store: FunctionStore) returns (diags: Diagnostics)
    modifies d`code, d`liveStageEtag, store`log
    ensures diags == CodeAndLiveOutcome(store, d.id)
    ensures store.log == old(store.log) + CodeAndLiveCalls(store, d.id)
    ensures var code := store.CodeResult(d.id, Development);
            var live := store.DescribeResult(d.id, Live);
            if code.Err? then unchanged(d`code, d`liveStageEtag)
            else d.code == code.value
                 && d.liveStageEtag == if live.Ok? then live.value.etag
                                       else if live.kind == NotFound then ""
                                       else old(d.liveStageEtag)
  {
    var code := store.GetFunction(d.id, Development);
    if code.Err? {
      return Failed(ReadingDevelopmentCode, code.kind);
    }
    d.code := code.value;

    var live := store.DescribeFunction(d.id, Live);
    if live.Err? && live.kind == NotFound {
      d.liveStageEtag := "";
    } else if live.Err? {
      return Failed(ReadingLiveStage, live.kind);
    } else {
      d.liveStageEtag := live.value.etag;
    }
    diags := NoErrors;
  }

  /**
   * resourceFunctionCreate: create the function from the planned configuration,
   * take its name as the ID, publish it with the ETag the creation returned
   * when publish is set, then read it back.
   */
  method Create(d: ResourceData, store: FunctionStore) returns (diags: Diagnostics)
    modifies d`id, d`arn, d`comment, d`etag, d`name, d`runtime, d`status, d`code,
             d`keyValueStoreAssociation, d`liveStageEtag, store`functions, store`version, store`log
    requires store.Valid()
    ensures store.Valid()
    ensures var created := old(store.CreateResult(d.name));
            created.Err? ==>
              diags == Failed(Creating, created.kind)
              && store.log == old(store.log) + [CreateFunctionCall(old(d.name), old(d.code), old(ConfigOf(d)))]
              && store.functions == old(store.functions)
              && unchanged(d`id, d`arn, d`comment, d`etag, d`name, d`runtime, d`status, d`code,
                           d`keyValueStoreAssociation, d`liveStageEtag)
    ensures var created := old(store.CreateResult(d.name));
            created.Ok? ==>
              d.id == old(d.name)
              && store.functions == old(store.functions)[old(d.name) := old(CreatedFunction(store, d, created.value.etag))]
    // publish is requested with the ETag the creation returned; only its failure skips the read-back
    ensures var created := old(store.CreateResult(d.name));
            created.Ok? && d.publish && PublishFunctionApi in store.faults ==>
              diags == Failed(Publishing, Other)
              && store.log == old(store.log) + [CreateFunctionCall(old(d.name), old(d.code), old(ConfigOf(d))),
                                                PublishFunctionCall(old(d.name), created.value.etag)]
              && unchanged(d`arn, d`comment, d`etag, d`name, d`runtime, d`status, d`code,
                           d`keyValueStoreAssociation, d`liveStageEtag)
    ensures var created := old(store.CreateResult(d.name));
            created.Ok? && !(d.publish && PublishFunctionApi in store.faults) ==>
              diags == ReadOutcome(store, old(d.name), d.isNew)
              && store.log == old(store.log) + [CreateFunctionCall(old(d.name), old(d.code), old(ConfigOf(d)))]
                              + (if d.publish then [PublishFunctionCall(old(d.name), created.value.etag)] else [])
                              + ReadCalls(store, old(d.name))
              && ReadStored(d, store, old(d.name))
    // a clean read-back returns the configuration that was planned
    ensures diags == NoErrors ==>
              d.code == old(d.code) && d.comment == old(d.comment) && d.runtime == old(d.runtime)
              && d.keyValueStoreAssociation == old(d.keyValueStoreAssociation) && d.name == old(d.name)
              && d.etag == old(store.CreateResult(d.name)).value.etag
              && d.liveStageEtag == if d.publish then d.etag else ""
  {
    ghost var associations := d.keyValueStoreAssociation;
    diags := CreateAndPublish(d, store);
    if diags != NoErrors {
      return;
    }
    diags := Read(d, store);
    FlattenExpand(associations);
    if diags == NoErrors {
      CleanReadOfHeld(store, d.id, d.isNew);
    }
  }

  /** The function Create makes: the planned configuration and code, published when asked and possible. */
  ghost function CreatedFunction(store: FunctionStore, d: ResourceData, etag: string): RemoteFunction
    reads d
  {
    var development := StageContent(ConfigOf(d), d.code, etag);
    RemoteFunction(store.arnPrefix + d.name, UnpublishedStatus, development,
                   if d.publish && PublishFunctionApi !in store.faults then Some(development) else None)
  }

  /** The steps of resourceFunctionCreate before the read-back; NoErrors means the read follows. */
  method CreateAndPublish(d: ResourceData, store: FunctionStore) returns (diags: Diagnostics)
    modifies d`id, store`functions, store`version, store`log
    requires store.Valid()
    ensures store.Valid()
    ensures var created := old(store.CreateResult(d.name));
            created.Err? ==>
              diags == Failed(Creating, created.kind)
              && store.log == old(store.log) + [CreateFunctionCall(d.name, d.code, ConfigOf(d))]
              && store.functions == old(store.functions) && d.id == old(d.id)
    ensures var created := old(store.CreateResult(d.name));
            created.Ok? ==>
              d.id == d.name
              && store.functions == old(store.functions)[d.name := CreatedFunction(store, d, created.value.etag)]
              && store.log == old(store.log) + [CreateFunctionCall(d.name, d.code, ConfigOf(d))]
                              + (if d.publish then [PublishFunctionCall(d.name, created.value.etag)] else [])
              && diags == (if d.publish && PublishFunctionApi in store.faults then Failed(Publishing, Other)
                           else NoErrors)
              && store.StateOf(d.name)
                   == if d.publish && PublishFunctionApi !in store.faults then DraftAndPublished else DraftOnly
  {
    var associations := Expand(d.keyValueStoreAssociation);
    var config := FunctionConfig(d.comment, d.runtime, associations);
    var created := store.CreateFunction(d.name, d.code, config);
    if created.Err? {
      return Failed(Creating, created.kind);
    }
    d.id := created.value.name;

    if d.publish {
      var published := store.PublishFunction(d.id, created.value.etag);
      if published.Err? {
        return Failed(Publishing, published.kind);
      }
    }
    diags := NoErrors;
  }

  /** functions with the DEVELOPMENT stage of id replaced by content. */
  ghost function WithDevelopment(functions: map<string, RemoteFunction>, id: string, content: StageContent)
    : map<string, RemoteFunction>
    requires id in functions
  {
    functions[id := functions[id].(development := content)]
  }

  /** functions with the DEVELOPMENT stage of id copied to its LIVE stage. */
  ghost function WithPublished(functions: map<string, RemoteFunction>, id: string): map<string, RemoteFunction>
    requires id in functions
  {
    functions[id := functions[id].(live := Some(functions[id].development))]
  }

  /** Update goes on past its update step: nothing changed, or the update was accepted. */
  ghost predicate UpdateProceeds(store: FunctionStore, d: ResourceData)
    reads store`functions, store`version, d
  {
    d.HasChanges() ==> store.UpdateResult(d.id, d.etag).Ok?
  }

  /** The ETag Update publishes with: the one UpdateFunction returned, or the stored one when nothing changed. */
  ghost function PublishEtag(store: FunctionStore, d: ResourceData): string
    reads store`functions, store`version, d
    requires UpdateProceeds(store, d)
  {
    if d.HasChanges() then store.UpdateResult(d.id, d.etag).value else d.etag
  }

  /** The answer Update's publish gets: after an update its ETag is current, so only a fault refuses it. */
  ghost function UpdatePublishResult(store: FunctionStore, d: ResourceData): Result<()>
    reads store`functions, d
  {
    if d.HasChanges() then (if PublishFunctionApi in store.faults then Err(Other) else Ok(()))
    else store.PublishResult(d.id, d.etag)
  }

  /** The functions the service holds after Update's update and publish steps, when the update was not refused. */
  ghost function UpdatedFunctions(store: FunctionStore, d: ResourceData): map<string, RemoteFunction>
    reads store`functions, store`version, d
    requires UpdateProceeds(store, d)
  {
    var updated := if d.HasChanges()
                   then WithDevelopment(store.functions, d.id, StageContent(ConfigOf(d), d.code, PublishEtag(store, d)))
                   else store.functions;
    if d.publish && UpdatePublishResult(store, d).Ok? then WithPublished(updated, d.id) else updated
  }

  /** The requests Update sends before its read-back, when the update was not refused. */
  ghost function UpdateCalls(store: FunctionStore, d: ResourceData): seq<Call>
    reads store`functions, store`version, d
    requires UpdateProceeds(store, d)
  {
    (if d.HasChanges() then [UpdateFunctionCall(d.id, d.etag, d.code, ConfigOf(d))] else [])
    + (if d.publish then [PublishFunctionCall(d.id, PublishEtag(store, d))] else [])
  }

  /**
   * With nothing changed and publish set, Update issues only the publish
   * request, with the stored ETag; at the current ETag it publishes the
   * DEVELOPMENT stage as it is.
   */
  lemma UnchangedUpdateOnlyPublishes(store: FunctionStore, d: ResourceData)
    requires !d.HasChanges() && d.publish
    requires d.id in store.functions && store.functions[d.id].development.etag == d.etag
    requires PublishFunctionApi !in store.faults
    ensures UpdateProceeds(store, d)
    ensures UpdateCalls(store, d) == [PublishFunctionCall(d.id, d.etag)]
    ensures UpdatedFunctions(store, d) == WithPublished(store.functions, d.id)
    ensures var f := UpdatedFunctions(store, d)[d.id];
            f.live == Some(store.functions[d.id].development) && f.development == store.functions[d.id].development
  {
  }

  /**
   * resourceFunctionUpdate: when a tracked field changed, update the function
   * with the stored ETag as IfMatch and keep the ETag it returns; publish with
   * that ETag when publish is set, changed or not; then read it back.
   */
  method Update(d: ResourceData, store: FunctionStore) returns (diags: Diagnostics)
    modifies d`id, d`arn, d`comment, d`etag, d`name, d`runtime, d`status, d`code,
             d`keyValueStoreAssociation, d`liveStageEtag, store`functions, store`version, store`log
    requires store.Valid()
    ensures store.Valid()
    // a refused update (a stale ETag is Conflict) stops the handler and changes nothing
    ensures var updated := old(store.UpdateResult(d.id, d.etag));
            old(d.HasChanges()) && updated.Err? ==>
              diags == Failed(Updating, updated.kind)
              && store.log == old(store.log) + [UpdateFunctionCall(old(d.id), old(d.etag), old(d.code), old(ConfigOf(d)))]
              && store.functions == old(store.functions)
              && unchanged(d`id, d`arn, d`comment, d`etag, d`name, d`runtime, d`status, d`code,
                           d`keyValueStoreAssociation, d`liveStageEtag)
    ensures old(UpdateProceeds(store, d)) ==> store.functions == old(UpdatedFunctions(store, d))
    // a refused publish stops the handler before the read-back
    ensures old(UpdateProceeds(store, d)) && d.publish && old(UpdatePublishResult(store, d)).Err? ==>
              diags == Failed(Publishing, old(UpdatePublishResult(store, d)).kind)
              && store.log == old(store.log) + old(UpdateCalls(store, d))
              && unchanged(d`id, d`arn, d`comment, d`etag, d`name, d`runtime, d`status, d`code,
                           d`keyValueStoreAssociation, d`liveStageEtag)
    ensures old(UpdateProceeds(store, d)) && !(d.publish && old(UpdatePublishResult(store, d)).Err?) ==>
              diags == ReadOutcome(store, old(d.id), d.isNew)
              && store.log == old(store.log) + old(UpdateCalls(store, d)) + ReadCalls(store, old(d.id))
              && ReadStored(d, store, old(d.id))
    // a clean read-back after a change returns the planned configuration and the new ETag
    ensures diags == NoErrors && old(d.HasChanges()) ==>
              d.code == old(d.code) && d.comment == old(d.comment) && d.runtime == old(d.runtime)
              && d.keyValueStoreAssociation == old(d.keyValueStoreAssociation)
              && d.etag == old(store.UpdateResult(d.id, d.etag)).value
    // a clean read-back after a publish finds the LIVE stage at the DEVELOPMENT ETag
    ensures diags == NoErrors && d.publish ==> d.liveStageEtag == d.etag
  {
    ghost var associations := d.keyValueStoreAssociation;
    ghost var id := d.id;
    diags := UpdateAndPublish(d, store);
    if diags != NoErrors {
      return;
    }
    diags := Read(d, store);
    FlattenExpand(associations);
    if diags == NoErrors && id in store.functions {
      CleanReadOfHeld(store, id, d.isNew);
    }
  }

  /** The steps of resourceFunctionUpdate before the read-back; NoErrors means the read follows. */
  method UpdateAndPublish(d: ResourceData, store: FunctionStore) returns (diags: Diagnostics)
    modifies store`functions, store`version, store`log
    requires store.Valid()
    ensures store.Valid()
    ensures var updated := old(store.UpdateResult(d.id, d.etag));
            d.HasChanges() && updated.Err? ==>
              diags == Failed(Updating, updated.kind)
              && store.log == old(store.log) + [UpdateFunctionCall(d.id, d.etag, d.code, ConfigOf(d))]
              && store.functions == old(store.functions)
    ensures old(UpdateProceeds(store, d)) ==>
              store.functions == old(UpdatedFunctions(store, d))
              && store.log == old(store.log) + old(UpdateCalls(store, d))
              && diags == if d.publish && old(UpdatePublishResult(store, d)).Err?
                          then Failed(Publishing, old(UpdatePublishResult(store, d)).kind)
                          else NoErrors
    ensures old(UpdateProceeds(store, d)) && d.publish && old(UpdatePublishResult(store, d)).Ok? ==>
              store.StateOf(d.id) == DraftAndPublished
  {
    var etag := d.etag;
    if d.HasChanges() {
      var associations := Expand(d.keyValueStoreAssociation);
      var config := FunctionConfig(d.comment, d.runtime, associations);
      var updated := store.UpdateFunction(d.id, etag, d.code, config);
      if updated.Err? {
        return Failed(Updating, updated.kind);
      }
      etag := updated.value;
    }

    if d.publish {
      var published := store.PublishFunction(d.id, etag);
      if published.Err? {
        return Failed(Publishing, published.kind);
      }
    }
    diags := NoErrors;
  }

  /**
   * resourceFunctionDelete: delete with the stored ETag as IfMatch; a function
   * that no longer exists counts as deleted.
   */
  method Delete(d: ResourceData, store: FunctionStore) returns (diags: Diagnostics)
    modifies store`functions, store`log
    requires store.Valid()
    ensures store.Valid()
    ensures store.log == old(store.log) + [DeleteFunctionCall(d.id, d.etag)]
    ensures var deleted := old(store.DeleteResult(d.id, d.etag));
            diags == if deleted.Ok? || deleted.kind == NotFound then NoErrors else Failed(Deleting, deleted.kind)
    ensures (diags == NoErrors) <==> (DeleteFunctionApi !in store.faults
                                      && (d.id in old(store.functions) ==> old(store.functions)[d.id].development.etag == d.etag))
    ensures diags == NoErrors ==> store.functions == old(store.functions) - {d.id} && store.StateOf(d.id) == Absent
    ensures diags != NoErrors ==> store.functions == old(store.functions)
  {
    var deleted := store.DeleteFunction(d.id, d.etag);
    if deleted.Err? && deleted.kind == NotFound {
      return NoErrors;
    }
    if deleted.Err? {
      return Failed(Deleting, deleted.kind);
    }
    diags := NoErrors;
  }

  /** Deleting a deleted function succeeds again: Delete is idempotent. */
  method DeleteTwice(d: ResourceData, store: FunctionStore) returns (first: Diagnostics, second: Diagnostics)
    modifies store`functions, store`log
    requires store.Valid()
    ensures store.Valid()
    ensures first == NoErrors ==> second == NoErrors && d.id !in store.functions
  {
    first := Delete(d, store);
    second := Delete(d, store);
  }

  /**
   * The passthrough importer (schema.ImportStatePassthroughContext): the
   * import key becomes the ID, and the read that follows fills in the rest.
   * That read is a refresh of imported state, so the resource is not new.
   */
  method Import(d: ResourceData, store: FunctionStore, key: string) returns (diags: Diagnostics)
    modifies d`id, d`arn, d`comment, d`etag, d`name, d`runtime, d`status, d`code,
             d`keyValueStoreAssociation, d`liveStageEtag, d`isNew, store`log
    ensures !d.isNew
    ensures diags == ReadOutcome(store, key, false)
    ensures store.log == old(store.log) + ReadCalls(store, key)
    ensures ReadStored(d, store, key)
    // importing a name the service does not hold leaves no ID
    ensures key !in store.functions && DescribeFunctionApi(Development) !in store.faults ==>
              d.id == "" && diags == NoErrors
  {
    d.id, d.isNew := key, false;
    diags := Read(d, store);
  }
}
