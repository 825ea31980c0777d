# aws_cloudfront_function: a Dafny model

This project models the `aws_cloudfront_function` resource of the Terraform AWS
provider (`internal/service/cloudfront/function.go`). That resource keeps one
CloudFront Function in step with its configuration. A function has a DEVELOPMENT
stage and, once it is published, a LIVE stage. Each stage carries an ETag, and
every mutating request must present the current ETag as `IfMatch`.

The project is divided into these modules:

- `Associations` (`associations.dfy`) converts between the
  `key_value_store_association` blocks of the configuration and the API's
  `KeyValueStoreAssociations` structure. It has two loop methods, `Expand` and
  `Flatten`, each proved against a specification function. Round-trip lemmas
  connect the two directions.
- `Remote` (`remote.dfy`) is an abstract CloudFront Functions service. The class
  `FunctionStore` holds a map from function name to both stages. It also holds a
  counter from which it issues ETags, and a log of every request it receives.
  Each API call is one method, which returns a value or an error kind
  (`NotFound`, `Conflict`, `Other`). An update, publish or delete whose `IfMatch`
  is not the current DEVELOPMENT ETag is refused with `Conflict`. The store's
  invariant `Valid` says that every ETag held is one the service has issued.
  Every ETag it issues is new, so an ETag that has been replaced never
  matches again. The constant
  `faults` names the operations that fail with a service fault (`Other`). A stage
  read is named per stage, so one stage can fail while the other works.
- `Schema` (`schema.dfy`) holds the field table of the resource:
  - which fields are required, optional or computed;
  - `name` is ForceNew;
  - `publish` defaults to `true`.
- `Resource` (`resource_data.dfy`) models `schema.ResourceData` as the class
  `ResourceData`. It has one field per schema attribute, plus the ID, the prior
  values that `HasChanges` compares, and `IsNewResource`. It also holds the
  planned state the SDK builds for Create and for Update.
- `FunctionResource` (`function_resource.dfy`) holds the four CRUD handlers and
  the passthrough importer. Each is an imperative method over a `ResourceData`
  and a `FunctionStore`. Its contract states:
  - the diagnostics it returns;
  - the exact sequence of requests it sends, with the `IfMatch` of each;
  - the service's new map of functions;
  - the values it stores into the resource.

  Read is specified by the functions `ReadOutcome` and `ReadCalls` over the
  service's state. Create and Update end by calling Read, so their contracts are
  stated through those functions.

## Model

| member | source | states |
|---|---|---|
| Associations.Expand | internal/service/cloudfront/function.go:245-262 | an empty list gives no structure; otherwise there is one item per block, in order, each with its ARN, and Quantity equals the number of items |
| Associations.Flatten | internal/service/cloudfront/function.go:264-277 | no structure gives no list; otherwise there is one block per item, in order, a nil ARN becomes ""; Quantity is not consulted |
| Associations.EmptyIsAbsent | internal/service/cloudfront/function.go:246-248 | an absent list and an empty list are stored as the same (empty) set value |
| Associations.FlattenExpand | internal/service/cloudfront/function.go:245-277 | flattening the expansion of a non-empty block list gives the same list back; as stored in the resource, every list comes back unchanged, the empty one included |
| Associations.ExpandFlatten | internal/service/cloudfront/function.go:245-277 | an API structure with every ARN set and Quantity equal to its length is rebuilt exactly by expanding its flattening; an empty one comes back as no structure |
| Remote.EtagFor | internal/service/cloudfront/function.go:103-114 | every ETag the service issues is non-empty |
| Remote.EtagForInjective | internal/service/cloudfront/function.go:194-204 | the service never issues the same ETag for two writes |
| Remote.FunctionStore.NextEtagIsFresh | internal/service/cloudfront/function.go:194-204 | while every held ETag is one already issued, the next ETag is held by no stage of any function |
| Remote.FunctionStore.CreateFunction | internal/service/cloudfront/function.go:103-109 | an existing name or a fault is refused with the map unchanged; otherwise the name gets a DEVELOPMENT stage with the given code and configuration and no LIVE stage; its ETag is held by no stage of any function before the call; every held ETag stays one the service issued |
| Remote.FunctionStore.DescribeFunction | internal/service/cloudfront/function.go:132 | the request is logged; a fault on the stage's describe is Other, a missing function or stage is NotFound; otherwise the stage's summary and ETag are returned; nothing else changes |
| Remote.FunctionStore.GetFunction | internal/service/cloudfront/function.go:155-158 | the request is logged and the code of the stage is returned; a fault is Other, a missing function or stage NotFound; nothing else changes |
| Remote.FunctionStore.UpdateFunction | internal/service/cloudfront/function.go:186-204 | a stale IfMatch is Conflict, a missing name NotFound, a fault Other, and each leaves the map unchanged; otherwise only the DEVELOPMENT stage is replaced; its new ETag, which is returned, is held by no stage before the call, so it differs from the IfMatch, and the IfMatch is stale from then on |
| Remote.FunctionStore.PublishFunction | internal/service/cloudfront/function.go:112-118 | with the current DEVELOPMENT ETag, the LIVE stage becomes a copy of the DEVELOPMENT stage, ETag included; any refusal leaves the map unchanged |
| Remote.FunctionStore.DeleteFunction | internal/service/cloudfront/function.go:229-234 | with the current ETag the function is removed; a missing name is NotFound; a refusal leaves the map unchanged |
| Schema.PublishValue | internal/service/cloudfront/function.go:58-62 | publish is the configured value, or true when it is not configured |
| Schema.OnlyNameForcesNew | internal/service/cloudfront/function.go:53-57 | name is the only ForceNew field, so a plan replaces the resource exactly when the name changes (used by `Resource.ResourceData.PlanUpdate`) |
| Schema.ComputedFields | internal/service/cloudfront/function.go:33-82 | exactly arn, etag, live_stage_etag and status are computed |
| Schema.InPlaceFields | internal/service/cloudfront/function.go:32-82 | every configured field that does not force replacement is one of those HasChanges tracks, or publish |
| Resource.ResourceData.FromConfig | internal/service/cloudfront/function.go:41-62 | the planned state for Create is the configuration, with "" for an unset comment and true for an unset publish; there is no ID and no computed value yet, and the resource is new |
| Resource.ResourceData.PlanUpdate | internal/service/cloudfront/function.go:53-57 | replacement happens exactly when a ForceNew field of the schema table gets a new value, which is exactly a new name, and then nothing changes; otherwise the configured fields are taken over and the prior values are kept for the change test |
| Resource.ChangeTestCoversTrackedFields | internal/service/cloudfront/function.go:184 | the change test, defined over the schema's update-tracked fields, holds exactly when code, comment, runtime or the set of association blocks differs from its prior value; no other field counts as changed |
| Resource.ReorderedAssociationsAreNoChange | internal/service/cloudfront/function.go:184 | listing the same association blocks in another order is not a change |
| FunctionResource.ReadDevelopmentMandatory | internal/service/cloudfront/function.go:132-142 | if the DEVELOPMENT stage cannot be read, Read succeeds exactly when it is NotFound on a resource that is not new; otherwise it fails with that error |
| FunctionResource.ReadCodeFatal | internal/service/cloudfront/function.go:155-162 | a failure to fetch the DEVELOPMENT code fails the read with that error |
| FunctionResource.ReadLiveOptional | internal/service/cloudfront/function.go:166-174 | once the code is read, Read succeeds exactly when the LIVE stage is read or is NotFound |
| FunctionResource.ReadSucceedsWithoutFaults | internal/service/cloudfront/function.go:132-176 | without faults, Read succeeds exactly when the function exists or the resource is not new |
| FunctionResource.CleanReadOfHeld | internal/service/cloudfront/function.go:132-174 | a clean read of a function the service holds gets its DEVELOPMENT summary and ETag, its code, and the ETag of its LIVE stage if there is one |
| FunctionResource.Read | internal/service/cloudfront/function.go:128-177 | the result is ReadOutcome and the requests are ReadCalls; drift on an existing resource clears the ID; a failed DEVELOPMENT read stores nothing; otherwise the description, the flattened associations, the code and the LIVE ETag are stored, and a missing LIVE stage stores "" |
| FunctionResource.ReadDevelopmentStage | internal/service/cloudfront/function.go:132-153 | one DEVELOPMENT describe request; its summary, ETag and flattened associations are stored, or nothing on an error |
| FunctionResource.ReadCodeAndLive | internal/service/cloudfront/function.go:155-176 | first the code request, then the LIVE describe request, which is sent only if the code was read; the code and the LIVE ETag are stored as the responses allow |
| FunctionResource.CreateAndPublish | internal/service/cloudfront/function.go:90-123 | the create request, then a publish request with the ETag just returned when publish is set; the ID becomes the name; after a create, publish fails only on a fault; the function is then DEVELOPMENT and LIVE when published, DEVELOPMENT-only otherwise |
| FunctionResource.Create | internal/service/cloudfront/function.go:86-126 | a refused create changes nothing, locally or remotely; otherwise the ID is the name and the service holds the planned function, published when asked and possible; a failed publish skips the read and stores nothing else; a read-back stores what Read stores; a clean read-back returns the planned code, comment, runtime, associations and name, the created ETag, and the LIVE ETag equal to it exactly when publish is set |
| FunctionResource.UnchangedUpdateOnlyPublishes | internal/service/cloudfront/function.go:184-219 | with nothing changed and publish set, the only request before the read-back is a publish with the stored ETag, which copies the DEVELOPMENT stage to LIVE |
| FunctionResource.UpdateAndPublish | internal/service/cloudfront/function.go:182-219 | an update request is sent only when a tracked field changed, with the stored ETag as IfMatch; a refused update stops there; publish uses the updated ETag, or the stored one, and after an accepted update it fails only on a fault |
| FunctionResource.Update | internal/service/cloudfront/function.go:179-222 | a refused update (a stale ETag is Conflict) changes nothing locally or remotely; otherwise the requests and new functions follow UpdateCalls and UpdatedFunctions; a refused publish stops there with the resource untouched; otherwise the read follows and stores what Read stores; a clean read after a change returns the planned fields and the new ETag; after a publish, the LIVE ETag equals the ETag |
| FunctionResource.Delete | internal/service/cloudfront/function.go:224-243 | one delete request with the stored ETag; it succeeds exactly when there is no fault and the function is absent or at that ETag, and then the function is gone (its lifecycle is Absent); NotFound counts as success; a failure changes nothing |
| FunctionResource.DeleteTwice | internal/service/cloudfront/function.go:234-236 | deleting again after a successful delete succeeds; every held ETag stays one the service issued |
| FunctionResource.Import | internal/service/cloudfront/function.go:28-30 | the import key becomes the ID and the function is read back as a refresh, on a resource that is not new; a name the service does not hold then leaves no ID and no error |

## Left out

- `FindFunctionByNameAndStage` is not part of this model. It is modelled as the service's describe call for one stage, where a missing function or stage is NotFound.
- The SDK transport, `context`, the `meta` client lookup and log output are not modelled. The text of diagnostics is not modelled either; a diagnostic is the failing step and the error kind.
- Service errors other than NotFound and a stale ETag (AlreadyExists on create, throttling, internal errors) are all the kind `Other`. They are raised through the `faults` constant, which has no timing.
- The allowed runtime values (`validation.StringInSlice` at function.go:66) are not modelled: a runtime is any string.
- The ARN format and the status strings are chosen by the service. The model gives the ARN as a prefix plus the name, and the status as `UNPUBLISHED`, and leaves status unchanged on publish.
- Associations: TypeSet de-duplication and hash order are not modelled. The model keeps the blocks as a sequence, and the change test compares them as sets.
- Associations.Expand: Quantity is an unbounded `nat`, not an `int64`. A Go slice length always fits, so the value is exact.
- The error branch of `d.Set("key_value_store_association", …)` (function.go:151-153) is not modelled. It fails only on a value of the wrong shape, which the model cannot build.
- FunctionResource.CreateAndPublish: its promise that the publish after a create fails only on a fault holds because no other client changes the service while a handler runs. With a concurrent writer, which is what `IfMatch` guards against, the publish at function.go:118 could get a Conflict, and the handler would report it.
- FunctionResource.UpdateAndPublish: its promise that the publish after an accepted update fails only on a fault rests on the same assumption. A concurrent writer could make the publish at function.go:214 fail.
- Concurrency in general: the service is changed only by the handler's own requests. Other clients, and interleavings of two handlers, are not modelled.
- The cancellation and retry behaviour of the SDK is not modelled, and neither is the SDK's own plan-and-apply loop. `ResourceData.PlanUpdate` stands in for the plan, and `IsNewResource` is a field.

## Notes on the source

- Update publishes whenever `publish` is set, even when nothing changed (function.go:207). The model follows the code: see `FunctionResource.UnchangedUpdateOnlyPublishes`.
- Read tolerates a missing DEVELOPMENT stage exactly when `IsNewResource` is false (function.go:134). This is the case of a resource created earlier and since deleted elsewhere; the ID is cleared. During Create, a missing stage is an error.
