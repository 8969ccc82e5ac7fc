# Job pipeline and teaching examples, modelled in Dafny

This project models a background-job service that runs a pipeline over an
uploaded file. It also models the small teaching programs kept in the same
repository.

**The job pipeline** (`fastapi_job_Q_pipeline`):

- **Stage planner and executor** (`core/pipeline.py`, module `Pipeline`).
  - A registry maps each stage name to the names it depends on.
  - `build_plan` validates the enabled stages. It then builds one of three plans:
    - the caller's parallel groups;
    - the caller's explicit order, one stage per group;
    - an order derived pass by pass from the dependencies.
  - `run` executes the plan group by group. It fills a results map whose keys
    follow the plan.
  - The derived order is specified relationally:
    - it succeeds with singleton groups in a dependency-respecting order of the
      enabled stages;
    - it fails with the cycle error, and does so exactly when no such order
      exists.
  - A stage's `run` is an opaque function `bodies(name)` that returns an
    output or an exception message.
- **Executor façade** (`core/executors.py`, module `Executors`).
  - The default registry is the three-stage chain `stage1 <- stage2 <- stage3`.
  - A missing or empty stage map falls back to that default.
  - A missing `enabled` list means every registered stage, in registration order.
- **Job record store** (`infrastructure/repository.py`, module `Repository`).
  - Redis is a `map<string, map<string, string>>`. Each job lives under the key
    `"job:" + id`.
  - `create_job` and `update_job` merge a serialized payload into the job's hash.
  - `_serialize` and `_deserialize` are per-field encodings:
    - `None` is stored as `""`;
    - dicts and lists are stored as JSON;
    - any other value is stored as `str(value)`.
  - `_deserialize` reads the fields back:
    - `""` reads as `None`;
    - `pipeline_config` and `result` are JSON-decoded;
    - `created_at` and `updated_at` are parsed as integers;
    - every other field stays text.
  - Python's dynamic values (`None`, bools, ints, strings, lists, dicts) are the
    `PyValues.Value` datatype. That module also holds Python truthiness,
    `dict.get`, and `str(int)` / `int(str)` with their round trip.
- **Job services** (`app/services.py`, module `Services`). Collaborators are
  injected functions, and every call to them is recorded in a log field of the
  service.
  - Submission saves the upload, creates a `QUEUED` record and enqueues the id.
  - Queries return a record or its result path. Their errors are checked in
    this order: not found, not completed, output missing.
  - Processing reads the job, writes `RUNNING`, runs the pipeline, then writes
    and notifies `COMPLETED`.
  - Any exception inside the `try` block is recorded as `FAILED`, and that
    failure is notified.
  - `ProcessTrace` gives the exact sequence of writes, runs and notices, and what
    escapes. The `Process` method is proved against it. The lemmas say what the
    trace does to the store.

**The teaching programs:**

- `opps/opps.py` (module `Cars`): a car with an engine and a speed, a manual car
  with a gear, and an electric car with a battery.
  - A subclass holds its base car and delegates to it where Python calls `super()`.
  - Each method is proved against a pure function on the car's state.
  - `BatteryCanGoNegative` shows a behaviour of the code. The battery drains by
    5 only from a positive level, and braking recharges by 2. From an empty
    battery, one brake and one acceleration therefore leave `-3`. The reachable
    range is `-5 < battery <= 100`, and that range is an invariant.
- `solid-principle/srp.py` and its copy `solid-principle/ocp.py` (module `Cart`):
  product validation and a shopping cart.
  - Removal drops the first product with the given name.
  - Totalling an empty cart fails.
  - The table below cites `srp.py`. In `ocp.py` the same code sits one line
    lower: the product constructor at lines 23-31, `add_product` at 43-47,
    `remove_product` at 49-55, `calculate_total_price` at 57-61 and `is_empty`
    at 63-64.
- `fastapi_concurrency/app/cpu_tasks.py` (module `CpuTasks`): the list of
  Fibonacci numbers `0..n`.
- `google_doc_LLD/google_doc_lld.py` (module `Documents`): text and image
  elements and a document that renders them one per line.

Where the specification of the service and its code differ, the model follows
the code:

- An explicit `order` is not checked against dependencies
  (`Pipeline.ExplicitOrderIgnoresDependencies`).
- `process` never looks at the current status, so a terminal job runs again.
- A record that cannot be decoded makes `process` raise before its `try` block.
  So does a notifier that raises while a failure is reported
  (`Services.ProcessRaisesOnlyFrom`). The specification says nothing escapes
  `process`.
- An empty parallel group is accepted by the planner. It fails at run time,
  because the thread pool refuses zero workers (`Pipeline.RunError.EmptyGroup`).

## Model

| member | source | states |
|---|---|---|
| Pipeline.Validate | fastapi_job_Q_pipeline/core/pipeline.py:17-26 | no error iff every enabled stage is registered and every dependency is enabled; otherwise the unknown names come first and are exactly the unregistered enabled ones; else the error names an enabled stage and one of its dependencies that is not enabled |
| Pipeline.Unregistered | fastapi_job_Q_pipeline/core/pipeline.py:18-18 | holds exactly the enabled names that are not registered |
| Pipeline.ParallelPlanAccepts | fastapi_job_Q_pipeline/core/pipeline.py:28-46 | given parallel groups succeed iff they name the enabled stages exactly once and put every dependency in a strictly earlier group; on success the groups come back unchanged |
| Pipeline.PlanFromParallelGroups | fastapi_job_Q_pipeline/core/pipeline.py:28-46 | the loop version returns the same plan or the same first error as the specification of the parallel-groups check |
| Pipeline.IndexGroups | fastapi_job_Q_pipeline/core/pipeline.py:35-38 | the index loop builds the map from each name to its group, a later group overriding an earlier one |
| Pipeline.OrderPlan | fastapi_job_Q_pipeline/core/pipeline.py:49-54 | an explicit order succeeds iff it has no duplicates and names the enabled stages; the plan is one singleton group per name in that order; otherwise it fails with the duplicate error first, then the coverage error |
| Pipeline.ExplicitOrderIgnoresDependencies | fastapi_job_Q_pipeline/core/pipeline.py:49-54 | an order that puts a stage before its dependency is accepted |
| Pipeline.Singletons | fastapi_job_Q_pipeline/core/pipeline.py:69-69 | one group per name, each holding just that name, in order |
| Pipeline.PlaceNext | fastapi_job_Q_pipeline/core/pipeline.py:61-66 | placing a stage whose dependencies are all placed keeps the derive loop's invariant: placed stages are distinct, dependency-ordered and disjoint from the remaining ones |
| Pipeline.StuckMeansNoOrder | fastapi_job_Q_pipeline/core/pipeline.py:59-68 | when a pass can place none of the remaining stages, no dependency-respecting order of the enabled stages exists |
| Pipeline.PlanSequential | fastapi_job_Q_pipeline/core/pipeline.py:48-69 | a non-empty order gives the explicit-order outcome; otherwise the derive loop returns singleton groups in a dependency-respecting order of the enabled stages, or the cycle error exactly when no such order exists |
| Pipeline.DerivedFailsIffNoOrder | fastapi_job_Q_pipeline/core/pipeline.py:55-69 | the derived plan fails iff no dependency-respecting order of the enabled stages exists, and then the error is the cycle error |
| Pipeline.BuildPlan | fastapi_job_Q_pipeline/core/pipeline.py:71-80 | validation errors come first; non-empty parallel groups take precedence over the order; an empty or missing order falls through to the derived order |
| Pipeline.PlannedStagesAreEnabled | fastapi_job_Q_pipeline/core/pipeline.py:71-80 | every plan built runs each enabled stage exactly once; a plan from groups or from the derived order puts every dependency in an earlier group |
| Pipeline.Results.Put | fastapi_job_Q_pipeline/core/pipeline.py:95-95 | storing a result maps the name to the value; a new name goes at the end of the key order, and the keys stay unique |
| Pipeline.CollectStores | fastapi_job_Q_pipeline/core/pipeline.py:103-105 | collecting a group's outputs appends the group's names to the keys in group order |
| Pipeline.GroupCalls | fastapi_job_Q_pipeline/core/pipeline.py:92-105 | a group calls each of its stages once, in group order, each seeing the results from before the group |
| Pipeline.RunKeysFollowPlan | fastapi_job_Q_pipeline/core/pipeline.py:90-107 | a successful run returns results whose keys are the plan's stages in flattened plan order |
| Pipeline.RunCallsFollowPlan | fastapi_job_Q_pipeline/core/pipeline.py:92-105 | a successful run calls the plan's stages in flattened order; a failing run stops after the group that failed and calls nothing later |
| Pipeline.RunSeesDependencies | fastapi_job_Q_pipeline/core/pipeline.py:92-105 | when every dependency sits in an earlier group, each stage is called with results already holding its dependencies' outputs |
| Pipeline.ExecutePlan | fastapi_job_Q_pipeline/core/pipeline.py:90-107 | the group loop returns the results, or the first failure, and makes the calls that the run specification gives |
| Pipeline.Run | fastapi_job_Q_pipeline/core/pipeline.py:82-107 | a planning failure is returned before any stage runs; otherwise the plan is executed; successful results hold each enabled stage exactly once |
| Executors.DefaultRegistry | fastapi_job_Q_pipeline/core/executors.py:10-15 | the default registry is well formed; stage1 has no dependencies, stage2 depends on stage1, stage3 on stage2 |
| Executors.ChainIsOnlyOrder | fastapi_job_Q_pipeline/core/stages.py:11-47 | the only dependency-respecting order of the three default stages is stage1, stage2, stage3 |
| Executors.ChooseRegistry | fastapi_job_Q_pipeline/core/executors.py:19-21 | a missing or empty stage map is replaced by the default; any other is kept |
| Executors.PipelineExecutor.constructor | fastapi_job_Q_pipeline/core/executors.py:19-21 | the executor's registry is the chosen one |
| Executors.EnabledOrAll | fastapi_job_Q_pipeline/core/executors.py:30-31 | a missing list means every registered stage in registration order; any given list, even an empty one, is kept |
| Executors.DefaultPlanIsChain | fastapi_job_Q_pipeline/core/executors.py:30-32 | with the default stages and no configuration the plan is the chain of three singleton groups |
| Executors.EmptyEnabledPlansNothing | fastapi_job_Q_pipeline/core/pipeline.py:57-59 | an empty enabled list with neither order nor groups plans nothing, whatever the registry |
| Executors.PipelineExecutor.Run | fastapi_job_Q_pipeline/core/executors.py:23-32 | the pipeline run on the defaulted enabled list, with order and groups passed unchanged; with no configuration the default plan is the chain; an empty enabled list gives an empty plan, an empty results map and no stage calls |
| PyValues.Get | fastapi_job_Q_pipeline/app/services.py:74-74 | a missing key reads as None; a present key reads as its value |
| PyValues.OrEmptyDict | fastapi_job_Q_pipeline/app/services.py:77-77 | a truthy value is kept; a falsy one becomes the empty dict |
| PyValues.IntTextRoundTrip | fastapi_job_Q_pipeline/infrastructure/repository.py:42-55 | the decimal text of every integer, negative ones included, is non-empty and parses back to that integer |
| Repository.Serialize | fastapi_job_Q_pipeline/infrastructure/repository.py:34-43 | keeps the key set and encodes each field on its own |
| Repository.Deserialize | fastapi_job_Q_pipeline/infrastructure/repository.py:45-58 | succeeds iff every field decodes; then it keeps the key set and decodes each field on its own |
| Repository.FieldRoundTrip | fastapi_job_Q_pipeline/infrastructure/repository.py:34-58 | None, ints under the timestamp keys, non-empty text under other keys and dicts or lists under the JSON keys decode to the value encoded |
| Repository.SerializeRoundTrip | fastapi_job_Q_pipeline/infrastructure/repository.py:34-58 | a record whose every field round-trips deserializes back to itself |
| Repository.EmptyStringReadsAsNone | fastapi_job_Q_pipeline/infrastructure/repository.py:39-50 | an empty string under any key reads back as None |
| Repository.IntUnderOrdinaryFieldReadsAsText | fastapi_job_Q_pipeline/infrastructure/repository.py:42-57 | an int under an ordinary key reads back as its decimal text, not as an int |
| Repository.DeserializeMerge | fastapi_job_Q_pipeline/infrastructure/repository.py:45-58 | merging the serialized fields of round-tripping data into a stored hash reads back as the old record overridden by the data |
| Repository.HSet | fastapi_job_Q_pipeline/infrastructure/repository.py:22-22 | the hash under the key gains or overrides the given fields and keeps its others; every other key is unchanged |
| Repository.CreatePayload | fastapi_job_Q_pipeline/infrastructure/repository.py:15-21 | the caller's fields, plus status QUEUED and both timestamps set to now where the caller gave none |
| Repository.UpdatePayload | fastapi_job_Q_pipeline/infrastructure/repository.py:25-25 | the caller's fields plus updated_at set to now unless given |
| Repository.Fetch | fastapi_job_Q_pipeline/infrastructure/repository.py:28-32 | an empty hash reads as absent; a record read has the hash's keys and is non-empty |
| Repository.WriteIsolatesJobs | fastapi_job_Q_pipeline/infrastructure/repository.py:22-29 | a write to one job's hash does not change what any other job reads |
| Repository.CreateThenFetch | fastapi_job_Q_pipeline/infrastructure/repository.py:14-32 | a created job reads back as its creation payload |
| Repository.UpdateThenFetch | fastapi_job_Q_pipeline/infrastructure/repository.py:24-32 | an updated job reads back as the old record overridden by the update payload |
| Repository.JobRepository.constructor | fastapi_job_Q_pipeline/infrastructure/repository.py:11-12 | the repository holds the given store |
| Repository.JobRepository.CreateJob | fastapi_job_Q_pipeline/infrastructure/repository.py:14-22 | the store becomes the creation write of the serialized payload |
| Repository.JobRepository.UpdateJob | fastapi_job_Q_pipeline/infrastructure/repository.py:24-26 | the store becomes the update write of the serialized payload |
| Repository.JobRepository.GetJob | fastapi_job_Q_pipeline/infrastructure/repository.py:28-32 | returns what the store holds for the job: absent, the decoded record, or undecodable |
| Services.SubmittedPayload | fastapi_job_Q_pipeline/app/services.py:50-57 | a submitted job's payload has exactly status QUEUED, both timestamps, the input path, the configuration and the callback |
| Services.SubmittedJobIsQueued | fastapi_job_Q_pipeline/app/services.py:48-59 | a submitted job reads back as that QUEUED payload |
| Services.JobSubmissionService.constructor | fastapi_job_Q_pipeline/app/services.py:29-39 | a new service has saved and enqueued nothing |
| Services.JobSubmissionService.Submit | fastapi_job_Q_pipeline/app/services.py:41-59 | saves the upload once, creates the job under the given id with the saved path, enqueues that id once and returns it |
| Services.JobOrError | fastapi_job_Q_pipeline/app/services.py:66-70 | succeeds iff a non-empty record is found, returning it unchanged; otherwise the not-found error naming the job |
| Services.ResultPath | fastapi_job_Q_pipeline/app/services.py:72-81 | succeeds iff the job is found, COMPLETED, and its result has a truthy output path, which it returns; not-found comes first, then not-completed, then output-missing |
| Services.JobQueryService.GetJob | fastapi_job_Q_pipeline/app/services.py:66-70 | the record lookup's outcome for the stored job, with no write |
| Services.JobQueryService.GetResultPath | fastapi_job_Q_pipeline/app/services.py:72-81 | the result-path outcome for the stored job, with no write |
| Services.TryBlock | fastapi_job_Q_pipeline/app/services.py:104-131 | the try block writes at most one record, a COMPLETED one, and writes it whenever it raises nothing |
| Services.ProcessLifecycle | fastapi_job_Q_pipeline/app/services.py:97-140 | an absent or empty job has no effect; otherwise the statuses written are RUNNING then COMPLETED, RUNNING then FAILED, or RUNNING, COMPLETED, FAILED; every write is to this job |
| Services.FoundLifecycle | fastapi_job_Q_pipeline/app/services.py:102-140 | the status sequence of a found job, as above |
| Services.FoundTrace | fastapi_job_Q_pipeline/app/services.py:102-140 | processing a found job is the RUNNING write, then the try block, then on its error the FAILED write with message and traceback and the failure notice |
| Services.ProcessSucceeds | fastapi_job_Q_pipeline/app/services.py:102-131 | on success: RUNNING, then COMPLETED with the output path and the stage keys in order; one path ensured; one executor call with the context and the configuration's three settings; one notice with the result payload |
| Services.ProcessFailsOnRunError | fastapi_job_Q_pipeline/app/services.py:119-140 | a failing run writes RUNNING then FAILED with message and traceback, notifies FAILED with the message, and raises only if that notify raises |
| Services.ProcessRaisesOnlyFrom | fastapi_job_Q_pipeline/app/services.py:97-140 | process raises only when the record cannot be decoded or when the failure notify raises |
| Services.StatusUpdateRoundTrips | fastapi_job_Q_pipeline/app/services.py:102-102 | the RUNNING update payload survives the store's encoding |
| Services.CompletedUpdateRoundTrips | fastapi_job_Q_pipeline/app/services.py:130-130 | the COMPLETED update payload survives the store's encoding |
| Services.RunningThenCompleted | fastapi_job_Q_pipeline/app/services.py:102-130 | after the RUNNING and COMPLETED writes the job reads back as the old record overridden by both payloads |
| Services.CompletedRecordHasPath | fastapi_job_Q_pipeline/app/services.py:72-81 | a record overridden by a COMPLETED payload with a non-empty output path yields that path |
| Services.ProcessedJobHasResultPath | fastapi_job_Q_pipeline/app/services.py:126-131 | after a successful process the result-path query on the stored job returns the output path |
| Services.JobProcessingService.constructor | fastapi_job_Q_pipeline/app/services.py:85-95 | a new service has written, ensured, run and notified nothing |
| Services.JobProcessingService.UpdateJob | fastapi_job_Q_pipeline/app/services.py:102-102 | one write logged and applied to the store; the other logs are unchanged |
| Services.JobProcessingService.RunTry | fastapi_job_Q_pipeline/app/services.py:104-131 | the logs, the store and the error are those of the try block's specification |
| Services.JobProcessingService.ReportFailure | fastapi_job_Q_pipeline/app/services.py:133-140 | writes FAILED with message and traceback, notifies the failure, and returns what the notify raises |
| Services.JobProcessingService.ProcessRecord | fastapi_job_Q_pipeline/app/services.py:102-140 | the logs, the store and what escapes are those of the process trace of the found record |
| Services.JobProcessingService.Process | fastapi_job_Q_pipeline/app/services.py:97-140 | the logs, the store and what escapes are those of the process trace of the job as stored before the call |
| Cars.Accelerated | opps/opps.py:74-79 | adds 20 with the engine on, nothing with it off |
| Cars.AccelerateTimesAdds | opps/opps.py:74-79 | n accelerations add exactly 20 n with the engine on, nothing with it off |
| Cars.Braked | opps/opps.py:81-83 | speed becomes 10 less or 0, never negative |
| Cars.BrakeTimesSubtracts | opps/opps.py:81-83 | n brakes from a non-negative speed leave max(0, speed - 10 n) |
| Cars.SpeedSet | opps/opps.py:90-96 | succeeds iff the value is within 0..300; below 0 and above 300 give their messages |
| Cars.SpeedStaysNonNegative | opps/opps.py:74-96 | no operation makes a non-negative speed negative |
| Cars.EngineStatus | opps/opps.py:98-100 | ON exactly when the engine is on, OFF otherwise |
| Cars.Shifted | opps/opps.py:110-115 | a gear within 0..6 is taken; any other leaves the gear |
| Cars.ShiftedStaysInRange | opps/opps.py:106-115 | a gear within 0..6 stays within 0..6 |
| Cars.ElectricAccelerated | opps/opps.py:129-135 | refused on a battery at or below 0; otherwise the base acceleration and 5 less battery, engine on or off |
| Cars.ElectricDrains | opps/opps.py:129-135 | n accepted accelerations cost 5 n battery |
| Cars.ElectricBraked | opps/opps.py:137-140 | the base brake, and the battery 2 more but at most 100 |
| Cars.BatteryStaysInRange | opps/opps.py:125-140 | both operations keep the battery above -5 and at most 100 |
| Cars.BatteryCanGoNegative | opps/opps.py:129-140 | twenty accelerations empty a full battery; the next is refused; a brake and an acceleration then leave -3 |
| Cars.MyCar.constructor | opps/opps.py:64-68 | a new car has the engine off and speed 0 |
| Cars.MyCar.StartEngine | opps/opps.py:70-72 | the engine is on and the speed unchanged |
| Cars.MyCar.Accelerate | opps/opps.py:74-79 | the new state is the accelerated one |
| Cars.MyCar.ApplyBrake | opps/opps.py:81-83 | the new state is the braked one |
| Cars.MyCar.SetSpeed | opps/opps.py:90-96 | a value within 0..300 is assigned; any other raises its message and leaves the car unchanged |
| Cars.ManualCar.constructor | opps/opps.py:106-108 | a new manual car is a new car in gear 0 |
| Cars.ManualCar.ShiftGear | opps/opps.py:110-115 | the new gear is the shifted one |
| Cars.ElectricCar.constructor | opps/opps.py:125-127 | a new electric car is a new car with battery 100 |
| Cars.ElectricCar.Accelerate | opps/opps.py:129-135 | the new state is the electric accelerated one |
| Cars.ElectricCar.ApplyBrake | opps/opps.py:137-140 | the new state is the electric braked one |
| Cart.NewProduct | solid-principle/srp.py:22-30 | succeeds iff the name is non-empty and the price positive; the name is checked first; each failure has its exception and message |
| Cart.FirstNamed | solid-principle/srp.py:49-50 | the index of the first product with the name, or none when no product has it |
| Cart.Removed | solid-principle/srp.py:48-54 | drops the first product with the name; with none, the not-found error naming it |
| Cart.RemovedKeepsOthers | solid-principle/srp.py:48-53 | removal takes out one product with the name and keeps the others in order, as a multiset minus that product |
| Cart.Total | solid-principle/srp.py:56-60 | fails iff the cart is empty, with the empty-cart message |
| Cart.SumAppend | solid-principle/srp.py:60-60 | adding a product adds its price to the sum |
| Cart.TotalBoundsPrices | solid-principle/srp.py:56-60 | the total of a non-empty cart of valid products is positive and at least every price in it |
| Cart.ShoppingCart.constructor | solid-principle/srp.py:39-40 | a new cart is empty |
| Cart.ShoppingCart.AddProduct | solid-principle/srp.py:42-46 | the product is appended and the earlier ones kept |
| Cart.ShoppingCart.RemoveProduct | solid-principle/srp.py:48-54 | the search loop removes the first product with the name; with none it raises and the cart is unchanged |
| Cart.ShoppingCart.CalculateTotalPrice | solid-principle/srp.py:56-60 | the total of the cart, or the empty-cart error |
| Cart.ShoppingCart.IsEmpty | solid-principle/srp.py:62-63 | true exactly when there are no products, which is exactly when totalling fails |
| CpuTasks.Fibs | fastapi_concurrency/app/cpu_tasks.py:11-13 | n + 1 entries, none for a negative n; entry i is the i-th Fibonacci number |
| CpuTasks.CpuHeavyTask | fastapi_concurrency/app/cpu_tasks.py:1-15 | the loop returns the list of Fibonacci numbers 0..n |
| CpuTasks.FibsPrefix | fastapi_concurrency/app/cpu_tasks.py:11-15 | the list for n is a prefix of the list for n + 1, which adds one entry |
| CpuTasks.FibsRecurrence | fastapi_concurrency/app/cpu_tasks.py:4-8 | past the first two entries each is the sum of the two before it |
| CpuTasks.FibMonotone | fastapi_concurrency/app/cpu_tasks.py:4-8 | the Fibonacci numbers never decrease |
| CpuTasks.FibsSorted | fastapi_concurrency/app/cpu_tasks.py:11-15 | the list is sorted |
| Documents.Renders | google_doc_LLD/google_doc_lld.py:40-42 | one render per element, in order; text renders as `Text: ` and the text, an image as `Image: [path=` and the path and `]` |
| Documents.JoinAppend | google_doc_LLD/google_doc_lld.py:44-44 | joining one more part adds one separator before it, none for the first |
| Documents.DocumentTextAppend | google_doc_LLD/google_doc_lld.py:35-46 | adding an element appends its render on a new line, or makes it the whole text of an empty document |
| Documents.DocumentTextSmall | google_doc_LLD/google_doc_lld.py:38-46 | an empty document renders as the empty text; a single element renders as itself |
| Documents.Document.constructor | google_doc_LLD/google_doc_lld.py:32-33 | a new document has no elements |
| Documents.Document.AddElement | google_doc_LLD/google_doc_lld.py:35-36 | the element is appended and the earlier ones kept |
| Documents.Document.Render | google_doc_LLD/google_doc_lld.py:38-46 | the loop returns the renders joined by newlines and changes nothing |
| Documents.DocumentEditor.constructor | google_doc_LLD/google_doc_lld.py:85-87 | a new editor holds a new empty document |
| Documents.DocumentEditor.AddText | google_doc_LLD/google_doc_lld.py:89-90 | exactly one text element is appended |
| Documents.DocumentEditor.AddImage | google_doc_LLD/google_doc_lld.py:92-93 | exactly one image element is appended |
| Documents.DocumentEditor.RenderDoc | google_doc_LLD/google_doc_lld.py:95-96 | the document's text, with the elements unchanged |

## Left out

- Concurrency: the members of a multi-member group run one after another, in
  group order, against the results from before the group. Each output is stored
  in group order. Nothing is claimed about what concurrently running members
  would see in Python's shared dict. Every member of a group is called. The
  first failure in group order is the one raised, and no later group runs.
- Stage bodies (pandas reads and writes, CPU busy work, `time.sleep`) are the
  opaque function `bodies`. Only their names and dependencies are modelled.
- JSON: `json.dumps` and `json.loads` are the parameter `JsonCodec`. The
  `Lossless` hypothesis says that decoding an encoded dict or list gives it back.
  Other JSON facts, such as number formatting, are not modelled.
- `str(value)` is modelled for bools, ints and strings. Floats and other objects
  are not modelled.
- Python `int(text)` is modelled as optional sign and decimal digits. Python's
  extra forms (`+`, surrounding whitespace, underscores) are not accepted, and
  nothing that the store writes uses them.
- Lists of names inside error messages are rendered with single quotes. Names
  are assumed to hold no quote or escape characters.
- The clock (`time.time`), the id provider (`uuid`) and
  `traceback.format_exc` are parameters. Each service call reads the clock once,
  so every write of one `process` call has the same `updated_at`.
- Redis failures, connection handling and the queue (`enqueue`) are left out.
  The queue is only a log of enqueued ids.
- The notifier, storage (`save_upload`, `build_output_path`, `ensure_path`) and
  the executor used by the services are injected functions. Each call is
  recorded. The HTTP notifier and file storage adapters are not part of this
  model.
- Type checks made impossible by Dafny's types are left out: `isinstance` in
  the cart's product and price checks, and the `TypeError` for a non-product in
  `add_product`.
- Cart.Total: prices and the total are exact reals. The float conversion and
  the rounding of `sum` are not modelled.
- The model and brand of a car, and every `print`, are console output. They are
  kept as fields but nothing is proved about them.
- CpuTasks.CpuHeavyTask: returns the list, as the code does. The function's
  annotation claims `int`.
- The persistence strategies (`SaveToFile`, `SaveToDB`) and the editor's `save`
  write files or the console and are not modelled. So are the invoice and
  persistence classes of the cart files.
- The FastAPI, Celery and RQ applications, settings, wiring and the other
  teaching files print only or are framework code. They are not part of this
  model.
