# Prefect aircraft tutorial, agent polling and make-style CLI: a Dafny model

This project models three parts of the Prefect repository and proves properties about them.

- **The aircraft tutorial library** (`examples/tutorial/aircraftlib`) and the ETL flow built on it.
  - The upsert store of OpenSky state vectors, keyed by (icao, last_contact).
  - The `clean_vector` normaliser.
  - The position, area and bounding-box geometry.
  - The options `fetch_aircraft` builds for the OpenSky query.
  - The airport-to-area selection and the filter-map `transform` loop of the parameterized ETL flow.
- **The Prefect agent** (`src/prefect/agent/agent.py`).
  - The back-off index of the polling loop.
  - The "already submitting" dedup of `query_flow_runs`.
  - The `submitting_flow_runs` bookkeeping.
  - The token and tenant checks.
  - The Submitted-state updates.
  - The rule deciding which deployment errors mark a flow run Failed.
- **The make-style CLI** (`src/prefect/runtimes/make_cli.py`).
  - Task registration, with one default task and implied ordering.
  - The selection of tasks to run.
  - The cycle-safe dependency traversal that builds the flow.
  - `get_parameters`.

Each source file is one module:

| module | file |
|---|---|
| `Wrappers` | `Option`, `Result` and `Outcome` (an error or success with no value) |
| `Builtins` | Python truthiness, `min`/`max` and `set(...)` of a sequence |
| `StateVectors` | the OpenSky state vector: positions of its 17 fields |
| `AircraftDatabase` | `database.py` |
| `AircraftAnalysis` | `analysis.py` |
| `AircraftPosition` | `position.py` |
| `OpenSky` | `opensky.py` |
| `ParameterizedEtlFlow` | `03_parameterized_etl_flow.py` |
| `PrefectAgent` | `agent.py` |
| `MakeCli` | `make_cli.py` |

Python exceptions are modelled as `Err`/`Fail` values that carry the exception's message or key. Code that updates objects in place becomes classes:
- `Database` holds the rows;
- `Agent` holds the submitting set;
- `MakeCLI` holds the registry and the flow.

Those classes have methods with `modifies` clauses, and the loops keep their invariants. Each method is proved against a specification function, for example `Merged`, `TransformSpec`, `TaskRunCalls` and `ReachableFrom`. The lemmas about those functions state the promised properties.

Names that the shown files use but do not define become parameters:
- `AIRCRAFT_VECTOR_FIELDS` is the `fields` argument of `CleanVector` and `Transform`.
- `ref_data.airports` is the `airports` map of `ExtractArea`.
- The GraphQL results are the `queue`, `metadata`, `tenants` and `scope` arguments of the agent members.
- The earth radius and the parallel radius are the positive `radius` and `parallelRadius` arguments of `SurroundingArea`.

## Model

| member | source | states |
|---|---|---|
| AircraftDatabase.DropSensors | examples/tutorial/aircraftlib/database.py:62-63 | The copy loses exactly positional field 12. Values before it keep their index, and values after it move down by one. |
| AircraftDatabase.Assignment | examples/tutorial/aircraftlib/database.py:64-66 | `zip` onto the 16 columns assigns min(16, len-1) values. Column c gets raw value c for c < 12 and raw value c+1 otherwise. At least the first 12 columns are always set. |
| AircraftDatabase.EntryKey | examples/tutorial/aircraftlib/database.py:34-38 | A row's primary key is (raw[0], raw[4]), that is (icao, last_contact). |
| AircraftDatabase.Apply | examples/tutorial/aircraftlib/database.py:64-68 | `session.merge` sets the assigned columns. The other columns keep their stored value on an update and are null on an insert. |
| AircraftDatabase.MergedCell | examples/tutorial/aircraftlib/database.py:61-68 | After the batch, a key is present iff it was stored before or occurs in the batch. Each cell holds the value of the last entry with that key that assigned the column, else the old value, else null. |
| AircraftDatabase.LastWriteWins | examples/tutorial/aircraftlib/database.py:61-68 | The stored row of the last batch entry with a given key equals that entry's assignment. For a full 17-field entry it is the whole row. |
| AircraftDatabase.MergeLeavesOtherKeys | examples/tutorial/aircraftlib/database.py:61-68 | Rows whose key does not occur in the batch are unchanged, and no such row is added or removed. |
| AircraftDatabase.MergeIdempotent | examples/tutorial/aircraftlib/database.py:61-72 | Merging the same batch twice gives the same store as merging it once. |
| AircraftDatabase.Database.constructor | examples/tutorial/aircraftlib/database.py:53-58 | A new database satisfies the store invariant and holds no rows. |
| AircraftDatabase.Database.AddAircraftVectors | examples/tutorial/aircraftlib/database.py:60-72 | When every entry has at least 13 fields, the rows become the merge of the batch into the old rows. Otherwise `pop(12)` raises at the first short entry, the result names that index, and nothing is committed. |
| AircraftAnalysis.ZipLookup | examples/tutorial/aircraftlib/analysis.py:22 | `dict(zip(names, values))` holds a key iff it occurs among the first min(len) names. Its value is the one at the key's last occurrence. |
| AircraftAnalysis.Project | examples/tutorial/aircraftlib/analysis.py:28 | The comprehension succeeds iff every key is in the dict, and yields the keys' values in order. Otherwise it raises KeyError for the first missing key. |
| AircraftAnalysis.CleanVector | examples/tutorial/aircraftlib/analysis.py:19-28 | `clean_vector` returns None iff longitude and latitude are both present among the zipped names and the value at one of their positions is null. |
| AircraftAnalysis.CleanVectorProjects | examples/tutorial/aircraftlib/analysis.py:3-28 | An accepted vector has exactly 12 values. Value k is the raw value at the position of the k-th field of interest. |
| AircraftAnalysis.CleanVectorFails | examples/tutorial/aircraftlib/analysis.py:22-28 | A KeyError names a field of interest that the zipped dict lacks, and it is the first one evaluated: longitude, then latitude, then the first missing field of interest in order. |
| AircraftAnalysis.RejectionIgnoresOtherFields | examples/tutorial/aircraftlib/analysis.py:24-26 | Changing any field other than longitude or latitude, to null or any other value, never changes whether the vector is rejected. |
| AircraftPosition.Validate | examples/tutorial/aircraftlib/position.py:16-21 | Passes iff -90 ≤ lat ≤ 90 and -180 ≤ long ≤ 180, with inclusive bounds. A bad latitude is reported first; the longitude error is raised iff the latitude is good and the longitude is not. |
| AircraftPosition.ValidateArea | examples/tutorial/aircraftlib/position.py:32-38 | Passes iff both points pass. A failing point1 is the error reported; when point1 passes, the result is point2's own validation result. |
| AircraftPosition.BoundingBox | examples/tutorial/aircraftlib/position.py:40-50 | min ≤ max on both axes. Both points lie in the box, and every bound is one of the points' coordinates. |
| AircraftPosition.BoundingBoxUnique | examples/tutorial/aircraftlib/position.py:48-50 | The box with those properties is unique, so swapping point1 and point2 gives the same box. |
| AircraftPosition.Deg2Rad | examples/tutorial/aircraftlib/position.py:54-55 | Converting to radians and back gives the degrees again, and the sign is kept. |
| AircraftPosition.Rad2Deg | examples/tutorial/aircraftlib/position.py:59-60 | The sign is kept, and only zero radians give zero degrees. |
| AircraftPosition.HalfSideMetres | examples/tutorial/aircraftlib/position.py:78 | Kilometres to metres: dividing by 1000 gives the half side back, and the sign is kept. |
| AircraftPosition.SurroundingArea | examples/tutorial/aircraftlib/position.py:75-93 | The window is symmetric about the centre. Its half extent in latitude is the half side in metres over the earth's radius, and in longitude over the parallel's radius, both in degrees. |
| AircraftPosition.SurroundingAreaWindow | examples/tutorial/aircraftlib/position.py:85-93 | For a non-negative half side the centre lies in the window, and point1 and point2 are its minimum and maximum corners. |
| OpenSky.FetchAircraft | examples/tutorial/aircraftlib/opensky.py:20-34 | No area gives empty options and no validation. A non-Area value raises "Bad area given". An invalid Area raises its validation error before any option is set. A valid Area gives exactly lamin/lamax/lomin/lomax equal to its bounding box, which is ordered and within range. |
| ParameterizedEtlFlow.ExtractArea | examples/tutorial/03_parameterized_etl_flow.py:21-34 | A falsy airport gives no area, so the fetch is unfiltered. An unknown airport raises KeyError before the fetch. A known one gives exactly `SurroundingArea` of the position the airport's record holds, with the given radius as half side; that window contains the centre for a non-negative radius. |
| ParameterizedEtlFlow.Transform | examples/tutorial/03_parameterized_etl_flow.py:37-48 | The loop returns the kept vectors of `TransformSpec`. `add_airline_info` is called exactly on those vectors, in input order. A raising `clean_vector` ends the loop with its error. |
| ParameterizedEtlFlow.TransformEmpty | examples/tutorial/03_parameterized_etl_flow.py:41-48 | An empty `states` list yields an empty output. |
| ParameterizedEtlFlow.TransformLength | examples/tutorial/03_parameterized_etl_flow.py:42-46 | Output length is input length minus the number of rejected vectors. |
| ParameterizedEtlFlow.TransformConcat | examples/tutorial/03_parameterized_etl_flow.py:41-46 | The output of a concatenation is the concatenated outputs, so input order is preserved. |
| ParameterizedEtlFlow.TransformKeeps | examples/tutorial/03_parameterized_etl_flow.py:43-46 | Every vector that `clean_vector` accepts appears in the output. |
| ParameterizedEtlFlow.TransformSound | examples/tutorial/03_parameterized_etl_flow.py:43-46 | Every output vector is the cleaned form of some input vector. |
| ParameterizedEtlFlow.StopsAtFailure | examples/tutorial/03_parameterized_etl_flow.py:42-43 | Once `clean_vector` raises, later vectors do not change the result. |
| PrefectAgent.Agent.constructor | src/prefect/agent/agent.py:74-99 | A new agent has the given name and an empty `submitting_flow_runs` set. |
| PrefectAgent.VerifyToken | src/prefect/agent/agent.py:101-118 | Passes iff the token is non-empty and the scope is "RUNNER". An empty token and a wrong or missing scope raise AuthorizationError with the source's messages. |
| PrefectAgent.QueryTenantId | src/prefect/agent/agent.py:299-312 | Returns a tenant id iff the query returned any tenant, and then the first one's id. |
| PrefectAgent.AgentConnect | src/prefect/agent/agent.py:171-198 | Returns the first tenant id iff there is one and it is non-empty. Otherwise it raises ConnectionError with the source's message. |
| PrefectAgent.PollLoop | src/prefect/agent/agent.py:129-160 | The back-off index stays in 0..6. After any sequence of polls it is min(number of trailing empty polls, 6). Every wait is loop_intervals of that index and lies in 0.25..10. |
| PrefectAgent.TargetIds | src/prefect/agent/agent.py:351-359 | The target ids are a subset of the found ids and disjoint from the snapshot. Together with the already-submitting ids they give back all the found ids. |
| PrefectAgent.Agent.QueryFlowRuns | src/prefect/agent/agent.py:314-419 | The queue result minus the snapshot of submitting runs gives the targets. With no targets the result is [] and no metadata query is issued. Otherwise the metadata query asks for exactly the (non-empty) targets. A raising query is an error. |
| PrefectAgent.Agent.AgentProcess | src/prefect/agent/agent.py:263-297 | Every returned run's id is added to `submitting_flow_runs` and nothing else changes. The result is true iff runs were returned. A failing query submits nothing and gives false. |
| PrefectAgent.Agent.OnFlowRunDeployAttempt | src/prefect/agent/agent.py:248-261 | Removes exactly that run's id. A missing id raises KeyError and leaves the set unchanged. |
| PrefectAgent.PollTwice | src/prefect/agent/agent.py:326-359 | `agent_process` followed by `query_flow_runs` on the same agent: the second query's metadata ids contain no run the first poll submitted, nor any run submitting before it. |
| PrefectAgent.UpdateState | src/prefect/agent/agent.py:421-466 | The flow run gets a Submitted("Submitted for execution") call iff it is scheduled. The task runs then follow, `TaskRunCalls` of them, in order. |
| PrefectAgent.TaskRunCallsExact | src/prefect/agent/agent.py:450-466 | One Submitted("Submitted for execution.") call per scheduled task run, with its id and version. No call for any other task run. |
| PrefectAgent.Contains | src/prefect/agent/agent.py:227 | Python's `in` on strings: true iff the pattern occurs at some position. |
| PrefectAgent.DeployAndUpdateFlowRun | src/prefect/agent/agent.py:200-246 | The flow run is marked Failed iff the deployment raised and the error message does not contain "State update failed". In that case the last call is the Failed state update, and before it comes only the ERROR run log with the error message, written iff the run has a non-empty id. On success the only call is the INFO run log "Submitted for execution: " plus the deployment info, again iff the id is non-empty. An error containing that text adds no call after those `update_state` and `deploy_flow` made before it raised. |
| MakeCli.MakeCLI.constructor | src/prefect/runtimes/make_cli.py:107-118 | A new CLI has an empty flow, no dependencies, no tasks, an empty task order, no default, and the given implied-order flag. |
| MakeCli.MakeCLI.Task | src/prefect/runtimes/make_cli.py:120-142 | A second truthy default raises "There can only be one default task" and changes nothing. Otherwise one fresh task is registered. Its dependencies are the given list, or [] for a non-list, plus the previous name under implied order (nothing for the first task). `tasks[name]` is overwritten and the name is appended to `task_order`. |
| MakeCli.KeyOrder | src/prefect/runtimes/make_cli.py:194 | `tasks.items()` visits every registered name exactly once. |
| MakeCli.KeyOrderKeepsFirst | src/prefect/runtimes/make_cli.py:139-140 | Re-registering a name keeps its first place in dict order. |
| MakeCli.SelectTasks | src/prefect/runtimes/make_cli.py:184-188 | The given names when there are any, else just the default task, else every registered name. |
| MakeCli.StartTasks | src/prefect/runtimes/make_cli.py:194-200 | Exactly the registered tasks whose names were selected: each selected registered name contributes its task, and nothing else is included. |
| MakeCli.ResolveNames | src/prefect/runtimes/make_cli.py:211 | The dependency names resolve iff all are registered. The result is the tasks in order; otherwise KeyError for the first unregistered name. |
| MakeCli.Visit | src/prefect/runtimes/make_cli.py:200-215 | From one selected task, the traversal always terminates, cycles included. With all reachable names registered it adds exactly the reachable tasks and an edge from each dependency into each expanded task, and each task is expanded at most once. Otherwise it raises KeyError for an unregistered dependency name of a reachable task, having added only part of that. |
| MakeCli.MakeCLI.Run | src/prefect/runtimes/make_cli.py:181-215 | Tasks are selected from the given names, else the default, else all registered names; unregistered requested names are ignored. The run succeeds iff every reachable expanded task's dependency names are registered. On success the flow gains exactly the reachable tasks and their dependency edges. |
| MakeCli.NoDependenciesReachesOnlyStarts | src/prefect/runtimes/make_cli.py:207-215 | With `--no-dependencies` exactly the selected registered tasks are reached and no edge is set. |
| MakeCli.GetParameters | src/prefect/runtimes/make_cli.py:157-167 | One parameter per argument, defaulted ones first. Default i goes with args[n-1-i] because arguments are popped from the end. The remaining arguments follow in their original order. |
| MakeCli.MisalignedDefaults | src/prefect/runtimes/make_cli.py:161-165 | For `def f(a, b=1, c=2)` the code gives c the default 1, while Python binds c to 2. |
| MakeCli.GetParametersAligned | src/prefect/runtimes/make_cli.py:157-167 | With the defaults taken in reverse, the parameters are exactly one per argument, each carrying the default Python binds to it. |

## Left out

- The HTTP request to OpenSky (`_api_request_json`) and its timeout: `FetchAircraft` returns the options map it would send.
- The SQLAlchemy engine, session and sqlite file: the store is a map owned by `Database`. Column type coercion by the ORM is not modelled, and neither is the engine's handling of a null primary-key value (nulls are compared as ordinary values).
- `AircraftDatabase.Database.AddAircraftVectors`: the uncommitted session state is not modelled, only the rows after the call. The session autoflushes on `merge` and the method never rolls back, so the entries of a failed batch merged before the short one stay pending and the next successful call on the same `Database` commits them too; the model leaves the rows unchanged on failure and does not carry those pending entries over.
- `AircraftDatabase.Database.constructor`: `Database()` opens a persistent sqlite file that may already hold rows; the model starts from an empty store.
- The WGS 84 numerics (`wgs84_earth_radius`, `cos`, `sqrt`): the two radii are positive parameters; `Deg2Rad`/`Rad2Deg` use the literal value of `math.pi`. Floating-point rounding is not modelled; arithmetic is on reals.
- `add_airline_info`: its effect on each vector is not modelled; `Transform` returns which vectors it is called on.
- `ParameterizedEtlFlow.ExtractArea`: `AirportRecord` holds the coordinates already converted to reals, so the KeyError of a record without "latitude" or "longitude" and the ValueError of a `float(...)` conversion that fails are not modelled.
- The `states` key of the OpenSky response: `Transform` takes the list of raw vectors itself.
- Field naming: `clean_vector` looks up "icao", which the unshown `AIRCRAFT_VECTOR_FIELDS` may or may not contain; the fields list is a parameter, and a missing name is the KeyError path.
- The reference-data refresh and the other tutorial scripts, which repeat the modelled transform loop around Prefect flow wiring and prints.
- In the agent: signal handling, the thread pool and its futures (each method is atomic), the real GraphQL client, the clock, logging, the banner, `heartbeat`, `deploy_flow`, the `logger.error` call of `mark_failed` (its Failed state update is modelled) and the constructor's configuration.
- `PrefectAgent.UpdateState`: the `Submitted` states do not carry the previous state that the source passes as `state=` (the deserialised `serialized_state`); only the message is modelled.
- `PrefectAgent.UpdateState`: every client call is taken to return. In the source a raising `set_flow_run_state` ends `update_state` before any task-run call, and that is the "State update failed" case `deploy_and_update_flow_run` catches; the model does not state which calls were made before such a raise.
- `PrefectAgent.Agent.constructor`: the source's constructor calls `_verify_token` on the configured token, so an agent without a valid RUNNER token is never built; the model's constructor does not call `VerifyToken`, which is a separate member. The name is taken as given, without the fallback to the configured agent name for an empty one.
- `PrefectAgent.PollTwice`: it holds only while no deployment of the first poll completes before the second query, because `on_flow_run_deploy_attempt` runs on the executor's threads, which are not modelled.
- `PrefectAgent.PollLoop`: the exit event is modelled by the finite list of poll results; the queries themselves are inputs.
- `flow_cli.py`: directory creation, cloudpickle files, subprocess launch and a polling loop with sleep.
- In the make CLI: click wiring, `atexit`, `FunctionTask` construction and `flow.run`. Cycle detection by the Prefect flow is not modelled; the flow is the set of added tasks and edges.
- `MakeCli.MakeCLI.Task`: with implied order the source appends the previous name to the caller's own `depends` list, which the caller then sees changed; this aliasing is not modelled.
- `MakeCli.MakeCLI.Run`: after a KeyError the flow holds part of the reachable tasks and edges; the contract states only bounds for that part.
- `MakeCli.GetParameters`: `inspect.getfullargspec` never reports more defaults than positional arguments, so that case is a precondition instead of an IndexError path. Keyword-only arguments are not modelled.

## Findings

| source | as written | input that shows it | evidently intended | confidence | as-written member | corrected member |
|---|---|---|---|---|---|---|
| src/prefect/runtimes/make_cli.py:161-165 | defaults are iterated first to last while arguments are popped from the end, so default i is attached to args[n-1-i] | `def f(a, b=1, c=2)`: c gets default 1 and b gets 2 | Python's binding: the defaults belong to the last arguments in order, so b=1 and c=2 | high for two or more defaults (not executed; the function is only referenced in a comment) | MakeCli.MisalignedDefaults | MakeCli.GetParametersAligned |
