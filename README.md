# Docker service exporter: the collection tick

This project models the core of a Prometheus exporter for Docker Swarm services.
The core is one refresh tick (`collect_services`). It opens a Docker client and lists the services.
Opening the client can itself raise; the error then propagates with both gauges untouched.
It clears the two gauges `docker_service_instances` and `docker_service_running_tasks`.
Then, for each service in turn, it derives a normalized record from the service's attribute dictionary and queries that service's tasks.
It counts the tasks in state `"running"` and writes one sample to each gauge under the label tuple
`(service_id, service_name, image, docker_hostname)`.
The client is closed on every path.

Layout:

- `Wrappers.dfy`: `Option` (a dictionary key that may be missing; `GetOr` is `dict.get(key, default)`) and `Result` (a call that may raise).
- `Docker.dfy`: the attribute dictionaries of a service and a task, with one `Option` per key that is read.
  It also holds the two kinds of error a backend call can raise, the backend's answers for one tick (`Backend`: whether connecting succeeds, and the service listing), `Connect`, and the `Client` class.
  `Client` has a `closed` flag and records the filter of every task query.
- `Metrics.dfy`: the label tuple and the `Gauge` class. A gauge's samples are a `map<Labels, int>` that `Clear` and `Set` reassign.
  `Replay` gives the samples of a cleared gauge after a sequence of `set` calls.
- `Collector.dfy`: field derivation and the running count as functions. `Tick` says what one tick leaves behind as a function of the gauges before it and the backend's answers.
  `Collect` is the imperative tick: a loop over the services against the two gauge objects, proved to end in exactly the state `Tick` describes.
- `CollectorProperties.dfy`: lemmas about `Tick` and the derivation functions. They cover default substitution, the replica rule, the exact-match count, replace-not-merge publication, the state left after each kind of failure, idempotence, and two worked scenarios.

The Docker daemon is not called. Its answers (the connection, the service list, and each service's task list) are inputs, each a `Result` that is either a value or a raised error.
`DOCKER_HOSTNAME` is a string parameter.

Two choices of the code, which the model follows:

- Both gauges are cleared right after the service list arrives, before any task query, and refilled one service at a time.
  Swapping in the new samples only once every record is gathered would hide partial gauges from scrapers; the code does not do that.
  As a result, a scrape during a tick can see partly filled gauges.
  A task query that fails part way leaves the gauges holding only the services processed before it (`TaskFailureKeepsProcessedPrefix`).
- A failed task query is not isolated to its service: its error ends the whole tick.

## Model

| member | source | states |
|---|---|---|
| `Docker.Connect` | src/service_notifier.py:40 | `docker.DockerClient()` raises exactly when the backend's connection answer is an error, and then raises that error; otherwise it returns a new open client that has sent no task query |
| `Docker.Client.constructor` | src/service_notifier.py:40 | a new client is open, has sent no task query, and answers from the given backend |
| `Docker.Client.ListServices` | src/service_notifier.py:42 | `services.list()` may only be called on an open client and returns the backend's listing answer, value or error |
| `Docker.Client.Tasks` | src/service_notifier.py:55 | a task query on an open client returns that service's answer and records its `service` filter; the client stays open |
| `Docker.Client.Close` | src/service_notifier.py:71-72 | closing marks the client closed and sends nothing more |
| `Metrics.Gauge.constructor` | src/service_notifier.py:21-26 | a gauge is created with its name and help text and holds no sample |
| `Metrics.Gauge.Clear` | src/service_notifier.py:43-44 | `clear()` removes every sample, whatever its labels |
| `Metrics.Gauge.Set` | src/service_notifier.py:58-70 | `labels(...).set(v)` inserts or overwrites the one sample under that label tuple and leaves all others |
| `Metrics.Replay` | src/service_notifier.py:43-70 | the samples of a gauge that was cleared and then given a sequence of sets, in order; specified by `Metrics.ReplayKeys` and `Metrics.ReplayLastWriteWins` |
| `Metrics.ReplayKeys` | src/service_notifier.py:43-70 | after a clear and a run of sets, a gauge has a sample for exactly the label tuples that were written |
| `Metrics.ReplayLastWriteWins` | src/service_notifier.py:58-70 | the sample under a label tuple holds the value of the last set to that tuple |
| `Collector.CreateGauges` | src/service_notifier.py:21-26 | the two gauges are distinct new objects, named `docker_service_instances` and `docker_service_running_tasks`, and empty |
| `Collector.ServiceId` | src/service_notifier.py:48 | `details.get('ID', '')`; its defaults are stated by `CollectorProperties.FieldDefaults` |
| `Collector.ServiceName` | src/service_notifier.py:49-50 | `Spec.Name` with `{}` and `'unknown'` fallbacks; stated by `CollectorProperties.FieldDefaults` |
| `Collector.Image` | src/service_notifier.py:49-51 | `Spec.TaskTemplate.ContainerSpec.Image` with `{}` fallbacks and `'unknown'`; stated by `CollectorProperties.FieldDefaults` |
| `Collector.DesiredReplicas` | src/service_notifier.py:52-53 | the replica rule over `Spec.Mode`; stated case by case by `CollectorProperties.DesiredReplicasRule` |
| `Collector.IsRunning` | src/service_notifier.py:56 | the per-task test `Status.State == 'running'`; stated by `CollectorProperties.RunningIsExactMatch` |
| `Collector.RunningCount` | src/service_notifier.py:56 | the running count never exceeds the number of tasks |
| `Collector.FirstFailure` | src/service_notifier.py:46-55 | the loop reaches index k: every earlier task query answered, and the one at k (if any) raised |
| `Collector.Tick` | src/service_notifier.py:39-72 | one tick as a function of the gauges before it and the backend's answers: outcome, gauges left behind and task queries sent; specified by the tick lemmas of `CollectorProperties` |
| `Collector.Collect` | src/service_notifier.py:39-72 | the tick returns the outcome of `Tick` and leaves both gauges in the state `Tick` gives for the old gauges. It has no client exactly when connecting raised; otherwise it sends the task queries `Tick` lists and closes the client on every path |
| `CollectorProperties.FieldDefaults` | src/service_notifier.py:48-51 | the id is `''` when `ID` is absent; the name is `'unknown'` when Spec or Name is absent; the image is `'unknown'` when any of Spec, TaskTemplate, ContainerSpec or Image is absent; otherwise each is the stored value |
| `CollectorProperties.DesiredReplicasRule` | src/service_notifier.py:52-53 | desired replicas are `Replicas` when Mode has a `Replicated` key with `Replicas`, 0 when `Replicated` has no `Replicas`, and 1 when `Replicated` is absent, including when Mode or Spec is missing |
| `CollectorProperties.RunningCountIsCardinality` | src/service_notifier.py:56 | the running count equals the number of positions whose task has state exactly "running" |
| `CollectorProperties.RunningIsExactMatch` | src/service_notifier.py:56 | a task counts exactly when its Status has State "running"; "Running", a missing State and a missing Status do not count |
| `CollectorProperties.PublishedKeys` | src/service_notifier.py:58-70 | writing a list of services gives both gauges the same key set, the label tuples of those services |
| `CollectorProperties.PublishedValues` | src/service_notifier.py:58-70 | under each service's label tuple the instances gauge holds its desired replicas and the running gauge its running count, unless a later service shares that tuple |
| `CollectorProperties.ConnectionFailureKeepsRegistry` | src/service_notifier.py:40-42 | when `docker.DockerClient()` raises, the tick raises that error, both gauges are exactly as before, and no query is sent |
| `CollectorProperties.ListingFailureKeepsRegistry` | src/service_notifier.py:42-44 | when the client connects but `services.list()` raises, the tick raises that error, both gauges are exactly as before, and no task query is sent |
| `CollectorProperties.CompletesIffAllQueriesAnswer` | src/service_notifier.py:46-56 | a tick completes if and only if the connection, the listing and every task query answer, so missing attributes never abort it |
| `CollectorProperties.CompletedTickPublishesListing` | src/service_notifier.py:43-70 | after a completed tick each gauge's key set is exactly the label tuples of the listed services, so no earlier sample survives |
| `CollectorProperties.CompletedTickValues` | src/service_notifier.py:46-70 | after a completed tick each label tuple holds the desired and running values of the last listed service with that tuple |
| `CollectorProperties.TaskFailureKeepsProcessedPrefix` | src/service_notifier.py:43-70 | when service k's task query is the first to fail, the tick raises that error. Both gauges then equal a complete tick over the services before k and share its key set, and the queries sent are those up to and including k |
| `CollectorProperties.GaugesShareKeys` | src/service_notifier.py:58-70 | after any tick the two gauges have the same key set (on a failed connection or listing, given that they had it before) |
| `CollectorProperties.TickIgnoresPreviousSamples` | src/service_notifier.py:43-44 | once the client connects and the listing answers, the tick's result does not depend on the samples the gauges held before |
| `CollectorProperties.TickIdempotent` | src/service_notifier.py:39-72 | a second tick against unchanged backend answers gives the same outcome, gauges and queries as the first |
| `CollectorProperties.TwoServiceScenario` | src/service_notifier.py:46-70 | service A (replicated, 3 replicas, 2 of 3 tasks running) and B (global, 1 running) publish exactly A: 3/2 and B: 1/1 |
| `CollectorProperties.EmptyListingClearsRegistry` | src/service_notifier.py:42-46 | a tick whose listing is empty completes with both gauges empty, whatever they held |

## Left out

- Signal handling and `exit(0)` (src/service_notifier.py:13-18): process control, not collection logic.
- `print_timed` and its wall-clock timestamp (src/service_notifier.py:32-37): a logging sink.
- Reading `PROMETHEUS_EXPORT_PORT`, `DOCKER_HOSTNAME` and `POLL_INTERVAL` from the environment (src/service_notifier.py:28-30): `DOCKER_HOSTNAME` is a parameter, and the others do not affect a tick.
- `start_http_server` and the exposition format (src/service_notifier.py:76). Scrapes run concurrently with a tick, so a scrape can observe the gauges between a clear and the last set. The model is sequential and does not represent what a concurrent reader sees.
- The forever loop with `sleep(POLL_INTERVAL)` (src/service_notifier.py:77-84). That loop swallows `docker.errors.APIError` and lets every other exception end the process. The model keeps the two kinds apart in `Fault`, and `Collect` passes either on unchanged, but the loop itself is not modelled.
- The Docker SDK internals. How the daemon applies the `service` filter is not modelled: each listed service carries the answer its task query receives.
- Attribute values of an unexpected type (for example `Spec` present but `null`, or a non-string name). In the source these raise `AttributeError` or end up as stringified labels. The model gives every key a typed value that is either present or absent.
- Gauge values are integers: `Gauge.set` stores a float, and the conversion is not modelled. Replica counts are non-negative (`nat`), as Docker reports them.
