/** One refresh tick of the exporter (`collect_services`): list the services, derive a
    record for each, count its running tasks, and rewrite both gauges. */
module Collector {
  import opened Wrappers
  import opened Docker
  import opened Metrics

  const InstancesMetricName := "docker_service_instances"
  const RunningTasksMetricName := "docker_service_running_tasks"

  /** The normalized record of one service in one tick. */
  datatype ServiceRecord = ServiceRecord(
    serviceId: string,
    serviceName: string,
    image: string,
    desiredReplicas: nat,
    runningTasks: nat)

  /** How a tick ends: normally, or with the error the backend raised. */
  datatype Outcome = Completed | Raised(fault: Fault)

  /** The contents of the two gauges. */
  datatype Registry = Registry(instances: map<Labels, int>, runningTasks: map<Labels, int>)

  /** Everything one tick determines: its outcome, the gauges it leaves behind, and the
      filters of the task queries it sent. */
  datatype TickResult = TickResult(outcome: Outcome, registry: Registry, taskQueries: seq<string>)

  /** The two gauges, as created when the exporter starts. */
  method CreateGauges() returns (instances: Gauge, runningTasks: Gauge)
    ensures fresh(instances) && fresh(runningTasks)
    ensures instances.name == InstancesMetricName && runningTasks.name == RunningTasksMetricName
    ensures instances.samples == map[] && runningTasks.samples == map[]
  {
    instances := new Gauge(InstancesMetricName, "Number of desired replicas for a service");
    runningTasks := new Gauge(RunningTasksMetricName, "Number of running tasks for a service");
  }

  // ---- Field derivation --------------------------------------------------------------

  function ServiceId(a: ServiceAttrs): string
  {
    a.id.GetOr("")
  }

  function ServiceName(a: ServiceAttrs): string
  {
    a.spec.GetOr(NoSpec).name.GetOr("unknown")
  }

  function Image(a: ServiceAttrs): string
  {
    a.spec.GetOr(NoSpec).taskTemplate.GetOr(NoTaskTemplate)
      .containerSpec.GetOr(NoContainerSpec).image.GetOr("unknown")
  }

  /** `Replicated.Replicas` (0 if absent) when `Mode` has a `Replicated` key, else 1. */
  function DesiredReplicas(a: ServiceAttrs): nat
  {
    var mode := a.spec.GetOr(NoSpec).mode.GetOr(NoMode);
    if mode.replicated.Some? then mode.replicated.value.replicas.GetOr(0) else 1
  }

  /** The label tuple a service's samples are written under. */
  function ServiceLabels(a: ServiceAttrs, hostname: string): Labels
  {
    Labels(ServiceId(a), ServiceName(a), Image(a), hostname)
  }

  // ---- Running-task count ------------------------------------------------------------

  /** `task.get('Status', {}).get('State') == 'running'`. */
  predicate IsRunning(t: Task)
  {
    t.status.GetOr(NoStatus).state == Some("running")
  }

  /** The number of tasks whose state is exactly "running". */
  function RunningCount(tasks: seq<Task>): (n: nat)
    ensures n <= |tasks|
  {
    if tasks == [] then 0
    else RunningCount(tasks[..|tasks| - 1]) + (if IsRunning(tasks[|tasks| - 1]) then 1 else 0)
  }

  function Record(a: ServiceAttrs, tasks: seq<Task>): ServiceRecord
  {
    ServiceRecord(ServiceId(a), ServiceName(a), Image(a), DesiredReplicas(a), RunningCount(tasks))
  }

  function RecordLabels(r: ServiceRecord, hostname: string): Labels
  {
    Labels(r.serviceId, r.serviceName, r.image, hostname)
  }

  // ---- One tick, as a function of the backend's answers ----------------------------

  /** The index of the first service whose task query fails, or the number of services. */
  function FirstFailure(services: seq<Service>): (k: nat)
    ensures k <= |services|
    ensures forall j | 0 <= j < k :: services[j].tasks.Ok?
    ensures k < |services| ==> services[k].tasks.Err?
  {
    if services == [] || services[0].tasks.Err? then 0
    else 1 + FirstFailure(services[1..])
  }

  predicate TasksAnswered(services: seq<Service>)
  {
    forall j | 0 <= j < |services| :: services[j].tasks.Ok?
  }

  function Records(services: seq<Service>): seq<ServiceRecord>
    requires TasksAnswered(services)
  {
    seq(|services|, j requires 0 <= j < |services| => Record(services[j].attrs, services[j].tasks.value))
  }

  datatype Metric = Instances | RunningTasks

  function Value(r: ServiceRecord, metric: Metric): int
  {
    match metric
    case Instances => r.desiredReplicas
    case RunningTasks => r.runningTasks
  }

  /** The `set` calls one gauge receives for `records`, in order. */
  function Writes(records: seq<ServiceRecord>, hostname: string, metric: Metric): seq<Write>
  {
    seq(|records|, j requires 0 <= j < |records| => Write(RecordLabels(records[j], hostname), Value(records[j], metric)))
  }

  /** The gauges after clearing them and writing `records`. */
  function Published(records: seq<ServiceRecord>, hostname: string): Registry
  {
    Registry(Replay(Writes(records, hostname, Instances)), Replay(Writes(records, hostname, RunningTasks)))
  }

  /** The filters of the task queries sent for `services`, in order. */
  function QueriedIds(services: seq<Service>): seq<string>
  {
    seq(|services|, j requires 0 <= j < |services| => ServiceId(services[j].attrs))
  }

  /** One tick from the gauges `before`: a failed connection or listing changes nothing; otherwise the
      gauges are cleared and refilled from the services up to the first failing task query,
      whose error then ends the tick. */
  function Tick(before: Registry, hostname: string, backend: Backend): TickResult
  {
    if backend.connection.Err? then TickResult(Raised(backend.connection.error), before, [])
    else match backend.listing
    case Err(f) => TickResult(Raised(f), before, [])
    case Ok(services) =>
      var k := FirstFailure(services);
      var registry := Published(Records(services[..k]), hostname);
      if k == |services| then TickResult(Completed, registry, QueriedIds(services))
      else TickResult(Raised(services[k].tasks.error), registry, QueriedIds(services[..k + 1]))
  }

  // ---- The tick itself ---------------------------------------------------------------

  /** `collect_services`: opens a client, runs one tick against the two gauges, and closes
      the client on every path once it exists (`client` is null when connecting raised). */
  method Collect(instances: Gauge, runningTasks: Gauge, hostname: string, backend: Backend)
    returns (outcome: Outcome, client: Client?)
    requires instances != runningTasks
    modifies instances, runningTasks
    ensures client == null <==> backend.connection.Err?
    ensures client != null ==> fresh(client) && client.backend == backend && client.closed
    ensures var t := Tick(Registry(old(instances.samples), old(runningTasks.samples)), hostname, backend);
            && outcome == t.outcome
            && Registry(instances.samples, runningTasks.samples) == t.registry
            && (client != null ==> client.taskQueries == t.taskQueries)
  {
    var connected := Connect(backend);
    if connected.Err? {
      return Raised(connected.error), null;
    }
    client := connected.value;
    var listing := client.ListServices();
    if listing.Err? {
      client.Close();
      return Raised(listing.error), client;
    }
    var services := listing.value;
    instances.Clear();
    runningTasks.Clear();
    outcome := Completed;
    var i := 0;
    while i < |services|
      invariant i <= |services|
      invariant client.backend == backend && !client.closed
      invariant TasksAnswered(services[..i])
      invariant Registry(instances.samples, runningTasks.samples) == Published(Records(services[..i]), hostname)
      invariant outcome == Completed && client.taskQueries == QueriedIds(services[..i])
    {
      var service := services[i];
      var details := service.attrs;
      var serviceId := ServiceId(details);
      var serviceName := ServiceName(details);
      var image := Image(details);
      var replicas := DesiredReplicas(details);

      var tasks := client.Tasks(service, serviceId);
      assert QueriedIds(services[..i + 1]) == QueriedIds(services[..i]) + [serviceId];
      if tasks.Err? {
        outcome := Raised(tasks.error);
        break;
      }
      var running := RunningCount(tasks.value);

      ghost var done := Records(services[..i]);
      ghost var record := Record(details, tasks.value);
      assert services[..i + 1] == services[..i] + [service];
      assert Records(services[..i + 1]) == done + [record];
      var labels := Labels(serviceId, serviceName, image, hostname);
      assert Writes(done + [record], hostname, Instances) == Writes(done, hostname, Instances) + [Write(labels, replicas)];
      assert Writes(done + [record], hostname, RunningTasks) == Writes(done, hostname, RunningTasks) + [Write(labels, running)];
      ReplayAppend(Writes(done, hostname, Instances), Write(labels, replicas));
      ReplayAppend(Writes(done, hostname, RunningTasks), Write(labels, running));

      instances.Set(labels, replicas);
      runningTasks.Set(labels, running);
      i := i + 1;
    }
    client.Close();
    assert i < |services| ==> FirstFailure(services) == i;
    assert i == |services| ==> services[..i] == services;
  }
}
