/** What one tick promises: default substitution, the replica rule, the exact running
    count, replace-not-merge publication, and the state left behind by each failure. */
module CollectorProperties {
  import opened Wrappers
  import opened Docker
  import opened Metrics
  import opened Collector

  // ---- Field derivation --------------------------------------------------------------

  /** Missing keys take their defaults: `''` for the id, "unknown" for name and image
      (when any link of Spec/TaskTemplate/ContainerSpec/Image is absent). */
  lemma FieldDefaults(a: ServiceAttrs)
    ensures ServiceId(a) == if a.id.Some? then a.id.value else ""
    ensures ServiceName(a) == if a.spec.Some? && a.spec.value.name.Some? then a.spec.value.name.value else "unknown"
    ensures Image(a) ==
      if && a.spec.Some?
         && a.spec.value.taskTemplate.Some?
         && a.spec.value.taskTemplate.value.containerSpec.Some?
         && a.spec.value.taskTemplate.value.containerSpec.value.image.Some?
      then a.spec.value.taskTemplate.value.containerSpec.value.image.value
      else "unknown"
  {
  }

  /** Replicated services want `Replicas` (0 when that key is absent); every other service,
      including one without Spec or Mode, wants 1. */
  lemma DesiredReplicasRule(a: ServiceAttrs)
    ensures a.spec.None? ==> DesiredReplicas(a) == 1
    ensures a.spec.Some? && a.spec.value.mode.None? ==> DesiredReplicas(a) == 1
    ensures a.spec.Some? && a.spec.value.mode.Some? ==>
      var m := a.spec.value.mode.value;
      && (m.replicated.None? ==> DesiredReplicas(a) == 1)
      && (m.replicated.Some? && m.replicated.value.replicas.None? ==> DesiredReplicas(a) == 0)
      && (m.replicated.Some? && m.replicated.value.replicas.Some? ==> DesiredReplicas(a) == m.replicated.value.replicas.value)
  {
  }

  // ---- Running-task count ------------------------------------------------------------

  /** The positions of the tasks whose state is exactly "running". */
  function RunningPositions(tasks: seq<Task>): set<nat>
  {
    set i: nat | i < |tasks| && IsRunning(tasks[i])
  }

  /** The running count is the number of positions holding a running task. */
  lemma {:induction false} RunningCountIsCardinality(tasks: seq<Task>)
    ensures RunningCount(tasks) == |RunningPositions(tasks)|
  {
    if tasks != [] {
      var n := |tasks| - 1;
      var init := tasks[..n];
      RunningCountIsCardinality(init);
      assert n !in RunningPositions(init);
      if IsRunning(tasks[n]) {
        assert RunningPositions(tasks) == RunningPositions(init) + {n};
      } else {
        assert RunningPositions(tasks) == RunningPositions(init);
      }
    }
  }

  /** A task counts exactly when it has a Status with State "running"; any other state,
      a different case, or a missing Status or State does not count. */
  lemma RunningIsExactMatch(t: Task)
    ensures RunningCount([t]) == 1 <==> t.status.Some? && t.status.value.state == Some("running")
    ensures RunningCount([Task(Some(TaskStatus(Some("Running"))))]) == 0
    ensures RunningCount([Task(Some(TaskStatus(None))), Task(None)]) == 0
  {
    assert [Task(Some(TaskStatus(None))), Task(None)][..1] == [Task(Some(TaskStatus(None)))];
  }

  // ---- Publication ----------------------------------------------------------------

  /** The label tuples of the listed services. */
  function ListedLabels(services: seq<Service>, hostname: string): set<Labels>
  {
    set s | s in services :: ServiceLabels(s.attrs, hostname)
  }

  /** Writing records leaves exactly their label tuples in both gauges. */
  lemma PublishedKeys(services: seq<Service>, hostname: string)
    requires TasksAnswered(services)
    ensures Published(Records(services), hostname).instances.Keys == ListedLabels(services, hostname)
    ensures Published(Records(services), hostname).runningTasks.Keys == ListedLabels(services, hostname)
  {
    var records := Records(services);
    forall m: Metric
      ensures WrittenLabels(Writes(records, hostname, m)) == ListedLabels(services, hostname)
    {
      var ws := Writes(records, hostname, m);
      forall l | l in ListedLabels(services, hostname) ensures l in WrittenLabels(ws) {
        var j :| 0 <= j < |services| && ServiceLabels(services[j].attrs, hostname) == l;
        assert ws[j].labels == l;
      }
      forall l | l in WrittenLabels(ws) ensures l in ListedLabels(services, hostname) {
        var j :| 0 <= j < |ws| && ws[j].labels == l;
        assert services[j] in services;
      }
    }
    ReplayKeys(Writes(records, hostname, Instances));
    ReplayKeys(Writes(records, hostname, RunningTasks));
  }

  /** Both gauges hold the values of the last service written under a label tuple. */
  lemma PublishedValues(services: seq<Service>, hostname: string, i: nat)
    requires TasksAnswered(services)
    requires i < |services|
    requires forall j | i < j < |services| ::
      ServiceLabels(services[j].attrs, hostname) != ServiceLabels(services[i].attrs, hostname)
    ensures var labels := ServiceLabels(services[i].attrs, hostname);
            var registry := Published(Records(services), hostname);
            && labels in registry.instances && labels in registry.runningTasks
            && registry.instances[labels] == DesiredReplicas(services[i].attrs)
            && registry.runningTasks[labels] == RunningCount(services[i].tasks.value)
  {
    var records := Records(services);
    ReplayLastWriteWins(Writes(records, hostname, Instances), i);
    ReplayLastWriteWins(Writes(records, hostname, RunningTasks), i);
  }

  // ---- Ticks ---------------------------------------------------------------------------

  /** A failed `docker.DockerClient()` raises its error, leaves both gauges exactly as they
      were and sends no query. */
  lemma ConnectionFailureKeepsRegistry(before: Registry, hostname: string, backend: Backend)
    requires backend.connection.Err?
    ensures Tick(before, hostname, backend) == TickResult(Raised(backend.connection.error), before, [])
  {
  }

  /** A failed `services.list()` leaves both gauges exactly as they were and sends no task query. */
  lemma ListingFailureKeepsRegistry(before: Registry, hostname: string, backend: Backend)
    requires backend.connection.Ok? && backend.listing.Err?
    ensures Tick(before, hostname, backend) == TickResult(Raised(backend.listing.error), before, [])
  {
  }

  /** A tick completes exactly when the listing and every task query answer: a malformed
      service never aborts it. */
  lemma CompletesIffAllQueriesAnswer(before: Registry, hostname: string, backend: Backend)
    ensures Tick(before, hostname, backend).outcome == Completed
        <==> backend.connection.Ok? && backend.listing.Ok? && TasksAnswered(backend.listing.value)
  {
    if backend.connection.Ok? && backend.listing.Ok? {
      var services := backend.listing.value;
      var k := FirstFailure(services);
      if k < |services| {
        assert !TasksAnswered(services);
      }
    }
  }

  /** After a completed tick both gauges hold exactly one sample per listed label tuple:
      no sample of an earlier tick survives. */
  lemma CompletedTickPublishesListing(before: Registry, hostname: string, backend: Backend)
    requires Tick(before, hostname, backend).outcome == Completed
    ensures backend.connection.Ok? && backend.listing.Ok?
    ensures var r := Tick(before, hostname, backend).registry;
            && r.instances.Keys == ListedLabels(backend.listing.value, hostname)
            && r.runningTasks.Keys == ListedLabels(backend.listing.value, hostname)
  {
    var services := backend.listing.value;
    CompletesIffAllQueriesAnswer(before, hostname, backend);
    assert services[..|services|] == services;
    PublishedKeys(services, hostname);
  }

  /** After a completed tick, the sample under a service's labels is that service's desired
      replicas and running count, the later service winning when two share a label tuple. */
  lemma CompletedTickValues(before: Registry, hostname: string, backend: Backend, i: nat)
    requires backend.connection.Ok? && backend.listing.Ok? && TasksAnswered(backend.listing.value)
    requires i < |backend.listing.value|
    requires forall j | i < j < |backend.listing.value| ::
      ServiceLabels(backend.listing.value[j].attrs, hostname) != ServiceLabels(backend.listing.value[i].attrs, hostname)
    ensures var s := backend.listing.value[i];
            var labels := ServiceLabels(s.attrs, hostname);
            var r := Tick(before, hostname, backend).registry;
            && labels in r.instances && labels in r.runningTasks
            && r.instances[labels] == DesiredReplicas(s.attrs)
            && r.runningTasks[labels] == RunningCount(s.tasks.value)
  {
    var services := backend.listing.value;
    CompletesIffAllQueriesAnswer(before, hostname, backend);
    assert services[..|services|] == services;
    PublishedValues(services, hostname, i);
  }

  /** When the task query of service `k` is the first to fail, the error ends the tick,
      and both gauges hold what a complete tick over the services before `k` publishes. */
  lemma TaskFailureKeepsProcessedPrefix(before: Registry, hostname: string, backend: Backend, k: nat)
    requires backend.connection.Ok? && backend.listing.Ok? && k < |backend.listing.value|
    requires TasksAnswered(backend.listing.value[..k])
    requires backend.listing.value[k].tasks.Err?
    ensures var services := backend.listing.value;
            var t := Tick(before, hostname, backend);
            && t.outcome == Raised(services[k].tasks.error)
            && t.registry == Tick(before, hostname, Backend(Ok(()), Ok(services[..k]))).registry
            && t.registry.instances.Keys == ListedLabels(services[..k], hostname)
            && t.registry.runningTasks.Keys == ListedLabels(services[..k], hostname)
            && t.taskQueries == QueriedIds(services[..k + 1])
  {
    var services := backend.listing.value;
    var f := FirstFailure(services);
    assert forall j | 0 <= j < k :: services[..k][j] == services[j];
    assert f == k;
    var prefix := services[..k];
    assert FirstFailure(prefix) == k;
    assert prefix[..k] == prefix;
    PublishedKeys(prefix, hostname);
  }

  /** Both gauges always carry the same label tuples after a tick, given they did before. */
  lemma GaugesShareKeys(before: Registry, hostname: string, backend: Backend)
    requires backend.connection.Err? || backend.listing.Err? ==> before.instances.Keys == before.runningTasks.Keys
    ensures var r := Tick(before, hostname, backend).registry;
            r.instances.Keys == r.runningTasks.Keys
  {
    if backend.connection.Ok? && backend.listing.Ok? {
      var services := backend.listing.value;
      PublishedKeys(services[..FirstFailure(services)], hostname);
    }
  }

  /** A tick replaces rather than merges: when the client connects and the listing answers,
      what the tick leaves behind does not depend on the samples it found. */
  lemma TickIgnoresPreviousSamples(before: Registry, other: Registry, hostname: string, backend: Backend)
    requires backend.connection.Ok? && backend.listing.Ok?
    ensures Tick(before, hostname, backend) == Tick(other, hostname, backend)
  {
  }

  /** Repeating a tick against unchanged backend answers changes nothing further. */
  lemma TickIdempotent(before: Registry, hostname: string, backend: Backend)
    ensures var t := Tick(before, hostname, backend);
            Tick(t.registry, hostname, backend) == t
  {
  }

  // ---- Scenarios -------------------------------------------------------------------

  const ServiceA := ServiceAttrs(Some("a"), Some(Spec(Some("web"),
    Some(TaskTemplate(Some(ContainerSpec(Some("nginx"))))), Some(Mode(Some(Replicated(Some(3))))))))
  const ServiceB := ServiceAttrs(Some("b"), Some(Spec(Some("agent"),
    Some(TaskTemplate(Some(ContainerSpec(Some("node-exporter"))))), Some(Mode(None)))))
  const Running := Task(Some(TaskStatus(Some("running"))))
  const Shutdown := Task(Some(TaskStatus(Some("shutdown"))))

  /** A replicated with 3 replicas and 2 running tasks, B global with 1 running task:
      A publishes desired 3 / running 2, B desired 1 / running 1, and nothing else. */
  lemma TwoServiceScenario(before: Registry, hostname: string)
    ensures var backend := Backend(Ok(()), Ok([Service(ServiceA, Ok([Running, Shutdown, Running])),
                                               Service(ServiceB, Ok([Running]))]));
            var t := Tick(before, hostname, backend);
            var a := Labels("a", "web", "nginx", hostname);
            var b := Labels("b", "agent", "node-exporter", hostname);
            && t.outcome == Completed
            && t.registry == Registry(map[a := 3, b := 1], map[a := 2, b := 1])
            && t.taskQueries == ["a", "b"]
  {
    var tasksA := [Running, Shutdown, Running];
    assert [Running][..0] == [];
    assert RunningCount([Running]) == 1;
    assert [Running, Shutdown][..1] == [Running];
    assert RunningCount([Running, Shutdown]) == 1;
    assert tasksA[..2] == [Running, Shutdown];
    assert RunningCount(tasksA) == 2;
    var services := [Service(ServiceA, Ok(tasksA)), Service(ServiceB, Ok([Running]))];
    assert FirstFailure(services) == 2 by {
      assert services[1..] == [Service(ServiceB, Ok([Running]))];
      assert services[1..][1..] == [];
    }
    assert services[..2] == services;
    var a := Labels("a", "web", "nginx", hostname);
    var b := Labels("b", "agent", "node-exporter", hostname);
    var records := Records(services);
    assert records == [ServiceRecord("a", "web", "nginx", 3, 2), ServiceRecord("b", "agent", "node-exporter", 1, 1)];
    ReplayOfTwo(Write(a, 3), Write(b, 1));
    ReplayOfTwo(Write(a, 2), Write(b, 1));
    assert Writes(records, hostname, Instances) == [Write(a, 3), Write(b, 1)];
    assert Writes(records, hostname, RunningTasks) == [Write(a, 2), Write(b, 1)];
  }

  /** A tick whose listing is empty leaves both gauges empty, whatever an earlier tick
      published. */
  lemma EmptyListingClearsRegistry(before: Registry, hostname: string)
    ensures Tick(before, hostname, Backend(Ok(()), Ok([]))) == TickResult(Completed, Registry(map[], map[]), [])
  {
  }
}
