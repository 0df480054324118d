/** The Docker engine as the collector sees it: the attribute dictionaries of services and
    tasks (a key that is absent is `None`), the errors the SDK raises, and a client whose
    answers for one tick are fixed in advance. */
module Docker {
  import opened Wrappers

  /** `Spec.TaskTemplate.ContainerSpec` of a service; only `Image` is read. */
  datatype ContainerSpec = ContainerSpec(image: Option<string>)

  /** `Spec.TaskTemplate` of a service. */
  datatype TaskTemplate = TaskTemplate(containerSpec: Option<ContainerSpec>)

  /** `Spec.Mode.Replicated`: present for replicated services, `Replicas` may still be absent. */
  datatype Replicated = Replicated(replicas: Option<nat>)

  /** `Spec.Mode`: `replicated` is `None` when the `Replicated` key is absent (global mode). */
  datatype Mode = Mode(replicated: Option<Replicated>)

  /** `Spec` of a service. */
  datatype Spec = Spec(name: Option<string>, taskTemplate: Option<TaskTemplate>, mode: Option<Mode>)

  /** `service.attrs`: the raw attribute dictionary of one service. */
  datatype ServiceAttrs = ServiceAttrs(id: Option<string>, spec: Option<Spec>)

  // The empty dictionaries `{}` that the collector falls back to with `.get(key, {})`.
  const NoSpec := Spec(None, None, None)
  const NoTaskTemplate := TaskTemplate(None)
  const NoContainerSpec := ContainerSpec(None)
  const NoMode := Mode(None)
  const NoReplicated := Replicated(None)
  const NoStatus := TaskStatus(None)

  /** `Status` of a task; `State` may be absent. */
  datatype TaskStatus = TaskStatus(state: Option<string>)

  /** One task dictionary returned by `service.tasks(...)`. */
  datatype Task = Task(status: Option<TaskStatus>)

  /** What a backend call can raise: `docker.errors.APIError`, or any other exception. */
  datatype Fault = ApiError(message: string) | Unclassified(message: string)

  /** One entry of `services.list()`: its attributes, and the answer that its
      `tasks(...)` query receives during this tick. */
  datatype Service = Service(attrs: ServiceAttrs, tasks: Result<seq<Task>, Fault>)

  /** The engine's answers during one tick: whether `docker.DockerClient()` connects,
      and the result of `services.list()` (each listed service carries the answer to
      its own task query). */
  datatype Backend = Backend(connection: Result<(), Fault>, listing: Result<seq<Service>, Fault>)

  /** `docker.DockerClient()`: raises the connection error, or opens a new client. */
  method Connect(backend: Backend) returns (r: Result<Client, Fault>)
    ensures r.Err? <==> backend.connection.Err?
    ensures r.Err? ==> r.error == backend.connection.error
    ensures r.Ok? ==> fresh(r.value) && r.value.backend == backend && !r.value.closed && r.value.taskQueries == []
  {
    if backend.connection.Err? {
      return Err(backend.connection.error);
    }
    var client := new Client(backend);
    return Ok(client);
  }

  /** An open connection to the engine: it must be closed, and the filters
      of the task queries sent over it. */
  class Client {
    const backend: Backend
    var closed: bool
    var taskQueries: seq<string>

    constructor (backend: Backend)
      ensures this.backend == backend && !closed && taskQueries == []
    {
      this.backend := backend;
      closed := false;
      taskQueries := [];
    }

    /** `client.services.list()`. */
    method ListServices() returns (r: Result<seq<Service>, Fault>)
      requires !closed
      ensures r == backend.listing
    {
      r := backend.listing;
    }

    /** `service.tasks(filters={'service': serviceId})`. */
    method Tasks(service: Service, serviceId: string) returns (r: Result<seq<Task>, Fault>)
      requires !closed
      modifies this
      ensures r == service.tasks
      ensures taskQueries == old(taskQueries) + [serviceId]
      ensures closed == old(closed)
    {
      r := service.tasks;
      taskQueries := taskQueries + [serviceId];
    }

    /** `client.close()`. */
    method Close()
      modifies this
      ensures closed && taskQueries == old(taskQueries)
    {
      closed := true;
    }
  }
}
