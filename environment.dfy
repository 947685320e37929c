/** What the Lxd module talks to, seen from outside: the LXD host behind the
    Hyperkit client (the calls sent to it and the replies it gives), the local
    certificate file, and the Sidekiq job queue (the jobs enqueued on it). */
module Environment {

  datatype Option<+T> = None | Some(value: T)

  /** A raised error; `message` is what its `to_s` gives. For most calls this is a
      Hyperkit::Error. In add_remote it is any StandardError. */
  datatype Error = Error(message: string)

  /** The outcome of a step whose error is not rescued where it is raised. */
  datatype Outcome<+T> = Returned(value: T) | Propagated(error: Error)

  /** One entry of an interface's address list in a container's runtime state. */
  datatype Address = Address(family: Option<string>, address: Option<string>)

  datatype Interface = Interface(addresses: Option<seq<Address>>)

  /** A resource returned by the LXD REST API through Hyperkit. It is read like a
      hash: any key may be missing (nil). Operation handles carry `id`. Finished
      operations, start and exec results carry `status` and `err`. Container
      descriptors carry `config`, `profiles` and `createdAt`. Runtime states carry
      `status` and `network`. The container listing carries `names`. */
  datatype Resource = Resource(
    id: Option<string>,
    status: Option<string>,
    err: Option<string>,
    config: map<string, string>,
    profiles: Option<seq<string>>,
    createdAt: Option<string>,
    network: Option<map<string, Interface>>,
    names: seq<string>)

  /** What one remote call gives back: a resource, or a raised error. */
  datatype Reply = Ok(value: Resource) | Raised(error: Error)

  /** The image source used for every container creation. */
  datatype ImageSource = ImageSource(server: string, protocol: string, alias: string)

  const Ubuntu1604 := ImageSource("https://cloud-images.ubuntu.com/releases", "simplestreams", "16.04")

  /** A request sent to the LXD host, with the arguments that identify it. */
  datatype Call =
    | AddCertificate(node: string, certificate: string, password: string)
    | List
    | GetContainer(name: string)
    | GetState(name: string)
    | Create(name: string, source: ImageSource)
    | Start(name: string)
    | Stop(name: string)
    | Delete(name: string)
    | Exec(name: string, command: string)
    | Wait(operation: Option<string>)

  /** A job put on the queue: StartContainer to run now, or DeleteContainer to run
      after the configured interval. */
  datatype Job = StartAsync(host: string) | DeleteAfter(interval: string, host: string)

  /** The result of reading the local client certificate file. */
  datatype FileRead = Read(content: string) | Unreadable(error: Error)

  /** The outside world during a run of the Lxd module. `replies` scripts the host:
      the n-th call ever sent gets `replies(n)`. `calls` is the ordered trace of
      calls sent. `jobs` is the ordered list of jobs enqueued. */
  class World {
    const replies: nat -> Reply
    var calls: seq<Call>
    var jobs: seq<Job>

    constructor (replies: nat -> Reply)
      ensures this.replies == replies && calls == [] && jobs == []
    {
      this.replies := replies;
      calls := [];
      jobs := [];
    }

    /** Sends one call to the host and returns its reply. A wait_for_operation call
        returns only once the operation is finished. */
    method Request(c: Call) returns (r: Reply)
      modifies this
      ensures calls == old(calls) + [c] && jobs == old(jobs)
      ensures r == replies(|old(calls)|)
    {
      r := replies(|calls|);
      calls := calls + [c];
    }

    /** Puts a job on the queue without running it. */
    method Enqueue(j: Job)
      modifies this
      ensures jobs == old(jobs) + [j] && calls == old(calls)
    {
      jobs := jobs + [j];
    }
  }
}
