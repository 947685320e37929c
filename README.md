# Lxd client model

This project models the `Lxd` Ruby module. The module drives an LXD host through
the Hyperkit REST client, and every operation goes through it:
- registering the local client certificate on a node;
- listing containers and showing one container;
- creating, starting, stopping, destroying and recreating containers;
- writing an SSH public key into a container.

It returns result hashes ("envelopes") to its callers. It also enqueues
Sidekiq jobs: `StartContainer` to run now, `DeleteContainer` to run after a
delay.

The model has two layers.

- `LxdSpec` describes each operation as a pure function of the host's replies.
  `rs(n)` is the reply, a resource or a raised error, to the n-th call sent to
  the host. Each function returns a `Run`: the value handed back to the caller,
  the calls sent in order, and the jobs enqueued in order. Its contract and
  the lemmas beside it state what the operation promises.
- `Lxd` is the module itself, written as imperative methods over a `World`.
  `Environment.World` holds the host's scripted replies, the trace of calls
  sent and the job queue. Each method sends its requests and enqueues its jobs
  in the order the Ruby code does. Its postcondition says that its return
  value, the calls it appended and the jobs it appended are exactly those of
  the `LxdSpec` function.

The supporting modules are:
- `Envelopes`: the envelope shapes. `Judge` turns a reply into an envelope.
  Its success is the string `'true'` or the boolean `false`.
- `Containers`: the `Container` record and the eth0 IPv4 address selection.
- `Text`: substring search, used for `String#include?`.

Deviations and conventions:
- A `success: 'true'` envelope may still carry an error: the code copies the
  host's `err` field into it whatever the status. `add_remote`
  answers with the boolean `true`, while the other operations use the string
  `'true'`.
- An error that Ruby lets escape, such as a raised `container_state` inside
  `show_container`, is modelled as `Outcome.Propagated`. `recreate_container`'s
  own `begin`/`rescue` turns it back into a failed envelope.

## Model

| member | source | states |
|---|---|---|
| Text.Contains | lib/clients/lxd.rb:10 | the result is true exactly when `sub` occurs at some position of `s` (`String#include?`) |
| Text.ContainsInfix | lib/clients/lxd.rb:10 | any text built as prefix + sub + suffix contains sub |
| Containers.Named | lib/clients/lxd.rb:15-18 | one Container per listed name, same length and order, each carrying only its hostname |
| Containers.Inets | lib/clients/lxd.rb:28-29 | the selection keeps exactly the addresses whose family is `inet`, and no more entries than the input |
| Containers.FirstOfInets | lib/clients/lxd.rb:28-30 | the head of the selection is the first `inet` entry of the list |
| Containers.IpAddress | lib/clients/lxd.rb:27-30 | a chosen address comes from an `inet` entry of eth0; with no `inet` entry (or no network, eth0 or address list) the result is nil |
| Containers.IpAddressIsFirstInet | lib/clients/lxd.rb:27-30 | the chosen address is the address of the first `inet` entry of eth0 |
| Envelopes.Rescue | lib/clients/lxd.rb:55-56 | the envelope for a rescued Hyperkit::Error is a failure that carries the error |
| Envelopes.ShowResult.ShowsStopped | lib/clients/lxd.rb:74 | a failed show never counts as stopped; a shown container counts as stopped exactly when its status is "Stopped" |
| Containers.Eth0Addresses | lib/clients/lxd.rb:27 | eth0's address list when the network, eth0 and its list are all present; otherwise empty |
| Containers.ImageDescription | lib/clients/lxd.rb:35 | the descriptor's `image.description` config entry, or nil exactly when there is none |
| Containers.Describe | lib/clients/lxd.rb:31-38 | the Container carries the name, the state's status, the eth0 IPv4 address, the image description, the profiles and the creation date |
| Envelopes.Judge | lib/clients/lxd.rb:55-59 | success is `'true'` exactly when the reply returned with the expected status; a raised Hyperkit::Error gives false with the rescued error; otherwise `err` is copied |
| LxdSpec.AddRemote | lib/clients/lxd.rb:5-13 | one certificate call when the file was read (none otherwise), no jobs; success with empty errors when nothing raised or the message contains "Certificate already in trust store"; otherwise failure with the message |
| LxdSpec.AddRemoteIsIdempotent | lib/clients/lxd.rb:7-12 | registering a node a second time, refused as already trusted, succeeds just like the first registration |
| LxdSpec.ListContainers | lib/clients/lxd.rb:15-18 | one listing call; a raised error propagates; otherwise one bare Container per listed name, in order |
| LxdSpec.ShowContainer | lib/clients/lxd.rb:20-40 | exactly the descriptor fetch, then the state fetch only if the first did not raise; a raised descriptor fetch gives a failed result with the error; a raised state fetch propagates; otherwise the Container is the one Describe builds from the two replies |
| LxdSpec.Awaited | lib/clients/lxd.rb:53-54 | the mutating call, then a wait on the handle it returned unless it raised; the result is the last reply |
| LxdSpec.CreateContainer | lib/clients/lxd.rb:51-60 | a create call from the Ubuntu 16.04 image, then a wait on its handle unless it raised; the envelope judges the last reply against "Success" |
| LxdSpec.StartContainer | lib/clients/lxd.rb:62-70 | one start call, no wait; success exactly when the returned status is "Running" |
| LxdSpec.StopContainer | lib/clients/lxd.rb:84-93 | a stop call, then a wait on its handle unless it raised; the envelope judges the last reply against "Success" |
| LxdSpec.LaunchContainer | lib/clients/lxd.rb:42-49 | same calls and envelope as create_container, whatever the image; StartContainer enqueued exactly when the awaited status is "Success" |
| LxdSpec.DestroyContainer | lib/clients/lxd.rb:72-82 | starts with the show; a raised state fetch propagates; returns nil exactly when the container showed as stopped; in both of those cases the show's calls are the only ones; a DeleteContainer job is enqueued after the interval exactly when it was stopped or the stop succeeded |
| LxdSpec.DestroyStops | lib/clients/lxd.rb:73-77 | a stop is sent exactly when the container did not show as stopped, including when the show failed; nothing is deleted inline |
| LxdSpec.DestroyReturnsStop | lib/clients/lxd.rb:75-81 | when a stop was sent, the result is stop_container's envelope and the calls are the show's followed by the stop's |
| LxdSpec.UserOrDefault | lib/clients/lxd.rb:118 | the given username, or "ubuntu" when none is given |
| LxdSpec.AuthorizedKeysCommand | lib/clients/lxd.rb:121-122 | the shell command contains the public key and the user's authorized_keys path |
| LxdSpec.AttachPublicKey | lib/clients/lxd.rb:117-129 | one exec call on the container whose command writes the key to the given user's (default "ubuntu") authorized_keys; success exactly when the status is "Success" |
| LxdSpec.RecreateContainer | lib/clients/lxd.rb:95-115 | starts with the descriptor fetch; the envelope judges the last reply against "Success" (a rescued error when the run stopped on one); StartContainer enqueued exactly when the envelope succeeds |
| LxdSpec.AfterShow | lib/clients/lxd.rb:98-114 | the steps after the show send at least one call; the envelope judges their last reply; StartContainer enqueued exactly when it succeeds |
| LxdSpec.Teardown | lib/clients/lxd.rb:98-105 | starts with the stop (or the delete when stopping is skipped), enqueues nothing; the result is the error of the last reply, if it raised |
| LxdSpec.TeardownCompletes | lib/clients/lxd.rb:98-105 | a teardown that raised nothing sent every call with its wait (four calls with the stop, two without), the delete second to last |
| LxdSpec.TeardownAbortsOnFirstError | lib/clients/lxd.rb:98-105 | every reply before the teardown's last call returned, whatever status it reported: only a raised error ends it early |
| LxdSpec.Rebuild | lib/clients/lxd.rb:107-114 | the create call, then a wait on its handle unless it raised; the envelope judges the last reply against "Success"; StartContainer enqueued exactly when the awaited status is "Success", that is exactly when the envelope succeeds |
| LxdSpec.RecreateTrace | lib/clients/lxd.rb:95-112 | the calls are exactly: show; then stop+wait unless stopped and delete+wait, only if the show succeeded; then create+wait; each wait on the handle just returned, cut after the first raised call |
| LxdSpec.AfterNotShown | lib/clients/lxd.rb:98-108 | after a failed show only the creation and its wait are sent |
| LxdSpec.AfterShownStopped | lib/clients/lxd.rb:99-108 | a stopped container is deleted and then created, without a stop |
| LxdSpec.AfterShownNotStopped | lib/clients/lxd.rb:99-108 | a container not shown as stopped is stopped, deleted and then created |
| LxdSpec.RecreateTeardown | lib/clients/lxd.rb:97-105 | stop only for a shown, not-stopped container; delete only for a shown one; the third call is the stop or the delete accordingly; after a failed show the second call is the creation |
| LxdSpec.RecreateAbortsOnFirstError | lib/clients/lxd.rb:96-112 | every reply between the descriptor fetch and the last call returned: the run ends at the first raised error |
| Lxd.Await | lib/clients/lxd.rb:53-54 | as LxdSpec.Awaited |
| Lxd.AddRemote | lib/clients/lxd.rb:5-13 | returns, sends and enqueues exactly what LxdSpec.AddRemote gives |
| Lxd.ListContainers | lib/clients/lxd.rb:15-18 | as LxdSpec.ListContainers |
| Lxd.ShowContainer | lib/clients/lxd.rb:20-40 | as LxdSpec.ShowContainer |
| Lxd.LaunchContainer | lib/clients/lxd.rb:42-49 | as LxdSpec.LaunchContainer |
| Lxd.CreateContainer | lib/clients/lxd.rb:51-60 | as LxdSpec.CreateContainer |
| Lxd.StartContainer | lib/clients/lxd.rb:62-70 | as LxdSpec.StartContainer |
| Lxd.DestroyContainer | lib/clients/lxd.rb:72-82 | as LxdSpec.DestroyContainer |
| Lxd.StopContainer | lib/clients/lxd.rb:84-93 | as LxdSpec.StopContainer |
| Lxd.RecreateContainer | lib/clients/lxd.rb:95-115 | as LxdSpec.RecreateContainer |
| Lxd.AfterShow | lib/clients/lxd.rb:98-114 | as LxdSpec.AfterShow |
| Lxd.Teardown | lib/clients/lxd.rb:98-105 | as LxdSpec.Teardown: the first error raised by the stop, the delete or their waits |
| Lxd.Rebuild | lib/clients/lxd.rb:107-114 | as LxdSpec.Rebuild |
| Lxd.AttachPublicKey | lib/clients/lxd.rb:117-129 | as LxdSpec.AttachPublicKey |

## Left out

- Client construction (`client`, lib/clients/lxd.rb:131-133) is not modelled: the endpoint on port 8443, `verify_ssl: false` and `auto_sync: false`. The model sends every call to one host. The source resolves a node again on each `client` call (`ContainerHost.reachable_node`), so the calls of one operation may reach different nodes.
- Hyperkit's `wait_for_operation` polling is one call whose reply is the finished operation. Time-outs inside it are modelled only as a raised reply.
- Sidekiq jobs are only recorded in order (`StartAsync`, `DeleteAfter`). Their later execution, retries and timing are not modelled.
- The certificate file is a parameter (`FileRead`): its contents, or the error raised while reading it. The trust password (`Figaro.env.CLUSTER_TRUST_PASSWORD`) is a parameter, and so is the delete delay (`Figaro.env.WAIT_INTERVAL_FOR_CONTAINER_OPERATIONS`), kept as an opaque string.
- Errors are not told apart by class: every raised reply is taken to be a Hyperkit::Error. In add_remote any StandardError is rescued anyway. A non-Hyperkit error escaping a `rescue Hyperkit::Error` clause is not modelled.
- A rescued error's `as_json` rendering is not modelled: the envelope carries the error itself (`ErrorField.Rescued`).
- Errors Ruby would raise on nil values are not modelled: a missing `config` hash in a descriptor, or `nil[:status]`. A resource's `config` is always a map, possibly empty.
- Concurrency between operations and jobs is not modelled.
- The `Container` class's own behaviour is not modelled: it is a record of the attributes the module sets.
