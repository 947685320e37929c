/** The Lxd module: each operation sends its calls to the host through a World
    and enqueues its follow-up jobs there, in the order the source does. Each
    method's postcondition says that the value it returns and what it appended to
    the World's calls and jobs are exactly what the matching LxdSpec function
    gives for the host's replies from the current call index on. */
module Lxd {
  import opened Environment
  import opened Text
  import opened Containers
  import opened Envelopes
  import Spec = LxdSpec

  /** A mutating call followed by `wait_for_operation` on the handle it returned. */
  method Await(w: World, c: Call) returns (r: Reply)
    modifies w
    ensures var run := Spec.Awaited(w.replies, |old(w.calls)|, c);
      r == run.result && w.calls == old(w.calls) + run.calls && w.jobs == old(w.jobs) + run.jobs
  {
    var handle := w.Request(c);
    if handle.Raised? {
      return handle;
    }
    r := w.Request(Wait(handle.value.id));
  }

  method AddRemote(w: World, node: string, cert: FileRead, password: string) returns (r: CertResult)
    modifies w
    ensures var run := Spec.AddRemote(w.replies, |old(w.calls)|, node, cert, password);
      r == run.result && w.calls == old(w.calls) + run.calls && w.jobs == old(w.jobs) + run.jobs
  {
    var failure: Option<Error> := None;
    match cert {
      case Unreadable(e) =>
        failure := Some(e);
      case Read(text) =>
        var reply := w.Request(AddCertificate(node, text, password));
        if reply.Raised? {
          failure := Some(reply.error);
        }
    }
    if failure.Some? && !Contains(failure.value.message, Spec.AlreadyTrusted) {
      return CertResult(false, failure.value.message);
    }
    r := CertResult(true, "");
  }

  method ListContainers(w: World) returns (r: Outcome<seq<Container>>)
    modifies w
    ensures var run := Spec.ListContainers(w.replies, |old(w.calls)|);
      r == run.result && w.calls == old(w.calls) + run.calls && w.jobs == old(w.jobs) + run.jobs
  {
    var listing := w.Request(List);
    if listing.Raised? {
      return Propagated(listing.error);
    }
    r := Returned(Named(listing.value.names));
  }

  method ShowContainer(w: World, name: string) returns (r: Outcome<ShowResult>)
    modifies w
    ensures var run := Spec.ShowContainer(w.replies, |old(w.calls)|, name);
      r == run.result && w.calls == old(w.calls) + run.calls && w.jobs == old(w.jobs) + run.jobs
  {
    var details := w.Request(GetContainer(name));
    if details.Raised? {
      return Returned(NotShown(details.error));
    }
    var state := w.Request(GetState(name));
    if state.Raised? {
      return Propagated(state.error);
    }
    r := Returned(Shown(Describe(name, details.value, state.value)));
  }

  method LaunchContainer(w: World, image: string, host: string) returns (r: Envelope)
    modifies w
    ensures var run := Spec.LaunchContainer(w.replies, |old(w.calls)|, image, host);
      r == run.result && w.calls == old(w.calls) + run.calls && w.jobs == old(w.jobs) + run.jobs
  {
    r := CreateContainer(w, host);
    if r.Succeeded() {
      w.Enqueue(StartAsync(host));
    }
  }

  method CreateContainer(w: World, host: string) returns (r: Envelope)
    modifies w
    ensures var run := Spec.CreateContainer(w.replies, |old(w.calls)|, host);
      r == run.result && w.calls == old(w.calls) + run.calls && w.jobs == old(w.jobs) + run.jobs
  {
    var finished := Await(w, Create(host, Ubuntu1604));
    r := Judge(finished, StatusSuccess);
  }

  method StartContainer(w: World, host: string) returns (r: Envelope)
    modifies w
    ensures var run := Spec.StartContainer(w.replies, |old(w.calls)|, host);
      r == run.result && w.calls == old(w.calls) + run.calls && w.jobs == old(w.jobs) + run.jobs
  {
    var response := w.Request(Start(host));
    r := Judge(response, StatusRunning);
  }

  method DestroyContainer(w: World, host: string, interval: string) returns (r: Outcome<Option<Envelope>>)
    modifies w
    ensures var run := Spec.DestroyContainer(w.replies, |old(w.calls)|, host, interval);
      r == run.result && w.calls == old(w.calls) + run.calls && w.jobs == old(w.jobs) + run.jobs
  {
    ghost var n := |w.calls|;
    var shown := ShowContainer(w, host);
    ghost var show := Spec.ShowContainer(w.replies, n, host);
    if shown.Propagated? {
      return Propagated(shown.error);
    }
    var isStopped := shown.value.ShowsStopped();
    var stopped: Option<Envelope> := None;
    if !isStopped {
      assert |w.calls| == n + |show.calls|;
      var response := StopContainer(w, host);
      stopped := Some(response);
    }
    if isStopped || stopped.value.Succeeded() {
      w.Enqueue(DeleteAfter(interval, host));
    }
    r := Returned(stopped);
  }

  method StopContainer(w: World, host: string) returns (r: Envelope)
    modifies w
    ensures var run := Spec.StopContainer(w.replies, |old(w.calls)|, host);
      r == run.result && w.calls == old(w.calls) + run.calls && w.jobs == old(w.jobs) + run.jobs
  {
    var finished := Await(w, Stop(host));
    r := Judge(finished, StatusSuccess);
  }

  /** recreate_container's teardown of a container it could show: stop and wait
      unless it is stopped, then delete and wait. Returns the first raised error. */
  method Teardown(w: World, host: string, stopFirst: bool) returns (failure: Option<Error>)
    modifies w
    ensures var run := Spec.Teardown(w.replies, |old(w.calls)|, host, stopFirst);
      failure == run.result && w.calls == old(w.calls) + run.calls && w.jobs == old(w.jobs) + run.jobs
  {
    if stopFirst {
      var stopped := Await(w, Stop(host));
      if stopped.Raised? {
        return Some(stopped.error);
      }
    }
    var deleted := Await(w, Delete(host));
    failure := if deleted.Raised? then Some(deleted.error) else None;
  }

  method RecreateContainer(w: World, host: string) returns (r: Envelope)
    modifies w
    ensures var run := Spec.RecreateContainer(w.replies, |old(w.calls)|, host);
      r == run.result && w.calls == old(w.calls) + run.calls && w.jobs == old(w.jobs) + run.jobs
  {
    ghost var n := |w.calls|;
    var shown := ShowContainer(w, host);
    ghost var show := Spec.ShowContainer(w.replies, n, host);
    if shown.Propagated? {
      return Rescue(shown.error);
    }
    assert |w.calls| == n + |show.calls|;
    ghost var rest := Spec.AfterShow(w.replies, |w.calls|, host, shown.value);
    r := AfterShow(w, host, shown.value);
    Spec.AppendPieces(old(w.calls), show.calls, rest.calls);
  }

  /** recreate_container once show_container has returned `show`. */
  method AfterShow(w: World, host: string, show: ShowResult) returns (r: Envelope)
    modifies w
    ensures var run := Spec.AfterShow(w.replies, |old(w.calls)|, host, show);
      r == run.result && w.calls == old(w.calls) + run.calls && w.jobs == old(w.jobs) + run.jobs
  {
    if show.NotShown? {
      r := Rebuild(w, host);
      return;
    }
    ghost var torn := Spec.Teardown(w.replies, |w.calls|, host, show.data.status != Some(StatusStopped));
    var failure := Teardown(w, host, show.data.status != Some(StatusStopped));
    if failure.Some? {
      return Rescue(failure.value);
    }
    ghost var rebuilt := Spec.Rebuild(w.replies, |w.calls|, host);
    r := Rebuild(w, host);
    Spec.AppendPieces(old(w.calls), torn.calls, rebuilt.calls);
  }

  /** recreate_container's last step: create and wait, then enqueue StartContainer
      if the awaited status is "Success". */
  method Rebuild(w: World, host: string) returns (r: Envelope)
    modifies w
    ensures var run := Spec.Rebuild(w.replies, |old(w.calls)|, host);
      r == run.result && w.calls == old(w.calls) + run.calls && w.jobs == old(w.jobs) + run.jobs
  {
    var created := Await(w, Create(host, Ubuntu1604));
    if created.Raised? {
      return Rescue(created.error);
    }
    if created.value.status == Some(StatusSuccess) {
      w.Enqueue(StartAsync(host));
    }
    r := Judge(created, StatusSuccess);
  }

  method AttachPublicKey(w: World, host: string, key: string, username: Option<string>) returns (r: Envelope)
    modifies w
    ensures var run := Spec.AttachPublicKey(w.replies, |old(w.calls)|, host, key, username);
      r == run.result && w.calls == old(w.calls) + run.calls && w.jobs == old(w.jobs) + run.jobs
  {
    var user := Spec.UserOrDefault(username);
    var response := w.Request(Exec(host, Spec.AuthorizedKeysCommand(key, user)));
    r := Judge(response, StatusSuccess);
  }
}
