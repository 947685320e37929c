/** The result hashes the Lxd module returns to its callers. */
module Envelopes {
  import opened Environment
  import opened Containers

  const StatusSuccess := "Success"
  const StatusRunning := "Running"
  const StatusStopped := "Stopped"

  /** The `success` value of an operation envelope: the string 'true' or the
      boolean false. */
  datatype SuccessFlag = TrueString | False

  /** The `error` value of an operation envelope: the `err` the host reported, or
      the `as_json` of a rescued Hyperkit::Error. */
  datatype ErrorField = Reported(err: Option<string>) | Rescued(error: Error)

  /** `{success: ..., error: ...}` as returned by create, start, stop, attach and recreate. */
  datatype Envelope = Envelope(success: SuccessFlag, error: ErrorField) {
    /** `envelope[:success] == 'true'`. */
    predicate Succeeded()
    {
      success == TrueString
    }
  }

  /** `{success: true|false, errors: ...}` as returned by add_remote. */
  datatype CertResult = CertResult(success: bool, errors: string)

  /** What show_container returns: `{success: true, data: container}` or
      `{success: false, error: ...}`. */
  datatype ShowResult = Shown(data: Container) | NotShown(error: Error) {
    /** `show_res.dig(:data)&.status == "Stopped"`: a failed show is not stopped. */
    predicate ShowsStopped()
      ensures NotShown? ==> !ShowsStopped()
      ensures Shown? ==> (ShowsStopped() <==> data.status == Some(StatusStopped))
    {
      Shown? && data.status == Some(StatusStopped)
    }
  }

  /** The envelope for a rescued Hyperkit::Error. */
  function Rescue(e: Error): (env: Envelope)
    ensures !env.Succeeded() && env.error == Rescued(e)
  {
    Envelope(False, Rescued(e))
  }

  /** The envelope a reply yields when the expected status means success. A
      raised reply gives false with the error. Otherwise success is 'true'
      exactly when the status equals `expected`, and `err` is copied either way. */
  function Judge(r: Reply, expected: string): (e: Envelope)
    ensures e.Succeeded() <==> r.Ok? && r.value.status == Some(expected)
    ensures e.error.Rescued? <==> r.Raised?
    ensures r.Raised? ==> e == Rescue(r.error)
    ensures r.Ok? ==> e.error == Reported(r.value.err)
  {
    match r
    case Raised(error) => Rescue(error)
    case Ok(res) => Envelope(if res.status == Some(expected) then TrueString else False, Reported(res.err))
  }
}
