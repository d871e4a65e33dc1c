/** What several clients of the Kubernetes API share. */
module Kubernetes {

  /** The values of Status.State of a job, of a pod's phase and of FetchResultStatus. */
  datatype Phase = Empty | Submitting | Pending | Running | Succeeded | Failed | Unknown

  predicate Terminal(p: Phase) { p == Succeeded || p == Failed }

  /** The answer to a call that changes objects. A lost reply is an error although the change was made. */
  datatype Reply = Done | Refused | Lost
}
