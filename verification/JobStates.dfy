/** The states of a job, in its row and in the notifications about it. */
module JobStates {

  datatype JobState = WaitDependencies | Pending | Enqueued | Started | Done | Cancelled | Failed
}
