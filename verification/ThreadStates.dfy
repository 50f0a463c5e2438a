/** The states of a thread. */
module ThreadStates {

  datatype ThreadState =
    | Inactive | Running | Restart
    | BlockedOnReceive | BlockedOnSend | BlockedOnReply | BlockedOnNotification
    | IdleThread | Exited

  predicate IsRunnable(ts: ThreadState) { ts == Running || ts == Restart }

  predicate IsStopped(ts: ThreadState) {
    ts in {Inactive, BlockedOnReceive, BlockedOnSend, BlockedOnReply, BlockedOnNotification}
  }
}
