/** Workers outside the published set. */
module RWRetired {
  import opened RWMachine
  import opened RWLocal

  /** A worker leaves the published set only after `run` has returned. */
  ghost predicate Retired(s: State)
  {
    forall id :: id in s.workers && id !in s.snap ==> s.workers[id].main.Done?
  }

  lemma DoneStays(cfg: Config, g: Shared, w: Worker, id: WorkerId, a: Action)
    requires w.main.Done?
    ensures var r := WorkerStep(cfg, g, w, id, a); r.Moved? ==> r.w.main.Done?
  {
  }

  /** Without a stop timeout such a worker has no pipeline and no reads on the way. */
  lemma RetiredPipe(cfg: Config, rw: bool, s: State, id: WorkerId)
    requires Retired(s) && id in s.workers && id !in s.snap && !s.workers[id].timedOut && Life(cfg, rw, s.workers[id])
    ensures s.workers[id].pipe.Exited? && s.workers[id].flow.channel == []
  {
  }
}
