/**
  The server comes to rest: with no further arrivals, every run from a reachable
  state is over after a number of steps fixed in that state, and where it cannot
  go on everybody rests, unless a lost reader is in the way.
 */
module ProtocolRest {
  import opened Basics
  import opened Protocol
  import opened StoreSpec
  import opened ProtocolInv
  import opened ProtocolLocks
  import opened ProtocolRuns
  import opened ProtocolSafety
  import opened ProtocolProgress
  import opened ProtocolLoss
  import opened ProtocolAlone
  import opened ProtocolMeasure

  /** Since `early` no request has arrived and nobody has woken for no reason. */
  predicate Quiet(r: Run, early: Run) {
    r == early
    || (r.Moved? && !Idle(Th(End(r.before).threads, r.who)) && !r.choice.spurious && Quiet(r.before, early))
  }

  function Steps(r: Run, early: Run): nat {
    if r == early || r.Boot? then 0 else Steps(r.before, early) + 1
  }

  /**
    Termination: with no arrivals and no spurious wake-ups, however threads are
    scheduled and whatever is sent or not, no run is longer than the work that was
    left when it began.
   */
  lemma {:induction false} QuietRunsAreBounded(cfg: Config, r: Run, early: Run)
    requires Happens(cfg, r) && Quiet(r, early)
    ensures Steps(r, early) + Work(End(r)) <= Work(End(early))
    decreases r
  {
    if r != early {
      QuietRunsAreBounded(cfg, r.before, early);
      RunKeepsGInv(cfg, r.before);
      RunKeepsGInv(cfg, r);
      StepWorks(cfg, End(r.before), r.who, r.choice, r.g);
    }
  }

  /** No unfinished handler can step, even if what it sends is taken. */
  ghost predicate Settled(cfg: Config, g: G) {
    forall t: Tid, c: Choice | !Idle(Th(g.threads, t)) && c.sent && !c.spurious :: Step(cfg, g, t, c) == None
  }

  lemma RestIsRest(g: G)
    requires Struct(g) && forall u: Tid :: Idle(Th(g.threads, u))
    ensures AtRest(g)
  {
    if g.owner.Some? {
      AtThread(g, g.owner.value);
    }
  }

  /**
    Where a run cannot go on every thread rests and `files_mtx` is free. The one
    exception needs a failed send of a `read_file`: the holder of `files_mtx` asleep
    on the file that was left locked.
   */
  lemma SettledIsAtRest(cfg: Config, r: Run)
    requires Happens(cfg, r) && Settled(cfg, End(r))
    ensures AtRest(End(r)) || StuckOnLostReader(End(r))
    ensures !ReadSendFailed(r) ==> AtRest(End(r))
  {
    var g := End(r);
    RunKeepsGInv(cfg, r);
    if u: Tid :| !Idle(Th(g.threads, u)) {
      if !StuckOnLostReader(g) {
        var w, c := SomebodyMoves(cfg, g, u);
      } else if !ReadSendFailed(r) {
        var w, c := DeadlockFree(cfg, r, u);
      }
    } else {
      RestIsRest(g);
    }
  }

  /** From every reachable state in which no send of a read has failed the server can finish what it has begun. */
  lemma {:induction false} ComesToRest(cfg: Config, r: Run, early: Run) returns (r': Run)
    requires Happens(cfg, r) && !ReadSendFailed(r) && Quiet(r, early)
    ensures Happens(cfg, r') && !ReadSendFailed(r') && Quiet(r', early) && AtRest(End(r'))
    decreases Work(End(r))
  {
    RunKeepsGInv(cfg, r);
    if u: Tid :| !Idle(Th(End(r).threads, u)) {
      var w, c := DeadlockFree(cfg, r, u);
      r' := Moved(r, w, c, Step(cfg, End(r), w, c).value);
      RunKeepsGInv(cfg, r');
      StepWorks(cfg, End(r), w, c, r'.g);
      r' := ComesToRest(cfg, r', early);
    } else {
      RestIsRest(End(r));
      r' := r;
    }
  }
}
