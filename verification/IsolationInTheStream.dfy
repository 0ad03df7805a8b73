/** The search for the bad rows of a failed batch, seen from the stream: its attempts are steps of the transition
system, and what it finds is what a failed batch may be handled with. */
module IsolationInTheStream {
  import opened Changes
  import opened StreamProtocol
  import opened StreamRuns
  import Isolation

  /** The state with the batch in flight failed, and these of its rows known to be written. */
  function Narrowed(s: State, t: State, touched: set<nat>): State
    requires s.inflight.Some?
  {
    s.(dest := t.dest, landed := t.landed, inflight := Some(s.inflight.value.(phase := Failed(touched))))
  }

  ghost predicate HasFailed(cfg: Config, s: State) {
    && WellFormed(s) && !cfg.abort && s.inflight.Some? && s.inflight.value.phase == Failed({})
    && Isolating(cfg, s.inflight.value)
  }

  lemma DeliveredSoFar(log: seq<Isolation.Attempt>)
    requires log != []
    ensures var last := log[|log| - 1];
            AsSet(Isolation.Delivered(log)) ==
            AsSet(Isolation.Delivered(log[..|log| - 1])) + (if last.outcome.ok then AsSet(last.rows) else {})
  {
  }

  /** Attempt after attempt, the stream gets to know exactly the rows the search delivered. */
  lemma {:induction false} AttemptsAreSteps(cfg: Config, s: State, log: seq<Isolation.Attempt>) returns (t: State)
    requires HasFailed(cfg, s) && forall a :: a in log ==> PartOf(a.rows, s.inflight.value.items)
    ensures LeadsTo(cfg, s, t) && WellFormed(t) && t == Narrowed(s, t, AsSet(Isolation.Delivered(log)))
    decreases |log|
  {
    if log == [] {
      StartsAt(cfg, s);
      assert AsSet(Isolation.Delivered(log)) == {};
      t := s;
    } else {
      var before, last := log[..|log| - 1], log[|log| - 1];
      t := AttemptsAreSteps(cfg, s, before);
      DeliveredSoFar(log);
      assert last in log;
      var a := Action.Attempt(last.rows, last.outcome.ok);
      var touched := AsSet(Isolation.Delivered(before));
      assert touched + {} == touched;
      assert Do(cfg, t, a).inflight.value.phase == Failed(AsSet(Isolation.Delivered(log)));
      t := Go(cfg, s, t, a, Do(cfg, t, a));
    }
  }

  /** Isolating a failed batch of the stream, unless it finds the failure to be systemic, is a run of the stream to
  a state in which the batch may be handled with what was found. */
  method Isolate(cfg: Config, s: State, attempt: (seq<nat>, set<Isolation.Target>, nat) -> Isolation.Outcome,
                 already: set<Isolation.Target>, maxAttempts: nat, maxPoisoned: nat, failuresBeforeSystemic: nat)
    returns (found: Isolation.Found, ghost t: State)
    requires HasFailed(cfg, s) && Isolation.Distinct(s.inflight.value.items)
    ensures LeadsTo(cfg, s, t) && WellFormed(t) && t == Narrowed(s, t, AsSet(found.delivered))
    ensures !found.systemic ==> Enabled(cfg, t, Handle(found.delivered, Isolation.RowsOf(found.poisoned)))
  {
    var log;
    found, log := Isolation.IsolateFailures(s.inflight.value.items, attempt, already, maxAttempts, maxPoisoned,
                                            failuresBeforeSystemic);
    t := AttemptsAreSteps(cfg, s, log);
  }
}
