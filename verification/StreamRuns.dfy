/** Building runs of the stream step by step. */
module StreamRuns {
  import opened StreamProtocol

  ghost predicate LeadsTo(cfg: Config, from: State, t: State) {
    exists run :: IsRun(cfg, from, run) && After(cfg, from, run) == t
  }

  lemma {:induction false} OneMoreStep(cfg: Config, s: State, run: seq<Action>, a: Action)
    requires IsRun(cfg, s, run) && WellFormed(After(cfg, s, run)) && Enabled(cfg, After(cfg, s, run), a)
    ensures IsRun(cfg, s, run + [a])
    ensures After(cfg, s, run + [a]) == Do(cfg, After(cfg, s, run), a)
    decreases |run|
  {
    if run == [] {
      assert [a][1..] == [];
      assert run + [a] == [a];
    } else {
      assert (run + [a])[1..] == run[1..] + [a];
      OneMoreStep(cfg, Do(cfg, s, run[0]), run[1..], a);
    }
  }

  lemma StartsAt(cfg: Config, s: State)
    ensures LeadsTo(cfg, s, s)
  {
    assert IsRun(cfg, s, []) && After(cfg, s, []) == s;
  }

  lemma Go(cfg: Config, from: State, s: State, a: Action, t: State) returns (now: State)
    requires LeadsTo(cfg, from, s) && WellFormed(s) && Enabled(cfg, s, a) && Do(cfg, s, a) == t
    ensures now == t && LeadsTo(cfg, from, now)
  {
    var run :| IsRun(cfg, from, run) && After(cfg, from, run) == s;
    OneMoreStep(cfg, from, run, a);
    now := t;
  }
}
