/** Retrying a dead letter as it was recorded. That is what happens to a truncate and to a row of a table without a
key, and to any letter when the look for the source's key, made at each retry, fails. Exactly when it is harmless. */
module StreamRetries {
  import opened Changes
  import opened StreamProtocol
  import opened StreamConvergence

  /** After the retry a row is on course if and only if the rest of the log hides all that tells it, with the
  letter's changes applied once more, from the source's row. Both rows and the rest of the log are there to be
  looked at before the retry. */
  lemma RecordedRetryIsHarmlessIff(cfg: Config, s: State, i: nat, k: Key)
    requires WellFormed(s) && Enabled(cfg, s, Retry(i, true))
    ensures AllChanges(s.log, s.letters[i].positions)
    ensures On(Do(cfg, s, Retry(i, true)), s.saved, k) <==>
            Hides(Rest(s.log, s.saved), k, Fold(Lookup(s.dest, k), ChangesOf(s.log, s.letters[i].positions), k), Goal(s.log, k))
  {
    assert s.letters[i] in s.letters;
    var cs := ChangesOf(s.log, s.letters[i].positions);
    var again := Fold(Lookup(s.dest, k), cs, k);
    ApplyIsPerKey(s.dest, cs, k);
    GoalLeads(s.log, s.saved, k);
    SameAfterIffHidden(again, Goal(s.log, k), Rest(s.log, s.saved), k);
  }

  /** What the source wrote under `k` since position `p`, as far as the cursor has come. */
  function Since(s: State, p: nat, k: Key): Option<Row>
    requires p < s.saved <= |s.log|
  {
    Fold(None, Slice(s.log, p + 1, s.saved), k)
  }

  lemma TruncateForgets(s: State, p: nat, k: Key)
    requires p < s.saved <= |s.log| && s.log[p] == Carried(Empty)
    ensures Goal(s.log, k) == Fold(Since(s, p, k), Rest(s.log, s.saved), k)
  {
    var log := s.log;
    SliceConcat(log, 0, p, |log|);
    SliceConcat(log, p + 1, s.saved, |log|);
    var before, after := Slice(log, 0, p), Slice(log, p + 1, |log|);
    assert Slice(log, p, |log|) == [Empty] + after;
    FoldConcat(None, before, [Empty] + after, k);
    FoldConcat(Fold(None, before, k), [Empty], after, k);
    assert [Empty][1..] == [];
    assert Fold(Fold(None, before, k), [Empty], k) == None;
    FoldConcat(None, Slice(log, p + 1, s.saved), Rest(log, s.saved), k);
  }

  /** A truncate behind the cursor, retried: a row stays on course if and only if what the source has written there
  since, as far as the cursor has come, is nothing, or is all written over or thrown away ahead of the cursor. */
  lemma TruncateRetryIsHarmlessIff(cfg: Config, s: State, i: nat, p: nat, k: Key)
    requires WellFormed(s) && Enabled(cfg, s, Retry(i, true)) && s.letters[i].positions == [p]
    requires p < s.saved && s.log[p] == Carried(Empty)
    ensures On(Do(cfg, s, Retry(i, true)), s.saved, k) <==> Hides(Rest(s.log, s.saved), k, None, Since(s, p, k))
  {
    TruncateEmpties(cfg, s, i, p);
    TruncateForgets(s, p, k);
    SameAfterIffHidden(None, Since(s, p, k), Rest(s.log, s.saved), k);
  }

  lemma TruncateEmpties(cfg: Config, s: State, i: nat, p: nat)
    requires WellFormed(s) && Enabled(cfg, s, Retry(i, true)) && s.letters[i].positions == [p]
    requires p < |s.log| && s.log[p] == Carried(Empty)
    ensures Do(cfg, s, Retry(i, true)).dest == map[]
  {
    assert s.letters[i] in s.letters && p in [p];
    assert ChangesOf(s.log, [p]) == [Empty] && [Empty][1..] == [];
    assert Apply(s.dest, [Empty]) == Apply(ApplyOne(s.dest, Empty), []);
  }

  /** The guard one would put in front of such a retry: nothing under the key between the truncate and the cursor. */
  lemma NothingSinceIsHarmless(cfg: Config, s: State, i: nat, p: nat, k: Key)
    requires WellFormed(s) && Enabled(cfg, s, Retry(i, true)) && s.letters[i].positions == [p]
    requires p < s.saved && s.log[p] == Carried(Empty)
    requires forall q :: p < q < s.saved && IsChange(s.log, q) ==> !TouchesKey(s.log, q, k)
    ensures On(Do(cfg, s, Retry(i, true)), s.saved, k)
  {
    var cs := Slice(s.log, p + 1, s.saved);
    forall c | c in cs ensures !c.Touches(k) {
      SliceHolds(s.log, p + 1, s.saved, c);
      var q: nat :| p + 1 <= q < s.saved && IsChange(s.log, q) && s.log[q].change == c;
      assert !TouchesKey(s.log, q, k);
    }
    UntouchedKey(None, cs, k);
    TruncateRetryIsHarmlessIff(cfg, s, i, p, k);
  }

  /** Caught up, the destination is the source's table after such a retry if and only if the source is empty. */
  lemma CaughtUpTruncateRetry(cfg: Config, s: State, i: nat, p: nat)
    requires WellFormed(s) && Enabled(cfg, s, Retry(i, true)) && s.letters[i].positions == [p]
    requires p < s.saved == |s.log| && s.log[p] == Carried(Empty)
    ensures Do(cfg, s, Retry(i, true)).dest == SourceTable(s.log) <==> SourceTable(s.log) == map[]
  {
    TruncateEmpties(cfg, s, i, p);
  }
}
