/** How the restore tokens reach the settings file: the flag of a changed token is taken by a save whether or
    not that save is stored. */
module StartTokens {
  import opened StartProtocol
  import P = PortalSession

  function FlagOf(changes: Changes, source: P.Source): bool {
    if source == P.Window then changes.window else changes.screen
  }

  /** The turn `k` is a save that found the source's token changed. */
  ghost predicate Finds(s: System, turns: seq<Turn>, k: nat, source: P.Source) {
    && k < |turns| && turns[k].TakeChanges?
    && Runs(s, turns[..k]) && FlagOf(After(s, turns[..k]).rec.changes, source)
  }

  /** The last save that found it changed was the turn `k`, and was not stored. */
  ghost predicate MissedBy(s: System, turns: seq<Turn>, k: nat, source: P.Source) {
    Finds(s, turns, k, source) && !turns[k].stores && forall j | k < j :: !Finds(s, turns, j, source)
  }

  lemma {:induction false} TakingLeavesMissed(s: System, opens: bool)
    ensures TakeAnswers(s, opens).missed == s.missed
    decreases |s.answers|
  {
    if s.answers != [] {
      TakingLeavesMissed(Continue(s.(answers := s.answers[1..]), s.answers[0], opens), opens);
    }
  }

  /** Only a save makes a token missed, or makes up for it. */
  lemma TurnMisses(s: System, t: Turn, source: P.Source)
    requires Enabled(s, t)
    ensures FlagOf(Apply(s, t).missed, source)
         == if t.TakeChanges? && FlagOf(s.rec.changes, source) then !t.stores else FlagOf(s.missed, source)
  {
    match t
    case DoUpdateRecorder(opens) => TakingLeavesMissed(s, opens);
    case _ =>
  }

  lemma FindsBefore(s: System, before: seq<Turn>, t: Turn, k: nat, source: P.Source)
    ensures k < |before| ==> (Finds(s, before + [t], k, source) <==> Finds(s, before, k, source))
    ensures Runs(s, before) ==>
              (Finds(s, before + [t], |before|, source)
               <==> t.TakeChanges? && FlagOf(After(s, before).rec.changes, source))
    ensures k > |before| ==> !Finds(s, before + [t], k, source)
  {
    assert (before + [t])[..|before|] == before;
    if k < |before| {
      assert (before + [t])[..k] == before[..k];
    }
  }

  lemma MissedBefore(s: System, before: seq<Turn>, t: Turn, k: nat, source: P.Source)
    requires Runs(s, before)
    ensures var found := t.TakeChanges? && FlagOf(After(s, before).rec.changes, source);
            && (found ==> (MissedBy(s, before + [t], k, source) <==> k == |before| && !t.stores))
            && (!found ==> (MissedBy(s, before + [t], k, source) <==> MissedBy(s, before, k, source)))
  {
    forall j: nat
      ensures j < |before| ==> (Finds(s, before + [t], j, source) <==> Finds(s, before, j, source))
      ensures j > |before| ==> !Finds(s, before + [t], j, source)
      ensures Finds(s, before + [t], |before|, source)
         <==> t.TakeChanges? && FlagOf(After(s, before).rec.changes, source)
    {
      FindsBefore(s, before, t, j, source);
    }
  }

  /** Over every run: a token is missed exactly when the last save that found it changed was not stored. */
  lemma {:induction false} MissedExactlyWhen(b: Beginning, turns: seq<Turn>, source: P.Source)
    requires Runs(First(b), turns)
    ensures FlagOf(After(First(b), turns).missed, source) <==> exists k :: MissedBy(First(b), turns, k, source)
    decreases |turns|
  {
    var s := First(b);
    if turns != [] {
      var before, t := turns[..|turns| - 1], turns[|turns| - 1];
      assert turns == before + [t];
      RunsSnoc(s, before, t);
      MissedExactlyWhen(b, before, source);
      TurnMisses(After(s, before), t, source);
      MissedBefore(s, before, t, |before|, source);
      if k: nat :| MissedBy(s, turns, k, source) {
        MissedBefore(s, before, t, k, source);
      }
      if k: nat :| MissedBy(s, before, k, source) {
        MissedBefore(s, before, t, k, source);
      }
    }
  }

  /** Over every run: the settings file has the recorder's token, unless the token's change is yet to be taken,
      or the last save that took it was not stored. */
  lemma TokenIsInTheFile(b: Beginning, turns: seq<Turn>, source: P.Source)
    requires Runs(First(b), turns)
    ensures var s := After(First(b), turns);
            TokenOf(s.saved, source) == TokenOf(s.rec.tokens, source)
            || FlagOf(s.rec.changes, source)
            || exists k :: MissedBy(First(b), turns, k, source)
  {
    RunKeeps(b, turns);
    MissedExactlyWhen(b, turns, source);
  }

  /** And then it need not: a start of a window that is not remembered clears the window's token, the save that
      takes the change is not stored, the next one is -- and the old token is still in the file, with nothing
      left to say so. */
  lemma FailedSaveForgetsTheChange(b: Beginning)
    requires b.canRecord && b.hasPortal && b.source == OneWindow && !b.rememberWindow && b.loaded.window != ""
    ensures var turns := [DoToggle(true, false, 0), TakeChanges(false), TakeChanges(true)];
            && Runs(First(b), turns)
            && var s := After(First(b), turns);
               && s.rec.tokens.window == "" && s.saved.window == b.loaded.window
               && s.rec.changes == Changes(false, false)
  {
    var s0 := First(b);
    var s1 := Apply(s0, DoToggle(true, false, 0));
    assert s1.rec.tokens.window == "" && s1.rec.changes == Changes(false, true) && s1.saved == b.loaded;
    var turns := [DoToggle(true, false, 0), TakeChanges(false), TakeChanges(true)];
    assert turns[1..] == [TakeChanges(false), TakeChanges(true)] && turns[1..][1..] == [TakeChanges(true)];
    assert turns[1..][1..][1..] == [];
    var s2 := Apply(s1, TakeChanges(false));
    assert After(s1, turns[1..]) == After(s2, [TakeChanges(true)]) == After(Apply(s2, TakeChanges(true)), []);
  }
}
