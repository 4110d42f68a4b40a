/** Promotion one waiter at a time comes to the closed form: the code picks the
    earliest waiter, tells it, and starts over when that costs the waiter its
    connection. */
module RegistryPromotion {
  import opened Prelude
  import opened CommandOutcomes
  import opened ControlFlights
  import opened RegistryState

  predicate FirstInLine(s: State, k: Place, rk: Key) {
    && Waits(s, k, rk)
    && forall o :: o in s.records && Waits(s, k, o) ==> s.records[rk].sequence <= s.records[o].sequence
  }

  /** The candidate is made the owner before it is told. */
  function Appointed(s: State, k: Place, rk: Key): State
    requires rk in s.records
  {
    s.(records := s.records[rk := s.records[rk].(state := Controllable)],
       ownership := s.ownership[k := rk.instanceId])
  }

  lemma AppointedOwners(s: State, k: Place, rk: Key)
    requires OwnershipExact(s) && NoneStrandedExcept(s, k) && k !in s.ownership && Waits(s, k, rk)
    ensures OwnershipExact(Appointed(s, k, rk)) && NoneStranded(Appointed(s, k, rk))
  {
    var t := Appointed(s, k, rk);
    forall p | p in t.ownership ensures Owns(t, p, Key(p.userId, t.ownership[p])) {
      if p != k {
        assert Owns(s, p, Key(p.userId, s.ownership[p]));
      }
    }
  }

  lemma AppointedKeepsInv(s: State, k: Place, rk: Key)
    requires Settling(s, k) && k !in s.ownership && Waits(s, k, rk)
    ensures Inv(Appointed(s, k, rk))
  {
    AppointedOwners(s, k, rk);
    AppointedStaysLinked(s, k, rk);
  }

  lemma AppointedStaysLinked(s: State, k: Place, rk: Key)
    requires Linked(s) && OfflineExact(s) && Sequenced(s) && Compatible(s) && StaleBounded(s) && Waits(s, k, rk)
    ensures var t := Appointed(s, k, rk);
      Linked(t) && OfflineExact(t) && Sequenced(t) && Compatible(t) && StaleBounded(t)
  {
  }

  lemma NobodyWaits(s: State, k: Place, env: Env)
    requires forall rk :: rk in s.records ==> !Waits(s, k, rk)
    ensures Promoted(s, k, env) == s
  {
    assert SkippedConnections(s, k, env) == {};
    NothingIsDropped(s, env.now);
    assert Promoted(s, k, env).records == s.records;
  }

  lemma NobodyIsSkipped(s: State, k: Place, rk: Key, env: Env)
    requires FirstInLine(s, k, rk) && env.Delivers(s.records[rk].connection.value)
    ensures Wins(s, k, rk, env) && SkippedConnections(s, k, env) == {}
    ensures forall o :: !Skipped(s, k, o, env)
  {
    forall o ensures !Skipped(s, k, o, env) {
      assert Reachable(s, k, rk, env);
    }
  }

  lemma AppointedRecords(s: State, k: Place, rk: Key, env: Env)
    requires Sequenced(s) && FirstInLine(s, k, rk) && env.Delivers(s.records[rk].connection.value)
    ensures Promoted(s, k, env).records == Appointed(s, k, rk).records
  {
    NobodyIsSkipped(s, k, rk, env);
    forall o | o in s.records ensures PromotedRecord(s, k, o, env) == Appointed(s, k, rk).records[o] {
      if Wins(s, k, o, env) {
        UniqueWinner(s, k, env, rk, o);
      }
    }
  }

  lemma AppointeeIsTold(s: State, k: Place, rk: Key, env: Env)
    requires Sequenced(s) && FirstInLine(s, k, rk) && env.Delivers(s.records[rk].connection.value)
    ensures Promoted(s, k, env) == Appointed(s, k, rk)
  {
    NobodyIsSkipped(s, k, rk, env);
    UniqueWinner(s, k, env, rk, Winner(s, k, env));
    NothingIsDropped(s, env.now);
    AppointedRecords(s, k, rk, env);
  }

  lemma NothingIsDropped(s: State, now: int)
    ensures Dropped(s, {}, now) == s
  {
    DropNothing(s.flights);
    SettledElsewhere(s.outcomes, {}, ResultUnknown, now);
    assert s.connections - {} == s.connections;
    assert Dropped(s, {}, now).tunnels == s.tunnels;
  }

  // ------------------------------------------------- the candidate was lost

  /** The registry once the first in line has lost its connection. */
  function Passed(s: State, rk: Key, env: Env): State
    requires rk in s.records && s.records[rk].connection.Some?
  {
    Dropped(s, {s.records[rk].connection.value}, env.now).(records := s.records[rk := Offlined(s.records[rk])])
  }

  lemma AppointeeIsVacated(s: State, k: Place, rk: Key, env: Env)
    requires k !in s.ownership && Waits(s, k, rk)
    ensures Vacated(Appointed(s, k, rk), s.records[rk].connection.value, rk, env) == Passed(s, rk, env)
  {
    var a := Appointed(s, k, rk);
    assert PlaceOf(rk, a.records[rk]) == k && Owns(a, k, rk);
    assert a.ownership - {k} == s.ownership;
    assert a.records[rk := Offlined(a.records[rk])] == s.records[rk := Offlined(s.records[rk])];
  }

  lemma AppointeeIsLost(s: State, k: Place, rk: Key, env: Env)
    requires Linked(s) && k !in s.ownership && Waits(s, k, rk)
    ensures Disconnected(Appointed(s, k, rk), s.records[rk].connection.value, env)
      == Promoted(Passed(s, rk, env), k, env)
  {
    AppointeeIsVacated(s, k, rk, env);
    assert RecordOf(Appointed(s, k, rk), s.records[rk].connection.value) == Some(rk);
  }

  lemma PassedWaiters(s: State, k: Place, rk: Key, env: Env, o: Key)
    requires FirstInLine(s, k, rk)
    ensures Waits(Passed(s, rk, env), k, o) <==> Waits(s, k, o) && o != rk
    ensures o in s.records && o != rk ==> Passed(s, rk, env).records[o] == s.records[o]
  {
  }

  lemma PassedChoice(s: State, k: Place, rk: Key, env: Env, o: Key)
    requires Sequenced(s) && FirstInLine(s, k, rk) && !env.Delivers(s.records[rk].connection.value)
    ensures Wins(Passed(s, rk, env), k, o, env) <==> Wins(s, k, o, env)
    ensures Skipped(Passed(s, rk, env), k, o, env) <==> Skipped(s, k, o, env) && o != rk
    ensures Skipped(s, k, rk, env)
  {
    var v := Passed(s, rk, env);
    forall x ensures Reachable(v, k, x, env) <==> Reachable(s, k, x, env) {
      PassedWaiters(s, k, rk, env, x);
    }
    PassedWaiters(s, k, rk, env, o);
  }

  lemma PassedLosses(s: State, k: Place, rk: Key, env: Env)
    requires Sequenced(s) && FirstInLine(s, k, rk) && !env.Delivers(s.records[rk].connection.value)
    ensures {s.records[rk].connection.value} + SkippedConnections(Passed(s, rk, env), k, env)
      == SkippedConnections(s, k, env)
  {
    var v := Passed(s, rk, env);
    forall o ensures Skipped(v, k, o, env) <==> Skipped(s, k, o, env) && o != rk {
      PassedChoice(s, k, rk, env, o);
    }
    PassedChoice(s, k, rk, env, rk);
    SameSkipped(s, v, k, rk, env);
  }

  lemma SameSkipped(s: State, v: State, k: Place, rk: Key, env: Env)
    requires Skipped(s, k, rk, env)
    requires v.records == s.records[rk := Offlined(s.records[rk])]
    requires forall o :: Skipped(v, k, o, env) <==> Skipped(s, k, o, env) && o != rk
    ensures {s.records[rk].connection.value} + SkippedConnections(v, k, env) == SkippedConnections(s, k, env)
  {
    var l, r := {s.records[rk].connection.value} + SkippedConnections(v, k, env), SkippedConnections(s, k, env);
    forall c | c in r ensures c in l {
      var o :| o in s.records && Skipped(s, k, o, env) && s.records[o].connection.value == c;
      assert o == rk || Skipped(v, k, o, env);
    }
    forall c | c in SkippedConnections(v, k, env) ensures c in r {
      var o :| o in v.records && Skipped(v, k, o, env) && v.records[o].connection.value == c;
      assert Skipped(s, k, o, env);
    }
  }

  lemma PassedRecords(s: State, k: Place, rk: Key, env: Env)
    requires Sequenced(s) && FirstInLine(s, k, rk) && !env.Delivers(s.records[rk].connection.value)
    ensures Promoted(Passed(s, rk, env), k, env).records == Promoted(s, k, env).records
  {
    var l, r := Promoted(Passed(s, rk, env), k, env).records, Promoted(s, k, env).records;
    assert l.Keys == r.Keys;
    forall o | o in s.records ensures l[o] == r[o] {
      PassedChoice(s, k, rk, env, o);
    }
  }

  lemma PassedOwner(s: State, k: Place, rk: Key, env: Env)
    requires Sequenced(s) && FirstInLine(s, k, rk) && !env.Delivers(s.records[rk].connection.value)
    ensures Promoted(Passed(s, rk, env), k, env).ownership == Promoted(s, k, env).ownership
  {
    PassedWinners(s, k, rk, env);
    SameWinnerSameOwner(s, Passed(s, rk, env), k, env);
  }

  lemma SameWinnerSameOwner(s: State, v: State, k: Place, env: Env)
    requires Sequenced(s) && v.ownership == s.ownership
    requires forall o :: Wins(v, k, o, env) <==> Wins(s, k, o, env)
    requires Won(v, k, env) <==> Won(s, k, env)
    ensures Promoted(v, k, env).ownership == Promoted(s, k, env).ownership
  {
    if Won(s, k, env) {
      UniqueWinner(s, k, env, Winner(s, k, env), Winner(v, k, env));
    }
  }

  lemma PassedWinners(s: State, k: Place, rk: Key, env: Env)
    requires Sequenced(s) && FirstInLine(s, k, rk) && !env.Delivers(s.records[rk].connection.value)
    ensures forall o :: Wins(Passed(s, rk, env), k, o, env) <==> Wins(s, k, o, env)
    ensures Won(Passed(s, rk, env), k, env) <==> Won(s, k, env)
  {
    var v := Passed(s, rk, env);
    forall o ensures Wins(v, k, o, env) <==> Wins(s, k, o, env) {
      PassedChoice(s, k, rk, env, o);
    }
    assert v.records.Keys == s.records.Keys;
  }

  /** Promoting after the first in line was lost is promoting from the start. */
  lemma StartingOverIsPromoting(s: State, k: Place, rk: Key, env: Env)
    requires Settling(s, k) && k !in s.ownership && FirstInLine(s, k, rk)
    requires !env.Delivers(s.records[rk].connection.value)
    ensures Disconnected(Appointed(s, k, rk), s.records[rk].connection.value, env) == Promoted(s, k, env)
  {
    AppointeeIsLost(s, k, rk, env);
    PassedLosses(s, k, rk, env);
    PassedRecords(s, k, rk, env);
    PassedOwner(s, k, rk, env);
    DroppedTwice(s, {s.records[rk].connection.value}, SkippedConnections(Passed(s, rk, env), k, env), env.now);
  }
}
