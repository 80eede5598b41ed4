/** All ranks agree on the run registry after every round of scanning and synchronizing
    (src/prime_rl/trainer/runs.py:354-459; src/prime_rl/trainer/optim.py:128-129). */
module RunAgreement {
  import opened Sequences
  import opened Wrappers
  import opened Runs

  ghost predicate Agree(m: Table, t: Table) {
    && t.max == m.max && t.idxOf == m.idxOf && t.idOf == m.idOf && t.unused == m.unused
    && t.config == m.config && t.progress == m.progress && t.ready == m.ready
  }

  /** No run known on both sides has moved to another slot or changed its configuration. */
  ghost predicate Kept(t: Table, m: Table)
    requires Consistent(t) && Consistent(m)
  {
    forall r :: r in t.idxOf && r in m.idxOf ==> t.idxOf[r] == m.idxOf[r] && t.config[t.idxOf[r]] == m.config[m.idxOf[r]]
  }

  /** The table of names determines its inverse and the unused slots. */
  lemma NamesDetermine(t: Table, u: Table)
    requires Consistent(t) && Consistent(u) && t.max == u.max && t.idxOf == u.idxOf
    ensures t.idOf == u.idOf && t.unused == u.unused
  {
    forall i | i in t.idOf ensures i in u.idOf && u.idOf[i] == t.idOf[i] {
      assert u.idxOf[t.idOf[i]] == i;
    }
    forall i | i in u.idOf ensures i in t.idOf {
      assert t.idxOf[u.idOf[i]] == i;
    }
    assert t.idOf.Keys == u.idOf.Keys;
    assert forall i :: i in t.unused <==> i in u.unused;
  }

  lemma ConfigsDetermine(t: Table, u: Table)
    requires Consistent(t) && Consistent(u) && t.idxOf == u.idxOf && t.idOf == u.idOf
    requires forall r :: r in t.idxOf ==> t.config[t.idxOf[r]] == u.config[u.idxOf[r]]
    ensures t.config == u.config
  {
    forall i | i in t.config ensures i in u.config && u.config[i] == t.config[i] {
      assert t.idxOf[t.idOf[i]] == i;
    }
  }

  lemma NamesAgreeIff(t: Table, m: Table)
    requires Consistent(t) && Consistent(m)
    ensures Replayed(t.idxOf, m.idxOf) == m.idxOf <==>
      forall r :: r in t.idxOf && r in m.idxOf ==> t.idxOf[r] == m.idxOf[r]
  {
    if Replayed(t.idxOf, m.idxOf) == m.idxOf {
      forall r | r in t.idxOf && r in m.idxOf ensures t.idxOf[r] == m.idxOf[r] {
        assert Replayed(t.idxOf, m.idxOf)[r] == t.idxOf[r];
      }
    }
  }

  /** A rank that replays the master's message agrees with the master afterwards if and only if no run
      known on both sides was moved or reconfigured since the last synchronization. */
  lemma AgreesIffKept(m: Table, t: Table, u: Table)
    requires Valid(m) && Consistent(t) && t.max == m.max && Replays(t, MessageOf(m, t.idxOf), u)
    ensures Agree(m, u) <==> Kept(t, m)
  {
    NamesAgreeIff(t, m);
    if u.idxOf == m.idxOf {
      NamesDetermine(u, m);
      if Kept(t, m) {
        KeptConfigs(m, t, u);
        ConfigsDetermine(u, m);
      } else {
        assert forall r :: r in t.idxOf && r in m.idxOf ==> t.idxOf[r] == m.idxOf[r];
        var r :| r in t.idxOf && r in m.idxOf && t.config[t.idxOf[r]] != m.config[m.idxOf[r]];
        assert u.config[u.idxOf[r]] == t.config[t.idxOf[r]];
      }
    }
  }

  lemma KeptConfigs(m: Table, t: Table, u: Table)
    requires Valid(m) && Consistent(t) && Kept(t, m) && Replays(t, MessageOf(m, t.idxOf), u) && u.idxOf == m.idxOf
    ensures forall r :: r in u.idxOf ==> u.config[u.idxOf[r]] == m.config[m.idxOf[r]]
  {
  }

  /** The replay cannot fail when nothing was moved. */
  lemma KeptIsApplicable(m: Table, t: Table)
    requires Valid(m) && Consistent(t) && t.max == m.max && Kept(t, m)
    ensures Applicable(t, MessageOf(m, t.idxOf))
  {
    forall r | r in NewRuns(t.idxOf, m.idxOf) ensures m.idxOf[r] in t.unused + Freed(t.idxOf, m.idxOf) {
      var i := m.idxOf[r];
      if i in t.idOf {
        var q := t.idOf[i];
        assert t.idxOf[q] == i && m.idOf[i] == r;
        assert q in DeletedRuns(t.idxOf, m.idxOf);
      }
    }
    forall q, r | q in NewRuns(t.idxOf, m.idxOf) && r in NewRuns(t.idxOf, m.idxOf) && m.idxOf[q] == m.idxOf[r] ensures q == r {
      assert m.idOf[m.idxOf[q]] == q && m.idOf[m.idxOf[r]] == r;
    }
  }

  // ---- Rounds ----

  /** The master, the names it last synchronized, and every other rank. */
  datatype System = System(master: Table, synced: map<RunId, Slot>, ranks: seq<Table>)

  /** Training between synchronizations: progress, scaling factors and ready flags change. */
  ghost predicate Trained(t: Table, u: Table) {
    && Valid(u) && u.max == t.max && u.idxOf == t.idxOf && u.idOf == t.idOf && u.unused == t.unused && u.config == t.config
  }

  /** The tables just before the scan and the replay, and what the scan finds. */
  datatype Events = Events(master: Table, scan: bool, present: set<RunId>, configs: map<RunId, Config>, latest: map<RunId, int>,
                           ranks: seq<Table>)

  ghost predicate MasterMoves(s: System, e: Events, m: Table) {
    && Trained(s.master, e.master) && Valid(m)
    && if e.scan then Scanned(e.master, m, e.present, e.configs, e.latest) else m == e.master
  }

  ghost predicate Round(s: System, e: Events, s': System) {
    && MasterMoves(s, e, s'.master) && s'.synced == s'.master.idxOf
    && |e.ranks| == |s.ranks| == |s'.ranks|
    && forall k :: 0 <= k < |s.ranks| ==>
         Trained(s.ranks[k], e.ranks[k]) && Replays(e.ranks[k], MessageOf(s'.master, s.synced), s'.ranks[k])
  }

  ghost predicate Agreed(s: System) {
    && Valid(s.master) && s.synced == s.master.idxOf
    && forall k :: 0 <= k < |s.ranks| ==> Valid(s.ranks[k]) && Agree(s.master, s.ranks[k])
  }

  ghost predicate Starting(s: System, max: nat) {
    && Blank(s.master, max, s.master.ready) && s.synced == map[]
    && forall k :: 0 <= k < |s.ranks| ==> Blank(s.ranks[k], max, s.master.ready)
  }

  ghost predicate Blank(t: Table, max: nat, ready: seq<bool>) {
    Valid(t) && t.max == max && t.idxOf == map[] && t.ready == ready
  }

  lemma StartingAgrees(s: System, max: nat)
    requires Starting(s, max)
    ensures Agreed(s)
  {
    NothingUsed(s.master);
    forall k | 0 <= k < |s.ranks| ensures Agree(s.master, s.ranks[k]) {
      NothingUsed(s.ranks[k]);
      NamesDetermine(s.master, s.ranks[k]);
    }
  }

  lemma NothingUsed(t: Table)
    requires Valid(t) && t.idxOf == map[]
    ensures t.idOf == map[] && t.config == map[] && t.progress == map[]
  {
    assert forall i :: i !in t.idOf;
  }

  /** A single scan never moves or reconfigures a run that stays. */
  lemma OneScanKeeps(s: System, e: Events, m: Table, k: nat)
    requires Agreed(s) && MasterMoves(s, e, m) && k < |s.ranks| == |e.ranks| && Trained(s.ranks[k], e.ranks[k])
    ensures e.ranks[k].max == m.max && e.ranks[k].idxOf == s.synced && Kept(e.ranks[k], m)
  {
    assert Agree(s.master, s.ranks[k]);
    var t := e.ranks[k];
    forall r | r in t.idxOf && r in m.idxOf
      ensures t.idxOf[r] == m.idxOf[r] && t.config[t.idxOf[r]] == m.config[m.idxOf[r]]
    {
      assert r in e.master.idxOf;
    }
  }

  lemma RankAgrees(s: System, e: Events, s': System, k: nat)
    requires Agreed(s) && Round(s, e, s') && k < |s.ranks|
    ensures Valid(s'.ranks[k]) && Agree(s'.master, s'.ranks[k])
  {
    OneScanKeeps(s, e, s'.master, k);
    AgreesIffKept(s'.master, e.ranks[k], s'.ranks[k]);
  }

  /** After every round of at most one scan and a synchronization, all ranks agree again. */
  lemma RoundAgrees(s: System, e: Events, s': System)
    requires Agreed(s) && Round(s, e, s')
    ensures Agreed(s')
  {
    forall k | 0 <= k < |s'.ranks| ensures Valid(s'.ranks[k]) && Agree(s'.master, s'.ranks[k]) {
      RankAgrees(s, e, s', k);
    }
  }

  /** A run that a scan takes in starts, on every rank, at the step it is to be resumed from: 0 without one, that step if
      it is not -1, and otherwise its newest checkpoint, or 0 without one. */
  lemma NewRunStartsEverywhere(s: System, e: Events, s': System, r: RunId, k: nat)
    requires Agreed(s) && Round(s, e, s') && e.scan && k < |s.ranks| && r in s'.master.idxOf && r !in s.master.idxOf
    ensures Valid(s'.ranks[k]) && r in s'.ranks[k].idxOf && r in e.configs
    ensures var step, resume := s'.ranks[k].progress[s'.ranks[k].idxOf[r]], e.configs[r].resume;
      step == if resume == None then 0 else if resume.value != -1 then resume.value else if r in e.latest then e.latest[r] else 0
  {
    RankAgrees(s, e, s', k);
    assert IsNew(s'.master, r, e.configs, e.latest);
  }

  /** The master sends the configurations of exactly the runs that are new since the last synchronization. */
  lemma SendsNewConfigs(m: Table, synced: map<RunId, Slot>, r: RunId)
    requires Valid(m)
    ensures r in MessageOf(m, synced).newConfigs <==> r in m.idxOf && r !in synced
    ensures r in m.idxOf && r !in synced ==> MessageOf(m, synced).newConfigs[r] == m.config[m.idxOf[r]]
  {
  }

  /** After a round a rank's scaling factors are the master's, except that those of the slots freed by its own replay
      are blown up. */
  lemma RoundScales(s: System, e: Events, s': System, k: nat, i: nat)
    requires Agreed(s) && Round(s, e, s') && k < |s.ranks| && i < s'.master.max
    ensures |s'.ranks[k].scaling| == |s'.master.scaling| == s'.master.max
    ensures var t := e.ranks[k];
      s'.ranks[k].scaling[i] ==
        if i in t.idOf && t.idOf[i] !in s'.master.idxOf then 1000000.0 else s'.master.scaling[i]
  {
    OneScanKeeps(s, e, s'.master, k);
    RankAgrees(s, e, s', k);
    var t := e.ranks[k];
    assert i in Freed(t.idxOf, s'.master.idxOf) <==> i in t.idOf && t.idOf[i] !in s'.master.idxOf by {
      if i in t.idOf && t.idOf[i] !in s'.master.idxOf {
        assert t.idxOf[t.idOf[i]] == i && t.idOf[i] in DeletedRuns(t.idxOf, s'.master.idxOf);
      }
    }
  }

  /** Over any number of rounds: every rank agrees with the master, its two maps are inverse, its unused
      slots are their complement, and configurations and progress are kept for exactly the used slots. */
  lemma {:induction false} AlwaysAgreed(run: seq<System>, events: seq<Events>, max: nat)
    requires |run| == |events| + 1 && Starting(run[0], max)
    requires forall i :: 0 <= i < |events| ==> Round(run[i], events[i], run[i + 1])
    ensures forall i :: 0 <= i < |run| ==> Agreed(run[i])
  {
    if events == [] {
      StartingAgrees(run[0], max);
    } else {
      var n := |events| - 1;
      AlwaysAgreed(run[..n + 1], events[..n], max);
      assert run[..n + 1][n] == run[n];
      RoundAgrees(run[n], events[n], run[n + 1]);
    }
  }

  /** No round can fail: whatever one scan finds, every rank can replay it; and every rank makes the
      same deletion calls and the same creation calls as the master. */
  lemma RoundCannotFail(s: System, e: Events, m: Table, k: nat)
    requires Agreed(s) && MasterMoves(s, e, m) && k < |s.ranks| == |e.ranks| && Trained(s.ranks[k], e.ranks[k])
    ensures Applicable(e.ranks[k], MessageOf(m, s.synced))
    ensures DeletionCalls(e.ranks[k].idxOf, m.idxOf) == DeletionCalls(s.synced, m.idxOf)
    ensures CreationCalls(e.ranks[k].idxOf, m.idxOf) == CreationCalls(s.synced, m.idxOf)
  {
    OneScanKeeps(s, e, m, k);
    KeptIsApplicable(m, e.ranks[k]);
  }

  // ---- Two scans before one synchronization ----

  /** Slot 0 held by one run. */
  function OneRun(run: RunId, c: Config): Table {
    Table(2, map[run := 0], map[0 := run], {1}, map[0 := 0], map[0 := c], [1.0, 1.0], [false, false])
  }

  function NoRun(): Table {
    Table(2, map[], map[], {0, 1}, map[], map[], [1000000.0, 1.0], [false, false])
  }

  function TwoRuns(first: RunId, second: RunId, c: Config): Table {
    var step := if c.resume.Some? && c.resume.value != -1 then c.resume.value else 0;
    Table(2, map[first := 0, second := 1], map[0 := first, 1 := second], {}, map[0 := step, 1 := step], map[0 := c, 1 := c],
          [1000000.0, 1.0], [false, false])
  }

  lemma SmallTablesValid(a: RunId, c: Config)
    ensures Valid(OneRun(a, c)) && Valid(NoRun())
  {
  }

  lemma TwoRunsValid(a: RunId, b: RunId, c: Config)
    requires a != b
    ensures Valid(TwoRuns(b, a, c))
  {
  }

  /** The limit to one scan is needed: a run seen gone by one scan and back by the next, before any
      synchronization, can come back in another slot, and then the replay of a rank that never saw it
      go fails on the slot it still holds. */
  lemma TwoScansCanFail(a: RunId, b: RunId, c: Config)
    requires a != b
    ensures var t, gone, back := OneRun(a, c), NoRun(), TwoRuns(b, a, c);
      && Valid(t) && Scanned(t, gone, {}, map[], map[]) && Scanned(gone, back, {a, b}, map[a := c, b := c], map[])
      && !Kept(t, back) && !Applicable(t, MessageOf(back, t.idxOf))
  {
    SmallTablesValid(a, c);
    TwoRunsValid(a, b, c);
    var t, back := OneRun(a, c), TwoRuns(b, a, c);
    assert t.idxOf[a] == 0 && back.idxOf[a] == 1;
    assert b in NewRuns(t.idxOf, back.idxOf) && back.idxOf[b] == 0;
    assert 0 !in t.unused + Freed(t.idxOf, back.idxOf);
  }
}
