/** What holds of the find protocol in every interleaving of keys, workers and
    drains, and exactly where its comments promise more than it does. */
module SearchSafety {
  import opened Prelude
  import opened DirSource
  import opened Search

  // ---- whose results a pane shows ----

  /** The results are the ranked arrivals, and the recorded generation is the one
      they came with. */
  ghost predicate Sourced(p: PaneSearch, launches: nat) {
    && p.results == RankHits(HitsOf(p.arrived))
    && (forall a | a in p.arrived :: 1 <= a.0 <= launches)
    && (p.arrived != [] ==> p.resultsGen == Some(p.arrived[|p.arrived| - 1].0 % GENERATIONS))
  }

  function HitsOf(arrived: seq<(nat, Hit)>): (r: seq<Hit>)
    ensures |r| == |arrived|
    ensures forall i | 0 <= i < |r| :: r[i] == arrived[i].1
  {
    seq(|arrived|, i requires 0 <= i < |arrived| => arrived[i].1)
  }

  ghost predicate OneLaunch(p: PaneSearch) {
    forall a, b | a in p.arrived && b in p.arrived :: a.0 == b.0
  }

  /** The receiver, the cancel flag and the recorded side stand and fall together
      and belong to the last launch; all it buffered was sent by that launch. */
  ghost predicate Attached(rx: Option<Receiver>, cancelFlag: bool, side: Option<Side>, gen: nat, launched: seq<Side>) {
    && gen == |launched| % GENERATIONS
    && (rx.Some? <==> cancelFlag) && (rx.Some? <==> side.Some?)
    && (rx.Some? ==> launched != [] && rx.value.launch == |launched| && side == Some(launched[|launched| - 1])
                     && forall e | e in rx.value.buffer :: e.launch == |launched| && e.gen == gen)
  }

  /** What waits in the channel is the last part of what was sent, and nothing
      follows `Finished`. */
  predicate Heard(rx: Option<Receiver>, said: seq<Kind>) {
    && (forall i | 0 <= i < |said| - 1 :: !said[i].Finished?)
    && (rx.Some? ==>
          var buffer := rx.value.buffer;
          && |buffer| <= |said|
          && forall i | 0 <= i < |buffer| :: buffer[i].kind == said[|said| - |buffer| + i])
  }

  ghost predicate Inv(s: State) {
    && Heard(s.rx, s.said)
    && Attached(s.rx, s.cancelFlag, s.side, s.gen, s.launched)
    && (s.local.Some? ==> Sourced(s.local.value, |s.launched|))
    && (s.remote.Some? ==> Sourced(s.remote.value, |s.launched|))
  }

  // ---- incremental ranking ----

  ghost predicate Ranked(hits: seq<Hit>) {
    forall i, j | 0 <= i < j < |hits| :: !HitBefore(hits[j], hits[i])
  }

  lemma {:induction false} InsertAtEnd(hits: seq<Hit>, x: Hit)
    requires forall y | y in hits :: !HitBefore(x, y)
    ensures InsertHit(hits, x) == hits + [x]
  {
    if hits != [] {
      InsertAtEnd(hits[1..], x);
      assert hits == [hits[0]] + hits[1..];
    }
  }

  lemma {:induction false} RankedStays(hits: seq<Hit>)
    requires Ranked(hits)
    ensures RankHits(hits) == hits
  {
    if hits != [] {
      var init, x := hits[..|hits| - 1], hits[|hits| - 1];
      RankedStays(init);
      forall y | y in init ensures !HitBefore(x, y) {
        var i :| 0 <= i < |init| && init[i] == y;
        assert hits[i] == y;
      }
      InsertAtEnd(init, x);
      assert hits == init + [x];
    }
  }

  lemma {:induction false} PartsTransitive(a: seq<string>, b: seq<string>, c: seq<string>)
    requires PartsLess(a, b) && PartsLess(b, c)
    ensures PartsLess(a, c)
  {
    if a != [] {
      if LexLess(a[0], b[0]) && LexLess(b[0], c[0]) {
        LexTransitive(a[0], b[0], c[0]);
      }
      LexIrreflexive(a[0]);
      if a[0] == b[0] == c[0] {
        PartsTransitive(a[1..], b[1..], c[1..]);
      }
    }
  }

  lemma BeforeTransitive(a: Hit, b: Hit, c: Hit)
    requires HitBefore(a, b) && HitBefore(b, c)
    ensures HitBefore(a, c)
  {
    if a.path.rooted == b.path.rooted == c.path.rooted && PartsLess(a.path.parts, b.path.parts)
       && PartsLess(b.path.parts, c.path.parts) {
      PartsTransitive(a.path.parts, b.path.parts, c.path.parts);
    }
  }

  lemma {:induction false} PartsTotal(a: seq<string>, b: seq<string>)
    ensures a == b || PartsLess(a, b) || PartsLess(b, a)
  {
    if a != [] && b != [] {
      LexTotal(a[0], b[0]);
      if a[0] == b[0] {
        PartsTotal(a[1..], b[1..]);
        assert a == [a[0]] + a[1..] && b == [b[0]] + b[1..];
      }
    }
  }

  lemma {:induction false} PartsAsymmetric(a: seq<string>, b: seq<string>)
    requires PartsLess(a, b)
    ensures !PartsLess(b, a)
  {
    if a != [] {
      if LexLess(a[0], b[0]) && LexLess(b[0], a[0]) {
        LexTransitive(a[0], b[0], a[0]);
        LexIrreflexive(a[0]);
      }
      LexIrreflexive(a[0]);
      if a[0] == b[0] {
        PartsAsymmetric(a[1..], b[1..]);
      }
    }
  }

  lemma BeforeAsymmetric(a: Hit, b: Hit)
    requires HitBefore(a, b)
    ensures !HitBefore(b, a)
  {
    if PartsLess(a.path.parts, b.path.parts) { PartsAsymmetric(a.path.parts, b.path.parts); }
  }

  /** Not being before is transitive too: the order compares by keys. */
  lemma NotBeforeTransitive(x: Hit, y: Hit, z: Hit)
    requires HitBefore(x, y) && !HitBefore(z, y)
    ensures !HitBefore(z, x)
  {
    if HitBefore(z, x) {
      BeforeTransitive(z, x, y);
    }
  }

  lemma {:induction false} InsertKeepsRanked(hits: seq<Hit>, x: Hit)
    requires Ranked(hits)
    ensures Ranked(InsertHit(hits, x))
    ensures multiset(InsertHit(hits, x)) == multiset(hits) + multiset{x}
  {
    hide HitBefore;
    if hits != [] {
      var rest := hits[1..];
      assert hits == [hits[0]] + rest;
      if HitBefore(x, hits[0]) {
        forall y | y in hits ensures !HitBefore(y, x) {
          var i :| 0 <= i < |hits| && hits[i] == y;
          if i == 0 { BeforeAsymmetric(x, y); } else { NotBeforeTransitive(x, hits[0], y); }
        }
        RankedCons(x, hits);
      } else {
        InsertKeepsRanked(rest, x);
        var r := InsertHit(rest, x);
        forall y | y in r ensures !HitBefore(y, hits[0]) {
          assert y in multiset(r);
          if y != x {
            assert y in rest;
            var i :| 0 <= i < |rest| && rest[i] == y;
            assert hits[i + 1] == y;
          }
        }
        RankedCons(hits[0], r);
      }
    }
  }

  lemma RankedCons(x: Hit, r: seq<Hit>)
    requires Ranked(r) && forall y | y in r :: !HitBefore(y, x)
    ensures Ranked([x] + r)
  {
    hide HitBefore;
    var u := [x] + r;
    forall i, j | 0 <= i < j < |u| ensures !HitBefore(u[j], u[i]) {
      assert u[j] == r[j - 1] && r[j - 1] in r;
      if i > 0 { assert u[i] == r[i - 1]; }
    }
  }

  /** The list is always in order and holds exactly the hits. */
  lemma {:induction false} RankHitsRanks(hits: seq<Hit>)
    ensures Ranked(RankHits(hits)) && multiset(RankHits(hits)) == multiset(hits)
  {
    if hits != [] {
      var init := hits[..|hits| - 1];
      RankHitsRanks(init);
      InsertKeepsRanked(RankHits(init), hits[|hits| - 1]);
      assert hits == init + [hits[|hits| - 1]];
    }
  }

  /** Re-ranking after every single arrival gives what one stable sort of all
      arrivals would give. */
  lemma IncrementalRankIsBatch(hits: seq<Hit>, x: Hit)
    ensures RankHits(RankHits(hits) + [x]) == RankHits(hits + [x])
  {
    RankHitsRanks(hits);
    RankedStays(RankHits(hits));
    assert (RankHits(hits) + [x])[..|RankHits(hits)|] == RankHits(hits);
    assert (hits + [x])[..|hits|] == hits;
  }

  // ---- one event ----

  lemma AbsorbKeepsSourced(p: PaneSearch, ev: Event, launches: nat)
    requires Sourced(p, launches) && 1 <= ev.launch <= launches && ev.gen == ev.launch % GENERATIONS
    ensures Sourced(Absorb(p, ev), launches)
  {
    hide RankHits;
    EmptyRank();
    var q := Absorb(p, ev);
    if ev.kind.Match? {
      var base := if p.resultsGen != Some(ev.gen) then Cleared(p) else p;
      IncrementalRankIsBatch(HitsOf(base.arrived), ev.kind.hit);
      assert HitsOf(q.arrived) == HitsOf(base.arrived) + [ev.kind.hit];
    }
  }

  lemma EmptyRank()
    ensures RankHits([]) == [] && HitsOf([]) == []
  {
  }

  /** Hits of two launches mix exactly when the second carries the number of the
      first again, a whole turn of the counter later. */
  lemma AbsorbKeepsOneLaunch(p: PaneSearch, ev: Event, launches: nat)
    requires Sourced(p, launches) && OneLaunch(p) && ev.gen == ev.launch % GENERATIONS
    ensures OneLaunch(Absorb(p, ev))
            <==> !(ev.kind.Match? && p.arrived != [] && p.arrived[0].0 != ev.launch
                   && p.arrived[0].0 % GENERATIONS == ev.launch % GENERATIONS)
  {
    hide RankHits;
    var q := Absorb(p, ev);
    if p.arrived != [] {
      assert p.arrived[0] in p.arrived && p.arrived[|p.arrived| - 1] in p.arrived;
      if ev.kind.Match? {
        assert q.arrived[|q.arrived| - 1] in q.arrived;
        if p.resultsGen == Some(ev.gen) {
          assert q.arrived[0] == p.arrived[0] && q.arrived[0] in q.arrived;
        }
      }
    }
  }

  ghost predicate CursorInRange(p: PaneSearch) {
    p.cursor < DisplayLen(p) || (p.cursor == 0 && DisplayLen(p) == 0)
  }

  /** An event loses the cursor exactly when a second drilled directory takes the
      "." row away from under a cursor on the last row. */
  lemma AbsorbKeepsCursor(p: PaneSearch, ev: Event)
    requires CursorInRange(p)
    ensures CursorInRange(Absorb(p, ev))
            <==> !(ev.kind.Drilled? && p.resultsGen == Some(ev.gen) && p.currentDir.Some?
                   && p.cursor == |p.results| && p.cursor > 0)
  {
    hide RankHits;
    var q := if p.resultsGen != Some(ev.gen) then Cleared(p) else p;
    if ev.kind.Match? {
      RankHitsRanks(q.results + [ev.kind.hit]);
      SameSize(RankHits(q.results + [ev.kind.hit]), q.results + [ev.kind.hit]);
    }
  }

  lemma SameSize(a: seq<Hit>, b: seq<Hit>)
    requires multiset(a) == multiset(b)
    ensures |a| == |b|
  {
    assert |multiset(a)| == |a| && |multiset(b)| == |b|;
  }

  // ---- every step ----

  ghost predicate PanesSourced(s: State) {
    && (s.local.Some? ==> Sourced(s.local.value, |s.launched|))
    && (s.remote.Some? ==> Sourced(s.remote.value, |s.launched|))
  }

  lemma {:induction false} ApplyAllKeeps(s: State, side: Side, events: seq<Event>)
    requires PanesSourced(s) && s.gen == |s.launched| % GENERATIONS && s.launched != []
    requires forall e | e in events :: e.launch == |s.launched| && e.gen == s.gen
    ensures var t := ApplyAll(s, side, events);
            && PanesSourced(t)
            && t == (match side case LocalSide => s.(local := t.local) case RemoteSide => s.(remote := t.remote))
    decreases |events|
  {
    hide Sourced, Absorb;
    if events != [] {
      var e := events[0];
      assert e in events;
      var p := PaneOf(s, side);
      if p.Some? {
        AbsorbKeepsSourced(p.value, e, |s.launched|);
      }
      ApplyAllKeeps(ApplySearchEvent(s, side, e), side, events[1..]);
    }
  }

  lemma DrainKeeps(s: State)
    requires Inv(s)
    ensures Inv(DrainEvents(s))
  {
    hide Sourced, ApplyAll;
    if s.rx.Some? {
      var t := s.(rx := if s.cancelFlag then Some(s.rx.value.(buffer := [])) else None);
      ApplyAllKeeps(t, s.side.value, s.rx.value.buffer);
    }
  }

  /** Flags, cursor and error of a pane do not touch where its results came from. */
  lemma SourcedLater(p: PaneSearch, q: PaneSearch, n: nat, m: nat)
    requires Sourced(p, n) && n <= m
    requires q.results == p.results && q.arrived == p.arrived && q.resultsGen == p.resultsGen
    ensures Sourced(q, m)
  {
  }

  lemma LaunchKeeps(s: State, side: Side)
    requires Inv(s)
    ensures Inv(Launch(s, side))
  {
    hide Sourced;
    var t := Launch(s, side);
    NextGeneration(|s.launched|);
    if s.local.Some? { SourcedLater(s.local.value, t.local.value, |s.launched|, |t.launched|); }
    if s.remote.Some? { SourcedLater(s.remote.value, t.remote.value, |s.launched|, |t.launched|); }
  }

  lemma NextGeneration(n: nat)
    ensures (n % GENERATIONS + 1) % GENERATIONS == (n + 1) % GENERATIONS
  {
  }

  lemma EmptyIsSourced(n: nat)
    ensures Sourced(EmptySearch(), n)
  {
  }

  lemma RequestKeeps(s: State, side: Side, query: string, parsed: Parsed, cwd: Path)
    requires Inv(s)
    ensures Inv(SearchRequest(s, side, query, parsed, cwd))
  {
    hide Sourced, IsFilter, Attached;
    var n := |s.launched|;
    EmptyIsSourced(n);
    var t := SearchRequest(s, side, query, parsed, cwd);
    var p := match PaneOf(s, side) case Some(p) => p case None => EmptySearch();
    if PaneOf(t, side).Some? { SourcedLater(p, PaneOf(t, side).value, n, n); }
  }

  lemma MoveKeeps(s: State, side: Side, delta: int)
    requires Inv(s)
    ensures Inv(Next(s, Move(side, delta)))
  {
    hide Sourced, Attached;
    var p := PaneOf(s, side);
    if p.Some? { SourcedLater(p.value, MoveCursor(p.value, delta), |s.launched|, |s.launched|); }
  }

  lemma NextKeepsInv(s: State, step: Step)
    requires Inv(s)
    ensures Inv(Next(s, step))
  {
    hide Sourced, DrainEvents, Launch, SearchRequest, MoveCursor;
    match step
    case Drain => DrainKeeps(s);
    case Fire(elapsed) => if s.pending.Some? { LaunchKeeps(s, s.pending.value.0); }
    case Request(side, query, parsed, cwd) => RequestKeeps(s, side, query, parsed, cwd);
    case Move(side, delta) => MoveKeeps(s, side, delta);
    case Cancel(_) =>
    case Jump(_) =>
    case Worker(_, _) =>
  }

  lemma {:induction false} RunKeepsInv(steps: seq<Step>)
    ensures Inv(Run(Init(), steps))
    decreases |steps|
  {
    hide Next;
    if steps == [] {
    } else {
      RunKeepsInv(steps[..|steps| - 1]);
      NextKeepsInv(Run(Init(), steps[..|steps| - 1]), steps[|steps| - 1]);
    }
  }

  // ---- stale results never paint ----

  /** A drain changes a pane only with events of the last search launched, never
      cancelled since, and launched for that pane. The counter may wrap: each
      launch has a channel of its own. */
  lemma OnlyLatestSearchPaints(steps: seq<Step>, which: Side)
    ensures var s := Run(Init(), steps);
            PaneOf(DrainEvents(s), which) != PaneOf(s, which) ==>
              && s.cancelFlag && s.rx.Some?
              && s.launched != [] && s.launched[|s.launched| - 1] == which
              && forall e | e in s.rx.value.buffer :: e.launch == |s.launched|
  {
    hide Run, Sourced, ApplyAll;
    RunKeepsInv(steps);
    var s := Run(Init(), steps);
    if s.rx.Some? {
      var t := s.(rx := if s.cancelFlag then Some(s.rx.value.(buffer := [])) else None);
      ApplyAllKeeps(t, s.side.value, s.rx.value.buffer);
    }
  }

  ghost predicate Unmixed(s: State) {
    (s.local.Some? ==> OneLaunch(s.local.value)) && (s.remote.Some? ==> OneLaunch(s.remote.value))
  }

  lemma {:induction false} ApplyAllUnmixed(s: State, side: Side, events: seq<Event>)
    requires PanesSourced(s) && Unmixed(s) && s.gen == |s.launched| % GENERATIONS && 1 <= |s.launched| <= GENERATIONS
    requires forall e | e in events :: e.launch == |s.launched| && e.gen == s.gen
    ensures Unmixed(ApplyAll(s, side, events))
    decreases |events|
  {
    hide Absorb, OneLaunch, Sourced;
    if events != [] {
      var e := events[0];
      assert e in events;
      var p := PaneOf(s, side);
      if p.Some? {
        if p.value.arrived != [] { FirstTurn(p.value, |s.launched|); }
        AbsorbKeepsOneLaunch(p.value, e, |s.launched|);
        AbsorbKeepsSourced(p.value, e, |s.launched|);
      }
      ApplyAllUnmixed(ApplySearchEvent(s, side, e), side, events[1..]);
    }
  }

  lemma FirstTurn(p: PaneSearch, n: nat)
    requires Sourced(p, n) && n <= GENERATIONS && p.arrived != []
    ensures p.arrived[0].0 % GENERATIONS == n % GENERATIONS ==> p.arrived[0].0 == n
  {
    assert p.arrived[0] in p.arrived;
  }

  lemma DrainUnmixed(s: State)
    requires Inv(s) && Unmixed(s) && |s.launched| <= GENERATIONS
    ensures Unmixed(DrainEvents(s))
  {
    hide Sourced, ApplyAll, OneLaunch;
    if s.rx.Some? {
      var t := s.(rx := if s.cancelFlag then Some(s.rx.value.(buffer := [])) else None);
      ApplyAllUnmixed(t, s.side.value, s.rx.value.buffer);
    }
  }

  lemma NextUnmixed(s: State, step: Step)
    requires Inv(s) && Unmixed(s) && |s.launched| <= GENERATIONS
    ensures Unmixed(Next(s, step))
  {
    hide Inv, DrainEvents, IsFilter, MoveCursor;
    if step.Drain? {
      DrainUnmixed(s);
    }
  }

  lemma LaunchesGrow(s: State, step: Step)
    ensures s.launched <= Next(s, step).launched
  {
    hide ApplyAll;
    if step.Drain? && s.rx.Some? && s.side.Some? {
      var t := s.(rx := if s.cancelFlag then Some(s.rx.value.(buffer := [])) else None);
      ApplyAllLaunched(t, s.side.value, s.rx.value.buffer);
    }
  }

  lemma {:induction false} ApplyAllLaunched(s: State, side: Side, events: seq<Event>)
    ensures ApplyAll(s, side, events).launched == s.launched
    ensures ApplyAll(s, side, events).pending == s.pending
    decreases |events|
  {
    hide Absorb;
    if events != [] {
      ApplyAllLaunched(ApplySearchEvent(s, side, events[0]), side, events[1..]);
    }
  }

  /** Within one turn of the 32-bit counter a pane never shows hits of two
      searches together. */
  lemma {:induction false} ResultsComeFromOneLaunch(steps: seq<Step>)
    requires |Run(Init(), steps).launched| <= GENERATIONS
    ensures Unmixed(Run(Init(), steps))
    decreases |steps|
  {
    hide Next, Inv, OneLaunch;
    if steps != [] {
      var init := steps[..|steps| - 1];
      var s := Run(Init(), init);
      LaunchesGrow(s, steps[|steps| - 1]);
      ResultsComeFromOneLaunch(init);
      RunKeepsInv(init);
      NextUnmixed(s, steps[|steps| - 1]);
    }
  }

  // ---- the wrap, as a run ----

  function FindStep(side: Side): Step {
    Request(side, "a/b", Parsed(Path(false, []), ["a", "b"], false), Path(false, []))
  }

  /** `k` searches in a row on the remote pane. */
  function RemoteFinds(k: nat): seq<Step> {
    if k == 0 then [] else RemoteFinds(k - 1) + [FindStep(RemoteSide), Fire(80)]
  }

  lemma {:induction false} RunAppend(s: State, a: seq<Step>, b: seq<Step>)
    ensures Run(s, a + b) == Run(Run(s, a), b)
    decreases |b|
  {
    hide Next;
    if b == [] {
      assert a + b == a;
    } else {
      RunAppend(s, a, b[..|b| - 1]);
      assert (a + b)[..|a + b| - 1] == a + b[..|b| - 1];
    }
  }

  lemma RunTwo(s: State, a: Step, b: Step)
    ensures Run(s, [a, b]) == Next(Next(s, a), b)
  {
    hide Next;
    assert [a, b][..1] == [a] && [a][..0] == [];
    assert Run(s, [a]) == Next(Run(s, []), a);
  }

  lemma OpenFind(s: State, side: Side)
    ensures var t := Next(Next(s, FindStep(side)), Fire(80));
            && t.rx == Some(Receiver(|s.launched| + 1, [])) && t.cancelFlag && t.side == Some(side)
            && t.gen == (s.gen + 1) % GENERATIONS && t.said == [] && t.pending.None?
            && t.launched == s.launched + [side]
            && PaneOf(t, side).Some?
            && (PaneOf(s, side).None? ==> PaneOf(t, side).value == EmptySearch())
            && forall which :: PaneOf(s, which).Some? ==>
                 PaneOf(t, which).Some? && SameHits(PaneOf(s, which).value, PaneOf(t, which).value)
  {
    assert Next(s, FindStep(side)).pending == Some((side, FindStep(side).parsed));
  }

  predicate SameHits(p: PaneSearch, q: PaneSearch) {
    && q.arrived == p.arrived && q.results == p.results && q.resultsGen == p.resultsGen
    && q.cursor == p.cursor && q.currentDir == p.currentDir
  }

  lemma {:induction false} RemoteFindsLaunch(s: State, k: nat)
    requires s.local.Some?
    ensures var t := Run(s, RemoteFinds(k));
            && |t.launched| == |s.launched| + k
            && t.local.Some? && SameHits(s.local.value, t.local.value)
  {
    hide Next, FindStep;
    if k > 0 {
      RemoteFindsLaunch(s, k - 1);
      var t := Run(s, RemoteFinds(k - 1));
      assert PaneOf(t, LocalSide) == t.local;
      RunAppend(s, RemoteFinds(k - 1), [FindStep(RemoteSide), Fire(80)]);
      RunTwo(t, FindStep(RemoteSide), Fire(80));
      OpenFind(t, RemoteSide);
      assert PaneOf(Run(s, RemoteFinds(k)), LocalSide) == Run(s, RemoteFinds(k)).local;
    }
  }

  /** A search on the local pane that finds one hit. */
  function LocalFind(n: nat, hit: Hit): seq<Step> {
    [FindStep(LocalSide), Fire(80)] + [Worker(n, Match(hit)), Drain]
  }

  /** One hit arrives and is drained. */
  lemma OneHitShows(u: State, n: nat, hit: Hit)
    requires u.rx == Some(Receiver(n, [])) && u.side == Some(LocalSide) && u.gen == n % GENERATIONS && u.cancelFlag
    requires u.said == []
    requires u.local.Some?
    ensures var t := Run(u, [Worker(n, Match(hit)), Drain]);
            && t.launched == u.launched && t.local.Some?
            && t.local.value.arrived ==
                 (if u.local.value.resultsGen == Some(n % GENERATIONS) then u.local.value.arrived else []) + [(n, hit)]
  {
    hide RankHits;
    RunTwo(u, Worker(n, Match(hit)), Drain);
    var v := Next(u, Worker(n, Match(hit)));
    var e := Event(n, n % GENERATIONS, Match(hit));
    assert v.rx.value.buffer == [e];
    ApplyOne(v.(rx := Some(Receiver(n, []))), LocalSide, e);
  }

  lemma LocalFindShows(s: State, hit: Hit)
    requires Inv(s)
    ensures var n := |s.launched| + 1;
            var t := Run(s, LocalFind(n, hit));
            && |t.launched| == n && t.local.Some?
            && t.local.value.arrived ==
                 (if s.local.Some? && s.local.value.resultsGen == Some(n % GENERATIONS)
                  then s.local.value.arrived else []) + [(n, hit)]
  {
    hide Next, FindStep, Sourced;
    var n := |s.launched| + 1;
    NextGeneration(|s.launched|);
    RunAppend(s, [FindStep(LocalSide), Fire(80)], [Worker(n, Match(hit)), Drain]);
    RunTwo(s, FindStep(LocalSide), Fire(80));
    OpenFind(s, LocalSide);
    var u := Next(Next(s, FindStep(LocalSide)), Fire(80));
    assert PaneOf(s, LocalSide) == s.local && PaneOf(u, LocalSide) == u.local;
    OneHitShows(u, n, hit);
  }

  lemma ApplyOne(s: State, side: Side, e: Event)
    ensures ApplyAll(s, side, [e]) == ApplySearchEvent(s, side, e)
  {
    hide Absorb;
    assert ApplyAll(ApplySearchEvent(s, side, e), side, []) == ApplySearchEvent(s, side, e);
  }

  /** After a whole turn of the counter the hits of the new search are appended
      to those of the old one: the bound above cannot be dropped. */
  lemma WrapMixesResults(old_: Hit, new_: Hit)
    ensures var steps := LocalFind(1, old_) + RemoteFinds(GENERATIONS - 1) + LocalFind(GENERATIONS + 1, new_);
            var s := Run(Init(), steps);
            && s.local.Some?
            && s.local.value.arrived == [(1, old_), (GENERATIONS + 1, new_)]
            && !OneLaunch(s.local.value)
  {
    hide Run, LocalFind, RemoteFinds;
    var a, b, c := LocalFind(1, old_), RemoteFinds(GENERATIONS - 1), LocalFind(GENERATIONS + 1, new_);
    RunKeepsInv([]);
    RunNothing();
    LocalFindShows(Init(), old_);
    var s := Run(Init(), a);
    RunKeepsInv(a);
    RemoteFindsLaunch(s, GENERATIONS - 1);
    RunAppend(Init(), a, b);
    var t := Run(Init(), a + b);
    RunKeepsInv(a + b);
    LocalFindShows(t, new_);
    RunAppend(Init(), a + b, c);
    var u := Run(Init(), a + b + c).local.value;
    assert u.arrived[0] in u.arrived && u.arrived[1] in u.arrived;
  }

  lemma RunNothing()
    ensures Run(Init(), []) == Init()
  {
  }

  // ---- the debounce ----

  /** Steps that are not a key of the query or an Esc. */
  predicate Quiet(step: Step) {
    step.Drain? || step.Fire? || step.Worker? || step.Move? || step.Jump?
  }

  predicate Fires(step: Step) {
    step.Fire? && ShouldFire(step.elapsed)
  }

  lemma QuietStep(s: State, step: Step)
    requires Quiet(step)
    ensures var t := Next(s, step);
            if s.pending.Some? && Fires(step) then t.pending.None? && t.launched == s.launched + [s.pending.value.0]
            else t.pending == s.pending && t.launched == s.launched
  {
    hide ApplyAll, MoveCursor;
    if step.Drain? && s.rx.Some? && s.side.Some? {
      var t := s.(rx := if s.cancelFlag then Some(s.rx.value.(buffer := [])) else None);
      ApplyAllLaunched(t, s.side.value, s.rx.value.buffer);
    }
  }

  /** The debounce delays a search and never loses it: while no key intervenes it
      stays pending until the first tick 80 ms after the last key, and that tick
      launches it, for its own pane, once. */
  lemma {:induction false} DebounceNeverLoses(s: State, steps: seq<Step>)
    requires s.pending.Some? && forall step | step in steps :: Quiet(step)
    ensures var t := Run(s, steps);
            if exists step :: step in steps && Fires(step)
            then t.pending.None? && t.launched == s.launched + [s.pending.value.0]
            else t.pending == s.pending && t.launched == s.launched
    decreases |steps|
  {
    hide Next, Quiet, Fires;
    if steps != [] {
      var init, last := steps[..|steps| - 1], steps[|steps| - 1];
      assert steps == init + [last];
      assert last in steps && forall step | step in init :: step in steps;
      DebounceNeverLoses(s, init);
      QuietStep(Run(s, init), last);
    }
  }

  /** A request that leaves find mode withdraws a pending launch exactly when the
      query is not empty: emptying the query leaves the launch armed. */
  lemma LeavingFindMode(s: State, side: Side, query: string, parsed: Parsed, cwd: Path)
    requires query == "" || IsFilter(parsed, cwd)
    ensures Next(s, Request(side, query, parsed, cwd)).pending.None? <==> s.pending.None? || query != ""
    ensures PaneOf(Next(s, Request(side, query, parsed, cwd)), side).None?
  {
  }

  /** So an abandoned query is still searched for. */
  lemma EmptiedQueryStillFires(s: State, side: Side, parsed: Parsed, cwd: Path, elapsed: nat)
    requires s.pending.Some? && s.pending.value.0 == side && ShouldFire(elapsed)
    ensures var t := Next(Next(s, Request(side, "", parsed, cwd)), Fire(elapsed));
            t.launched == s.launched + [side] && PaneOf(t, side).None? && t.cancelFlag
  {
  }

  // ---- the spinner ----

  predicate Spinning(s: State, side: Side) {
    PaneOf(s, side).Some? && PaneOf(s, side).value.searching
  }

  /** The last search launched has not reported its end to the screen yet. */
  predicate InFlight(s: State) {
    s.rx.Some? && (Finished !in s.said || exists e :: e in s.rx.value.buffer && e.kind.Finished?)
  }

  /** A pane that says it is searching has a search in flight or about to start. */
  predicate Honest(s: State) {
    Accounted(s, LocalSide) && Accounted(s, RemoteSide)
  }

  predicate Accounted(s: State, side: Side) {
    Spinning(s, side) ==> Searched(s, side) || (s.pending.Some? && s.pending.value.0 == side)
  }

  /** The search in flight is that pane's. The recorded side alone does not say
      so: it stays when a search ends. */
  predicate Searched(s: State, side: Side) {
    s.side == Some(side) && InFlight(s)
  }

  /** The step withdraws the launch a spinning pane waits for, with no search of
      that pane in flight. */
  predicate Strands(s: State, step: Step) {
    && s.pending.Some?
    && var waiting := s.pending.value.0;
    && Spinning(s, waiting) && !Searched(s, waiting)
    && match step
       case Request(side, query, _, _) => side != waiting && query != ""
       case Cancel(focus) => (match s.side case Some(side) => side case None => focus) != waiting
       case _ => false
  }

  lemma {:induction false} ApplyAllSpins(s: State, side: Side, events: seq<Event>)
    requires forall e | e in events :: e.gen == s.gen
    ensures var t := ApplyAll(s, side, events);
            && t.side == s.side && t.pending == s.pending
            && (Spinning(t, side) <==>
                  Spinning(s, side) && !exists e :: e in events && (e.kind.Finished? || e.kind.Failure?))
            && forall other | other != side :: PaneOf(t, other) == PaneOf(s, other)
    decreases |events|
  {
    hide RankHits;
    if events != [] {
      assert events == [events[0]] + events[1..];
      ApplyAllSpins(ApplySearchEvent(s, side, events[0]), side, events[1..]);
    }
  }

  lemma LastIsWaiting(rx: Receiver, said: seq<Kind>)
    requires Heard(Some(rx), said) && said != []
    ensures rx.buffer != [] ==> exists e :: e in rx.buffer && e.kind == said[|said| - 1]
  {
    if rx.buffer != [] {
      assert rx.buffer[|rx.buffer| - 1] in rx.buffer;
    }
  }

  /** Once the end has been drained nothing more can come. */
  lemma EndedIsSilent(s: State)
    requires Heard(s.rx, s.said) && s.rx.Some? && !InFlight(s)
    ensures s.rx.value.buffer == [] && Finished in s.said
  {
    var k :| 0 <= k < |s.said| && s.said[k] == Finished;
    assert k == |s.said| - 1;
    LastIsWaiting(s.rx.value, s.said);
  }

  lemma DrainKeepsHonest(s: State)
    requires Inv(s) && Honest(s)
    ensures Honest(DrainEvents(s))
  {
    hide Sourced, ApplyAll, Heard;
    if s.rx.Some? {
      var u := s.(rx := if s.cancelFlag then Some(s.rx.value.(buffer := [])) else None);
      ApplyAllSpins(u, s.side.value, s.rx.value.buffer);
      ApplyAllSaid(u, s.side.value, s.rx.value.buffer);
    }
  }

  lemma {:induction false} ApplyAllSaid(s: State, side: Side, events: seq<Event>)
    ensures ApplyAll(s, side, events).said == s.said && ApplyAll(s, side, events).rx == s.rx
    decreases |events|
  {
    hide Absorb;
    if events != [] {
      ApplyAllSaid(ApplySearchEvent(s, side, events[0]), side, events[1..]);
    }
  }

  lemma RequestKeepsHonest(s: State, side: Side, query: string, parsed: Parsed, cwd: Path)
    requires Honest(s)
    ensures Honest(SearchRequest(s, side, query, parsed, cwd)) <==> !Strands(s, Request(side, query, parsed, cwd))
  {
    hide IsFilter, InFlight;
    SameFlight(s, side, query, parsed, cwd);
  }

  lemma SameFlight(s: State, side: Side, query: string, parsed: Parsed, cwd: Path)
    ensures InFlight(SearchRequest(s, side, query, parsed, cwd)) == InFlight(s)
  {
    hide IsFilter;
  }

  lemma CancelKeepsHonest(s: State, focus: Side)
    requires Honest(s)
    ensures Honest(CancelSearch(s, focus)) <==> !Strands(s, Cancel(focus))
  {
  }

  lemma LaunchKeepsHonest(s: State, elapsed: nat)
    requires Honest(s)
    ensures Honest(FirePending(s, elapsed))
  {
  }

  lemma EmitKeepsHonest(s: State, launch: nat, kind: Kind)
    requires Honest(s)
    ensures Honest(Emit(s, launch, kind))
  {
    var t := Emit(s, launch, kind);
    if t != s {
      var buffer := s.rx.value.buffer;
      assert t.rx.value.buffer[|buffer|] in t.rx.value.buffer;
      assert forall e | e in buffer :: e in t.rx.value.buffer;
    }
  }

  /** A spinner is left without a search exactly when a key takes away the launch
      its pane was waiting for and no search of that pane is in flight: a new
      query on the other pane, or an Esc that cancels the other pane's search. */
  lemma StepKeepsHonest(s: State, step: Step)
    requires Inv(s) && Honest(s)
    ensures Honest(Next(s, step)) <==> !Strands(s, step)
  {
    hide Inv, DrainEvents, SearchRequest, CancelSearch, FirePending, MoveCursor, Emit, InFlight;
    match step
    case Request(side, query, parsed, cwd) => RequestKeepsHonest(s, side, query, parsed, cwd);
    case Cancel(focus) => CancelKeepsHonest(s, focus);
    case Drain => DrainKeepsHonest(s);
    case Fire(elapsed) => LaunchKeepsHonest(s, elapsed);
    case Jump(side) => OnlyPane(s, side, None);
    case Move(side, delta) =>
      if PaneOf(s, side).Some? { OnlyPane(s, side, Some(MoveCursor(PaneOf(s, side).value, delta))); }
    case Worker(launch, kind) => EmitKeepsHonest(s, launch, kind);
  }

  lemma OnlyPane(s: State, side: Side, p: Option<PaneSearch>)
    ensures InFlight(WithPane(s, side, p)) == InFlight(s)
  {
  }

  lemma {:induction false} RunKeepsHonest(steps: seq<Step>)
    requires forall k | 0 <= k < |steps| :: !Strands(Run(Init(), steps[..k]), steps[k])
    ensures Honest(Run(Init(), steps))
    decreases |steps|
  {
    hide Next, Strands;
    if steps == [] {
    } else {
      var init := steps[..|steps| - 1];
      assert forall k | 0 <= k < |init| :: init[..k] == steps[..k] && init[k] == steps[k];
      RunKeepsHonest(init);
      RunKeepsInv(init);
      StepKeepsHonest(Run(Init(), init), steps[|steps| - 1]);
    }
  }

  /** While a new query waits out the debounce, the end of the superseded search
      stops the pane's spinner though the new search has not begun. */
  lemma SupersededEndStopsSpinner(s: State, side: Side)
    requires Inv(s) && s.side == Some(side) && s.pending.Some? && s.pending.value.0 == side && Spinning(s, side)
    ensures var t := DrainEvents(s);
            && t.pending == s.pending
            && (Spinning(t, side) <==> !exists e :: e in s.rx.value.buffer && (e.kind.Finished? || e.kind.Failure?))
  {
    hide Sourced, ApplyAll;
    var u := s.(rx := if s.cancelFlag then Some(s.rx.value.(buffer := [])) else None);
    ApplyAllSpins(u, side, s.rx.value.buffer);
  }

  // ---- the two spinner failures, as runs ----

  /** The pane spins though nothing is in flight or about to start for it. */
  predicate Stranded(s: State, side: Side) {
    Spinning(s, side) && !Accounted(s, side)
  }

  /** Steps that leave the query of the pane alone. */
  predicate Spares(step: Step, side: Side) {
    Quiet(step) && step != Jump(side)
  }

  lemma {:induction false} ApplyAllOther(s: State, side: Side, events: seq<Event>, other: Side)
    requires other != side
    ensures var t := ApplyAll(s, side, events); PaneOf(t, other) == PaneOf(s, other) && t.side == s.side
    decreases |events|
  {
    hide Absorb;
    if events != [] {
      ApplyAllOther(ApplySearchEvent(s, side, events[0]), side, events[1..], other);
    }
  }

  /** The next launch, for the other pane, will find this one recorded and stop
      its spinner. */
  predicate Doomed(s: State, side: Side) {
    s.side == Some(side) && s.pending.Some?
  }

  /** No spinner, and no search about to start. */
  predicate Quenched(s: State, side: Side) {
    !Spinning(s, side) && !(s.pending.Some? && s.pending.value.0 == side)
  }

  /** How many searches have been launched for the pane. */
  function Launches(s: State, side: Side): nat {
    multiset(s.launched)[side]
  }

  lemma LaunchOfOther(s: State, elapsed: nat, side: Side)
    requires s.pending.Some? ==> s.pending.value.0 != side
    ensures Launches(FirePending(s, elapsed), side) == Launches(s, side)
  {
    hide BeginSearch;
  }

  lemma StrandedStays(s: State, side: Side, step: Step)
    requires Inv(s) && Stranded(s, side) && Spares(step, side)
    ensures var t := Next(s, step);
            && (if Doomed(s, side) && Fires(step) then Quenched(t, side)
                else Stranded(t, side) && (Doomed(t, side) <==> Doomed(s, side)))
            && Launches(t, side) == Launches(s, side)
  {
    hide Inv, DrainEvents, FirePending, Emit, MoveCursor, InFlight, Launches;
    SameLaunches(s, side);
    match step
    case Drain => StrandedDrain(s, side);
    case Worker(launch, kind) => StrandedEmit(s, side, launch, kind);
    case Fire(elapsed) => StrandedFire(s, side, elapsed);
    case Jump(other) => OnlyPane(s, other, None);
    case Move(which, delta) =>
      if PaneOf(s, which).Some? { OnlyPane(s, which, Some(MoveCursor(PaneOf(s, which).value, delta))); }
  }

  lemma StrandedFire(s: State, side: Side, elapsed: nat)
    requires Stranded(s, side)
    ensures var t := FirePending(s, elapsed);
            && (if Doomed(s, side) && ShouldFire(elapsed) then Quenched(t, side)
                else Stranded(t, side) && (Doomed(t, side) <==> Doomed(s, side)))
            && Launches(t, side) == Launches(s, side)
  {
    hide Launches;
    LaunchOfOther(s, elapsed, side);
  }

  lemma StrandedDrain(s: State, side: Side)
    requires Inv(s) && Stranded(s, side)
    ensures var t := DrainEvents(s);
            Stranded(t, side) && t.side == s.side && t.pending == s.pending && t.launched == s.launched
  {
    hide Sourced, ApplyAll, Heard;
    if s.rx.Some? {
      var u := s.(rx := if s.cancelFlag then Some(s.rx.value.(buffer := [])) else None);
      ApplyAllLaunched(u, s.side.value, s.rx.value.buffer);
      ApplyAllSaid(u, s.side.value, s.rx.value.buffer);
      if s.side == Some(side) {
        EndedIsSilent(s);
        assert ApplyAll(u, side, []) == u by { NoEvents(u, side); }
      } else {
        ApplyAllOther(u, s.side.value, s.rx.value.buffer, side);
      }
    }
  }

  lemma NoEvents(s: State, side: Side)
    ensures ApplyAll(s, side, []) == s
  {
  }

  lemma StrandedEmit(s: State, side: Side, launch: nat, kind: Kind)
    requires Inv(s) && Stranded(s, side)
    ensures var t := Emit(s, launch, kind);
            Stranded(t, side) && t.side == s.side && t.pending == s.pending && t.launched == s.launched
  {
    hide Sourced, Heard;
    if s.side == Some(side) && s.rx.Some? {
      EndedIsSilent(s);
    }
  }

  lemma SameLaunches(s: State, side: Side)
    ensures forall t: State | t.launched == s.launched :: Launches(t, side) == Launches(s, side)
  {
  }

  lemma QuenchedFire(s: State, side: Side, elapsed: nat)
    requires Quenched(s, side)
    ensures Quenched(FirePending(s, elapsed), side) && Launches(FirePending(s, elapsed), side) == Launches(s, side)
  {
    hide Launches;
    LaunchOfOther(s, elapsed, side);
  }

  lemma QuenchedStays(s: State, side: Side, step: Step)
    requires Inv(s) && Quenched(s, side) && Spares(step, side)
    ensures Quenched(Next(s, step), side) && Launches(Next(s, step), side) == Launches(s, side)
  {
    hide Inv, DrainEvents, FirePending, MoveCursor, Launches;
    SameLaunches(s, side);
    if step.Drain? {
      QuenchedDrain(s, side);
    } else if step.Fire? {
      QuenchedFire(s, side, step.elapsed);
    }
  }

  lemma QuenchedDrain(s: State, side: Side)
    requires Inv(s) && Quenched(s, side)
    ensures Quenched(DrainEvents(s), side) && DrainEvents(s).launched == s.launched
  {
    hide Sourced, ApplyAll, Heard;
    if s.rx.Some? {
      var u := s.(rx := if s.cancelFlag then Some(s.rx.value.(buffer := [])) else None);
      ApplyAllLaunched(u, s.side.value, s.rx.value.buffer);
      ApplyAllSpins(u, s.side.value, s.rx.value.buffer);
    }
  }

  /** A stranded pane spins on until its own query is touched, and its search is
      never launched; only the launch of a waiting search of the other pane can
      stop it, and does so exactly when this pane is still the recorded one. */
  lemma {:induction false} StrandedSpinsOn(s: State, side: Side, more: seq<Step>)
    requires Inv(s) && Stranded(s, side) && forall step | step in more :: Spares(step, side)
    ensures var t := Run(s, more);
            && (Spinning(t, side) <==> !(Doomed(s, side) && exists step :: step in more && Fires(step)))
            && Launches(t, side) == Launches(s, side)
    ensures if Doomed(s, side) && exists step :: step in more && Fires(step) then Quenched(Run(s, more), side)
            else Stranded(Run(s, more), side) && (Doomed(Run(s, more), side) <==> Doomed(s, side))
    decreases |more|
  {
    hide Next, Inv, Accounted, Spares, Doomed, Fires, Spinning;
    if more != [] {
      var init, last := more[..|more| - 1], more[|more| - 1];
      assert more == init + [last];
      assert last in more && forall step | step in init :: step in more;
      StrandedSpinsOn(s, side, init);
      RunStaysInv(s, init);
      var t := Run(s, init);
      if Stranded(t, side) { StrandedStays(t, side, last); } else { QuenchedStays(t, side, last); }
    }
  }

  lemma {:induction false} RunStaysInv(s: State, steps: seq<Step>)
    requires Inv(s)
    ensures Inv(Run(s, steps))
    decreases |steps|
  {
    hide Next, Inv;
    if steps != [] {
      RunStaysInv(s, steps[..|steps| - 1]);
      NextKeepsInv(Run(s, steps[..|steps| - 1]), steps[|steps| - 1]);
    }
  }

  /** Two queries within the debounce, one on each pane: the first is never
      searched for and its pane spins for ever. */
  lemma SecondQueryStrandsFirst(more: seq<Step>)
    requires forall step | step in more :: Spares(step, LocalSide)
    ensures Strands(Run(Init(), [FindStep(LocalSide)]), FindStep(RemoteSide))
    ensures var s := Run(Init(), [FindStep(LocalSide), FindStep(RemoteSide)] + more);
            Spinning(s, LocalSide) && LocalSide !in s.launched
  {
    hide Spares, Inv;
    var steps := [FindStep(LocalSide), FindStep(RemoteSide)];
    RunOne(Init(), FindStep(LocalSide));
    RunTwo(Init(), FindStep(LocalSide), FindStep(RemoteSide));
    StrandedForGood(steps, more);
  }

  /** A pane stranded with nothing to stop it. */
  lemma StrandedForGood(steps: seq<Step>, more: seq<Step>)
    requires var s := Run(Init(), steps); Stranded(s, LocalSide) && !Doomed(s, LocalSide)
    requires forall step | step in more :: Spares(step, LocalSide)
    ensures var s, t := Run(Init(), steps), Run(Init(), steps + more);
            Spinning(t, LocalSide) && Launches(t, LocalSide) == Launches(s, LocalSide)
  {
    hide Run, Spares, Inv, Stranded, Doomed;
    RunKeepsInv(steps);
    RunAppend(Init(), steps, more);
    StrandedSpinsOn(Run(Init(), steps), LocalSide, more);
  }

  lemma EscStrands(u: State)
    requires u.side == Some(RemoteSide) && LocalSide !in u.launched
    ensures var t := Run(u, [FindStep(LocalSide), Cancel(LocalSide)]);
            Stranded(t, LocalSide) && !Doomed(t, LocalSide) && LocalSide !in t.launched
  {
    RunTwo(u, FindStep(LocalSide), Cancel(LocalSide));
  }

  /** Esc on a pane that waits for its launch cancels the search of the other
      pane instead, and withdraws the launch. */
  lemma EscStrandsWaitingPane(more: seq<Step>)
    requires forall step | step in more :: Spares(step, LocalSide)
    ensures var steps := [FindStep(RemoteSide), Fire(80)] + [FindStep(LocalSide), Cancel(LocalSide)];
            var s := Run(Init(), steps + more);
            Spinning(s, LocalSide) && LocalSide !in s.launched
  {
    hide Spares, Run;
    var a, b := [FindStep(RemoteSide), Fire(80)], [FindStep(LocalSide), Cancel(LocalSide)];
    RunTwo(Init(), FindStep(RemoteSide), Fire(80));
    OpenFind(Init(), RemoteSide);
    RunAppend(Init(), a, b);
    EscStrands(Run(Init(), a));
    StrandedForGood(a + b, more);
  }

  /** A plain name in the current directory of the pane. */
  function FilterStep(side: Side): Step {
    Request(side, "a", Parsed(Path(false, []), ["a"], false), Path(false, []))
  }

  /** A local search is over and its query is edited; a plain name typed on the
      remote pane withdraws the new launch. The pane is still the recorded one,
      but nothing is in flight, and it spins for ever. */
  lemma EndedSearchStrandsPane(more: seq<Step>)
    requires forall step | step in more :: Spares(step, LocalSide)
    ensures var steps := [FindStep(LocalSide), Fire(80)] + [Worker(1, Finished), Drain]
                         + [FindStep(LocalSide), FilterStep(RemoteSide)];
            var s, t := Run(Init(), steps), Run(Init(), steps + more);
            && s.side == Some(LocalSide) && !InFlight(s) && s.pending.None?
            && Spinning(t, LocalSide) && Launches(t, LocalSide) == 1
  {
    hide Spares, Run;
    var a, b := [FindStep(LocalSide), Fire(80)], [Worker(1, Finished), Drain];
    var c := [FindStep(LocalSide), FilterStep(RemoteSide)];
    RunTwo(Init(), FindStep(LocalSide), Fire(80));
    OpenFind(Init(), LocalSide);
    RunAppend(Init(), a, b);
    EndArrives(Run(Init(), a));
    RunAppend(Init(), a + b, c);
    FilterStrands(Run(Init(), a + b));
    StrandedForGood(a + b + c, more);
  }

  lemma EndArrives(u: State)
    requires u.rx == Some(Receiver(1, [])) && u.cancelFlag && u.side == Some(LocalSide) && u.gen == 1 && u.local.Some?
    requires u.said == [] && u.pending.None?
    ensures var t := Run(u, [Worker(1, Finished), Drain]);
            && t.rx == u.rx && t.side == u.side && t.said == [Finished] && t.pending.None?
            && t.launched == u.launched
  {
    hide RankHits;
    var end := Event(1, 1, Finished);
    RunTwo(u, Worker(1, Finished), Drain);
    var v := Next(u, Worker(1, Finished));
    assert v.rx.value.buffer == [end] && v.said == [Finished];
    var w := v.(rx := Some(Receiver(1, [])));
    ApplyAllSaid(w, LocalSide, [end]);
    ApplyAllLaunched(w, LocalSide, [end]);
    ApplyAllOther(w, LocalSide, [end], RemoteSide);
  }

  lemma FilterStrands(u: State)
    requires u.rx == Some(Receiver(1, [])) && u.side == Some(LocalSide) && u.said == [Finished]
    ensures var t := Run(u, [FindStep(LocalSide), FilterStep(RemoteSide)]);
            && Stranded(t, LocalSide) && !Doomed(t, LocalSide) && !InFlight(t)
            && t.side == u.side && t.pending.None? && t.launched == u.launched
  {
    RunTwo(u, FindStep(LocalSide), FilterStep(RemoteSide));
    assert Finished in u.said;
  }

  lemma RunOne(s: State, a: Step)
    ensures Run(s, [a]) == Next(s, a)
  {
    hide Next;
    assert [a][..0] == [] && Run(s, []) == s;
  }

  lemma SupersededEnd(u: State)
    requires u.rx == Some(Receiver(1, [])) && u.cancelFlag && u.side == Some(LocalSide) && u.gen == 1 && u.local.Some?
    requires u.said == []
    ensures var s := Run(u, [Worker(1, Finished), FindStep(LocalSide)]);
            var t := Next(s, Drain);
            && Spinning(s, LocalSide) && s.pending.Some? && s.pending.value.0 == LocalSide
            && t.pending == s.pending && t.local.Some? && !Spinning(t, LocalSide)
  {
    hide RankHits;
    var end := Event(1, 1, Finished);
    RunTwo(u, Worker(1, Finished), FindStep(LocalSide));
    var v := Next(u, Worker(1, Finished));
    assert v.rx.value.buffer == [end];
    ApplyOne(Next(v, FindStep(LocalSide)).(rx := Some(Receiver(1, []))), LocalSide, end);
  }

  /** A query is edited while its search runs; the end of that search arrives
      before the new one starts, and the pane stands still with a search due. */
  lemma SupersededEndRun()
    ensures var s := Run(Init(), [FindStep(LocalSide), Fire(80)] + [Worker(1, Finished), FindStep(LocalSide)]);
            var t := Next(s, Drain);
            && Spinning(s, LocalSide) && s.pending.Some? && s.pending.value.0 == LocalSide
            && t.pending == s.pending && t.local.Some? && !Spinning(t, LocalSide)
  {
    hide RankHits;
    var a, b := [FindStep(LocalSide), Fire(80)], [Worker(1, Finished), FindStep(LocalSide)];
    RunTwo(Init(), FindStep(LocalSide), Fire(80));
    OpenFind(Init(), LocalSide);
    RunAppend(Init(), a, b);
    SupersededEnd(Run(Init(), a));
  }

  // ---- the find cursor over whole runs ----

  /** Only the first event of a worker names a drilled directory. */
  predicate DrilledFirst(said: seq<Kind>) {
    forall i | 0 < i < |said| :: !said[i].Drilled?
  }

  function Generation(launch: nat): nat {
    launch % GENERATIONS
  }

  /** The cursor is on a row, and the results carry the number of some launch. */
  ghost predicate Pointed(p: Option<PaneSearch>, launches: nat) {
    p.Some? ==>
      && CursorInRange(p.value)
      && (p.value.resultsGen.Some? ==>
            exists m: nat :: 1 <= m <= launches && p.value.resultsGen.value == Generation(m))
  }

  /** The pane shows nothing of the current generation. */
  predicate Unheard(p: Option<PaneSearch>, gen: nat) {
    p.Some? ==> p.value.resultsGen != Some(gen)
  }

  /** Until the last search has been heard of, its pane shows older results. */
  predicate Untouched(s: State) {
    s.rx.Some? && s.side.Some? && |s.rx.value.buffer| == |s.said| ==> Unheard(PaneOf(s, s.side.value), s.gen)
  }

  ghost predicate AllPointed(s: State) {
    Pointed(s.local, |s.launched|) && Pointed(s.remote, |s.launched|) && Untouched(s)
  }

  lemma AbsorbKeepsPointed(p: PaneSearch, ev: Event, launches: nat)
    requires Pointed(Some(p), launches) && 1 <= launches && ev.gen == Generation(launches)
    requires ev.kind.Drilled? ==> Unheard(Some(p), ev.gen)
    ensures Pointed(Some(Absorb(p, ev)), launches)
  {
    hide RankHits, Generation, CursorInRange;
    AbsorbKeepsCursor(p, ev);
    assert Absorb(p, ev).resultsGen == Some(Generation(launches));
  }

  lemma {:induction false} ApplyAllPoints(s: State, side: Side, events: seq<Event>)
    requires Pointed(s.local, |s.launched|) && Pointed(s.remote, |s.launched|)
    requires s.launched != [] && s.gen == Generation(|s.launched|)
    requires forall i | 0 <= i < |events| ::
               events[i].gen == s.gen && (events[i].kind.Drilled? ==> i == 0 && Unheard(PaneOf(s, side), s.gen))
    ensures var t := ApplyAll(s, side, events); Pointed(t.local, |s.launched|) && Pointed(t.remote, |s.launched|)
    decreases |events|
  {
    hide Absorb, Pointed, Generation;
    if events != [] {
      var p := PaneOf(s, side);
      if p.Some? {
        AbsorbKeepsPointed(p.value, events[0], |s.launched|);
      }
      ApplyAllPoints(ApplySearchEvent(s, side, events[0]), side, events[1..]);
    }
  }

  lemma DrainKeepsPointed(s: State)
    requires Inv(s) && AllPointed(s) && DrilledFirst(s.said)
    ensures AllPointed(DrainEvents(s))
  {
    hide Sourced, ApplyAll, Pointed;
    if s.rx.Some? {
      var u, side := s.(rx := Some(s.rx.value.(buffer := []))), s.side.value;
      assert PaneOf(u, side) == PaneOf(s, side);
      ApplyAllPoints(u, side, s.rx.value.buffer);
      ApplyAllLaunched(u, side, s.rx.value.buffer);
      ApplyAllSaid(u, side, s.rx.value.buffer);
      NoEvents(u, side);
    }
  }

  lemma LaunchKeepsPointed(s: State, elapsed: nat)
    requires Inv(s) && AllPointed(s) && |s.launched| < GENERATIONS
    ensures AllPointed(FirePending(s, elapsed))
  {
    hide Sourced, Heard, CursorInRange, RankHits;
    var t := FirePending(s, elapsed);
    if s.pending.Some? && ShouldFire(elapsed) {
      var n := |s.launched|;
      NextGeneration(n);
      NewNumber(s.local, n);
      NewNumber(s.remote, n);
      PointedLater(s.local, t.local, n, n + 1);
      PointedLater(s.remote, t.remote, n, n + 1);
    }
  }

  lemma NewNumber(p: Option<PaneSearch>, n: nat)
    requires Pointed(p, n) && n < GENERATIONS
    ensures Unheard(p, (n + 1) % GENERATIONS)
  {
  }

  lemma PointedLater(p: Option<PaneSearch>, q: Option<PaneSearch>, n: nat, m: nat)
    requires Pointed(p, n) && n <= m && (p.Some? <==> q.Some?)
    requires p.Some? ==> SameHits(p.value, q.value)
    ensures Pointed(q, m)
  {
    hide Generation;
  }

  lemma FreshIsPointed(n: nat)
    ensures Pointed(Some(EmptySearch()), n) && Pointed(None, n)
  {
  }

  lemma RequestKeepsPointed(s: State, side: Side, query: string, parsed: Parsed, cwd: Path)
    requires AllPointed(s)
    ensures AllPointed(SearchRequest(s, side, query, parsed, cwd))
  {
    hide IsFilter, Pointed;
    var n := |s.launched|;
    var q := PaneOf(SearchRequest(s, side, query, parsed, cwd), side);
    FreshIsPointed(n);
    if q.Some? {
      var p := match PaneOf(s, side) case Some(p) => p case None => EmptySearch();
      PointedLater(Some(p), q, n, n);
    }
  }

  lemma MoveKeepsPointed(s: State, side: Side, delta: int)
    requires AllPointed(s)
    ensures AllPointed(Next(s, Move(side, delta)))
  {
    hide Generation, MoveCursor;
  }

  lemma NextKeepsPointed(s: State, step: Step)
    requires Inv(s) && AllPointed(s) && DrilledFirst(s.said) && |Next(s, step).launched| <= GENERATIONS
    ensures AllPointed(Next(s, step))
  {
    hide Inv, DrainEvents, SearchRequest, MoveCursor, Pointed;
    FreshIsPointed(|s.launched|);
    match step
    case Drain => DrainKeepsPointed(s);
    case Fire(elapsed) =>
      if s.pending.Some? && ShouldFire(elapsed) { LaunchKeepsPointed(s, elapsed); }
    case Request(side, query, parsed, cwd) => RequestKeepsPointed(s, side, query, parsed, cwd);
    case Move(side, delta) => MoveKeepsPointed(s, side, delta);
    case _ =>
  }

  /** Within one turn of the counter, and with workers that name a drilled
      directory first if at all, the find cursor of both panes is always on a row. */
  lemma {:induction false} RunKeepsCursors(steps: seq<Step>)
    requires |Run(Init(), steps).launched| <= GENERATIONS
    requires forall k | 0 <= k <= |steps| :: DrilledFirst(Run(Init(), steps[..k]).said)
    ensures AllPointed(Run(Init(), steps))
    decreases |steps|
  {
    hide Next, Inv, AllPointed, DrilledFirst;
    if steps == [] {
      NothingPoints();
    } else {
      var n := |steps| - 1;
      var init := steps[..n];
      forall k | 0 <= k <= n ensures DrilledFirst(Run(Init(), init[..k]).said) {
        assert init[..k] == steps[..k];
      }
      assert init[..n] == init;
      LaunchesGrow(Run(Init(), init), steps[n]);
      RunKeepsCursors(init);
      RunKeepsInv(init);
      NextKeepsPointed(Run(Init(), init), steps[n]);
    }
  }

  lemma NothingPoints()
    ensures AllPointed(Init())
  {
  }

  // ---- the wrap loses the cursor ----

  function DrilledFind(dir: Path, hit: Hit): seq<Step> {
    [FindStep(LocalSide), Fire(80)] + ([Worker(1, Drilled(dir)), Worker(1, Match(hit))] + [Drain, Move(LocalSide, 1)])
  }

  /** One hit below the drilled directory, and the cursor on the hit. */
  lemma DrilledFindShows(dir: Path, hit: Hit)
    ensures var s := Run(Init(), DrilledFind(dir, hit));
            && |s.launched| == 1 && s.local.Some? && s.local.value.resultsGen == Some(1)
            && |s.local.value.results| == 1 && s.local.value.cursor == 1
            && s.local.value.currentDir == Some(Hit(dir, true, 0))
  {
    hide Run, RankHits;
    var a, c := [FindStep(LocalSide), Fire(80)], [Drain, Move(LocalSide, 1)];
    var b := [Worker(1, Drilled(dir)), Worker(1, Match(hit))];
    RunTwo(Init(), FindStep(LocalSide), Fire(80));
    OpenFind(Init(), LocalSide);
    RunAppend(Init(), a, b + c);
    var u := Run(Init(), a);
    RunAppend(u, b, c);
    TwoEventsArrive(u, dir, hit);
    RunTwo(Run(u, b), Drain, Move(LocalSide, 1));
  }

  lemma TwoEventsArrive(u: State, dir: Path, hit: Hit)
    requires u.rx == Some(Receiver(1, [])) && u.cancelFlag && u.side == Some(LocalSide) && u.gen == 1 && u.said == []
    requires u.local == Some(EmptySearch())
    ensures var v := Next(Run(u, [Worker(1, Drilled(dir)), Worker(1, Match(hit))]), Drain);
            && v.launched == u.launched && v.local.Some? && v.local.value.resultsGen == Some(1)
            && |v.local.value.results| == 1 && v.local.value.cursor == 0
            && v.local.value.currentDir == Some(Hit(dir, true, 0))
  {
    hide RankHits;
    var d, e := Event(1, 1, Drilled(dir)), Event(1, 1, Match(hit));
    RunTwo(u, Worker(1, Drilled(dir)), Worker(1, Match(hit)));
    var v := Run(u, [Worker(1, Drilled(dir)), Worker(1, Match(hit))]);
    assert v.rx.value.buffer == [d, e];
    var w := v.(rx := Some(Receiver(1, [])));
    ApplyAllLaunched(w, LocalSide, [d, e]);
    assert [d, e][1..] == [e];
    ApplyOne(ApplySearchEvent(w, LocalSide, d), LocalSide, e);
    assert ApplyAll(w, LocalSide, [d, e]) == ApplySearchEvent(ApplySearchEvent(w, LocalSide, d), LocalSide, e);
    OneHit(hit);
  }

  lemma OneHit(hit: Hit)
    ensures |RankHits([] + [hit])| == 1
  {
    RankHitsRanks([] + [hit]);
    SameSize(RankHits([] + [hit]), [] + [hit]);
  }

  /** A drilled directory arrives again under the old number. */
  lemma SecondDrill(s: State, dir: Path)
    requires Inv(s) && |s.launched| == GENERATIONS && s.local.Some?
    requires s.local.value.resultsGen == Some(1) && s.local.value.currentDir.Some?
    ensures var t := Run(s, [FindStep(LocalSide), Fire(80)] + [Worker(GENERATIONS + 1, Drilled(dir)), Drain]);
            && t.local.Some? && t.local.value.currentDir == None
            && t.local.value.results == s.local.value.results && t.local.value.cursor == s.local.value.cursor
  {
    hide Sourced, Run;
    var n := GENERATIONS + 1;
    NextGeneration(GENERATIONS);
    RunAppend(s, [FindStep(LocalSide), Fire(80)], [Worker(n, Drilled(dir)), Drain]);
    RunTwo(s, FindStep(LocalSide), Fire(80));
    OpenFind(s, LocalSide);
    var u := Run(s, [FindStep(LocalSide), Fire(80)]);
    assert PaneOf(s, LocalSide) == s.local && PaneOf(u, LocalSide) == u.local;
    RunTwo(u, Worker(n, Drilled(dir)), Drain);
    var v := Next(u, Worker(n, Drilled(dir)));
    var e := Event(n, 1, Drilled(dir));
    assert v.rx.value.buffer == [e];
    ApplyOne(v.(rx := Some(Receiver(n, []))), LocalSide, e);
  }

  /** After a whole turn of the counter the new search takes the "." row of the
      old one away, and the cursor is on no row: the bound cannot be dropped. */
  lemma WrapLosesCursor(dir: Path, hit: Hit)
    ensures var steps := DrilledFind(dir, hit) + RemoteFinds(GENERATIONS - 1)
                         + ([FindStep(LocalSide), Fire(80)] + [Worker(GENERATIONS + 1, Drilled(dir)), Drain]);
            var s := Run(Init(), steps);
            s.local.Some? && |s.local.value.results| == 1 && !CursorInRange(s.local.value)
  {
    hide Run, DrilledFind, RemoteFinds, Inv;
    var a, b := DrilledFind(dir, hit), RemoteFinds(GENERATIONS - 1);
    var c := [FindStep(LocalSide), Fire(80)] + [Worker(GENERATIONS + 1, Drilled(dir)), Drain];
    DrilledFindShows(dir, hit);
    RemoteFindsLaunch(Run(Init(), a), GENERATIONS - 1);
    RunAppend(Init(), a, b);
    RunKeepsInv(a + b);
    SecondDrill(Run(Init(), a + b), dir);
    RunAppend(Init(), a + b, c);
  }
}
