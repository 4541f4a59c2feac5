/** Cross-directory find on the transfer screen: the key side
    (`src/tui/transfer/search_dispatch.rs`, `search.rs`), the drain and launch in
    the loop (`src/tui/run_loop.rs`), and any number of search workers, each with
    its own channel (`crates/sshrack-core/src/pathfind.rs`). */
module Search {
  import opened Prelude
  import opened DirSource

  // ---- matches and their order ----

  datatype Hit = Hit(path: Path, isDir: bool, score: nat)

  predicate PartsLess(a: seq<string>, b: seq<string>) {
    b != [] && (a == [] || LexLess(a[0], b[0]) || (a[0] == b[0] && PartsLess(a[1..], b[1..])))
  }

  predicate PathLess(a: Path, b: Path) {
    if a.rooted != b.rooted then a.rooted else PartsLess(a.parts, b.parts)
  }

  function PathLength(p: Path): nat {
    |p.parts| + (if p.rooted then 1 else 0)
  }

  predicate HitBefore(a: Hit, b: Hit) {
    || a.score > b.score
    || (a.score == b.score && PathLength(a.path) < PathLength(b.path))
    || (a.score == b.score && PathLength(a.path) == PathLength(b.path) && PathLess(a.path, b.path))
  }

  /** Insertion behind equals; sorting is insertion in arrival order. */
  function InsertHit(sorted: seq<Hit>, x: Hit): seq<Hit> {
    if sorted == [] then [x]
    else if HitBefore(x, sorted[0]) then [x] + sorted
    else [sorted[0]] + InsertHit(sorted[1..], x)
  }

  /** `rank_matches`, a stable sort. */
  function RankHits(hits: seq<Hit>): seq<Hit> {
    if hits == [] then [] else InsertHit(RankHits(hits[..|hits| - 1]), hits[|hits| - 1])
  }

  // ---- one pane ----

  datatype Side = LocalSide | RemoteSide

  datatype Kind = Match(hit: Hit) | Finished | Failure(message: string) | Drilled(dir: Path)

  /** `launch` labels the search an event came from; the program sees only `gen`. */
  datatype Event = Event(launch: nat, gen: nat, kind: Kind)

  /** `arrived` is history: the hits shown, in order of arrival, each with the
      launch that found it. */
  datatype PaneSearch = PaneSearch(results: seq<Hit>, cursor: nat, searching: bool, resultsGen: Option<nat>,
                                   error: Option<string>, currentDir: Option<Hit>, arrived: seq<(nat, Hit)>)

  function EmptySearch(): PaneSearch {
    PaneSearch([], 0, true, None, None, None, [])
  }

  function DisplayLen(p: PaneSearch): nat {
    |p.results| + (if p.currentDir.Some? then 1 else 0)
  }

  function Selected(p: PaneSearch): Option<Hit> {
    if p.currentDir.Some? && p.cursor == 0 then p.currentDir
    else
      var dot := if p.currentDir.Some? then 1 else 0;
      var k := if p.cursor >= dot then p.cursor - dot else 0;
      if k < |p.results| then Some(p.results[k]) else None
  }

  function MoveCursor(p: PaneSearch, delta: int): (r: PaneSearch)
    ensures r == p.(cursor := r.cursor)
    ensures r.cursor < DisplayLen(p) || (r.cursor == 0 && DisplayLen(p) == 0)
  {
    if DisplayLen(p) == 0 then p.(cursor := 0)
    else p.(cursor := (p.cursor + delta) % DisplayLen(p))
  }

  function Cleared(p: PaneSearch): PaneSearch {
    p.(results := [], cursor := 0, currentDir := None, arrived := [])
  }

  /** An event of the current generation reaches a pane in find mode. */
  function Absorb(p: PaneSearch, ev: Event): PaneSearch {
    var first := p.resultsGen != Some(ev.gen);
    var q := (if first then Cleared(p) else p).(resultsGen := Some(ev.gen));
    match ev.kind
    case Match(hit) =>
      var results := RankHits(q.results + [hit]);
      q.(results := results, cursor := if q.cursor >= |results| && |results| > 0 then |results| - 1 else q.cursor,
         arrived := q.arrived + [(ev.launch, hit)])
    case Finished => q.(searching := false)
    case Failure(message) => Cleared(q).(searching := false, error := Some(message))
    case Drilled(dir) =>
      q.(currentDir := if q.currentDir.None? then Some(Hit(dir, true, 0)) else None)
  }

  // ---- the screen ----

  const GENERATIONS: nat := 0x1_0000_0000

  datatype Parsed = Parsed(base: Path, segments: seq<string>, trailingSlash: bool)

  /** The receiving end of the channel of launch `launch`. */
  datatype Receiver = Receiver(launch: nat, buffer: seq<Event>)

  /** `launched` and `said` are history: the side of every launch so far, and all
      that the worker of the last launch has sent to its receiver. */
  datatype State = State(local: Option<PaneSearch>, remote: Option<PaneSearch>,
                         pending: Option<(Side, Parsed)>, rx: Option<Receiver>, cancelFlag: bool,
                         gen: nat, side: Option<Side>, launched: seq<Side>, said: seq<Kind>)

  function Init(): State {
    State(None, None, None, None, false, 0, None, [], [])
  }

  function PaneOf(s: State, side: Side): Option<PaneSearch> {
    match side case LocalSide => s.local case RemoteSide => s.remote
  }

  function WithPane(s: State, side: Side, p: Option<PaneSearch>): State {
    match side case LocalSide => s.(local := p) case RemoteSide => s.(remote := p)
  }

  function ApplySearchEvent(s: State, side: Side, ev: Event): State {
    if ev.gen != s.gen then s
    else match PaneOf(s, side)
         case None => s
         case Some(p) => WithPane(s, side, Some(Absorb(p, ev)))
  }

  function ApplyAll(s: State, side: Side, events: seq<Event>): State
    decreases |events|
  {
    if events == [] then s else ApplyAll(ApplySearchEvent(s, side, events[0]), side, events[1..])
  }

  /** Filter mode: a plain name in the current directory. */
  predicate IsFilter(parsed: Parsed, cwd: Path) {
    !parsed.trailingSlash && |parsed.segments| == 1 && parsed.base == cwd
  }

  function SearchRequest(s: State, side: Side, query: string, parsed: Parsed, cwd: Path): State {
    if query == "" then WithPane(s, side, None)
    else if IsFilter(parsed, cwd) then WithPane(s, side, None).(pending := None)
    else
      var p := match PaneOf(s, side) case Some(p) => p case None => EmptySearch();
      WithPane(s, side, Some(p.(searching := true, error := None))).(pending := Some((side, parsed)))
  }

  function BeginSearch(s: State, side: Side): State {
    var t := match s.side
             case None => s
             case Some(prev) =>
               match PaneOf(s, prev)
               case Some(p) => if prev != side then WithPane(s, prev, Some(p.(searching := false))) else s
               case None => s;
    t.(side := Some(side))
  }

  function CancelSearch(s: State, focus: Side): State {
    var target := match s.side case Some(side) => side case None => focus;
    WithPane(s, target, None).(rx := None, cancelFlag := false, pending := None, side := None)
  }

  predicate ShouldFire(elapsed: nat) {
    elapsed >= 80
  }

  function Launch(s: State, side: Side): State {
    var gen := (s.gen + 1) % GENERATIONS;
    BeginSearch(s.(gen := gen, pending := None), side)
      .(rx := Some(Receiver(|s.launched| + 1, [])), cancelFlag := true, launched := s.launched + [side], said := [])
  }

  /** The launch half of the drain, `elapsed` milliseconds after the last key. */
  function FirePending(s: State, elapsed: nat): State {
    match s.pending
    case None => s
    case Some((side, _)) => if ShouldFire(elapsed) then Launch(s, side) else s
  }

  /** The event half of the drain: apply what is buffered, keep listening unless
      the search was cancelled. */
  function DrainEvents(s: State): State {
    match s.rx
    case None => s
    case Some(rx) =>
      var t := s.(rx := if s.cancelFlag then Some(rx.(buffer := [])) else None);
      match s.side case Some(side) => ApplyAll(t, side, rx.buffer) case None => t
  }

  /** A worker sends, `Finished` last; only the installed receiver listens. */
  function Emit(s: State, launch: nat, kind: Kind): State {
    if s.rx.Some? && s.rx.value.launch == launch && Finished !in s.said then
      s.(rx := Some(Receiver(launch, s.rx.value.buffer + [Event(launch, launch % GENERATIONS, kind)])),
         said := s.said + [kind])
    else s
  }

  datatype Step =
    | Request(side: Side, query: string, parsed: Parsed, cwd: Path)
    | Cancel(focus: Side)
    | Jump(focus: Side)
    | Move(side: Side, delta: int)
    | Drain
    | Fire(elapsed: nat)
    | Worker(launch: nat, kind: Kind)

  function Next(s: State, step: Step): State {
    match step
    case Request(side, query, parsed, cwd) => SearchRequest(s, side, query, parsed, cwd)
    case Cancel(focus) => CancelSearch(s, focus)
    case Jump(focus) => WithPane(s, focus, None)
    case Move(side, delta) =>
      (match PaneOf(s, side) case Some(p) => WithPane(s, side, Some(MoveCursor(p, delta))) case None => s)
    case Drain => DrainEvents(s)
    case Fire(elapsed) => FirePending(s, elapsed)
    case Worker(launch, kind) => Emit(s, launch, kind)
  }

  function Run(s: State, steps: seq<Step>): State
    decreases |steps|
  {
    if steps == [] then s else Next(Run(s, steps[..|steps| - 1]), steps[|steps| - 1])
  }

  // ---- the screen's own methods ----

  class FindScreen {
    var local: Option<PaneSearch>
    var remote: Option<PaneSearch>
    var pending: Option<(Side, Parsed)>
    var rx: Option<Receiver>
    var cancelFlag: bool
    var gen: nat
    var side: Option<Side>
    var launched: seq<Side>
    ghost var said: seq<Kind>

    ghost function Value(): State
      reads this
    {
      State(local, remote, pending, rx, cancelFlag, gen, side, launched, said)
    }

    constructor ()
      ensures Value() == Init()
    {
      local, remote, pending, rx, cancelFlag, gen, side, launched := None, None, None, None, false, 0, None, [];
      said := [];
    }

    method SetPane(which: Side, p: Option<PaneSearch>)
      modifies this`local, this`remote
      ensures Value() == WithPane(old(Value()), which, p)
    {
      match which
      case LocalSide => local := p;
      case RemoteSide => remote := p;
    }

    method Pane(which: Side) returns (p: Option<PaneSearch>)
      ensures p == PaneOf(Value(), which)
    {
      match which
      case LocalSide => p := local;
      case RemoteSide => p := remote;
    }

    method DoApplySearchEvent(which: Side, ev: Event)
      modifies this`local, this`remote
      ensures Value() == ApplySearchEvent(old(Value()), which, ev)
    {
      hide Absorb;
      if ev.gen != gen {
        return;
      }
      var p := Pane(which);
      if p.Some? {
        SetPane(which, Some(Absorb(p.value, ev)));
      }
    }

    method DoSearchRequest(which: Side, query: string, parsed: Parsed, cwd: Path)
      modifies this`local, this`remote, this`pending
      ensures Value() == SearchRequest(old(Value()), which, query, parsed, cwd)
    {
      if query == "" {
        SetPane(which, None);
        return;
      }
      if IsFilter(parsed, cwd) {
        SetPane(which, None);
        pending := None;
      } else {
        var p := Pane(which);
        var srch := match p case Some(p) => p case None => EmptySearch();
        SetPane(which, Some(srch.(searching := true, error := None)));
        pending := Some((which, parsed));
      }
    }

    method DoBeginSearch(which: Side)
      modifies this`local, this`remote, this`side
      ensures Value() == BeginSearch(old(Value()), which)
    {
      if side.Some? && side.value != which {
        var p := Pane(side.value);
        if p.Some? {
          SetPane(side.value, Some(p.value.(searching := false)));
        }
      }
      side := Some(which);
    }

    method DoCancelSearch(focus: Side)
      modifies this
      ensures Value() == CancelSearch(old(Value()), focus)
    {
      rx := None;
      cancelFlag := false;
      pending := None;
      SetPane(match side case Some(w) => w case None => focus, None);
      side := None;
    }

    method DoDrainEvents()
      modifies this
      ensures Value() == DrainEvents(old(Value()))
    {
      hide ApplySearchEvent;
      if rx.None? {
        return;
      }
      var taken := rx.value;
      rx := if cancelFlag then Some(taken.(buffer := [])) else None;
      if side.Some? {
        var which, events := side.value, taken.buffer;
        ghost var goal := ApplyAll(Value(), which, events);
        while events != []
          invariant ApplyAll(Value(), which, events) == goal
          decreases |events|
        {
          DoApplySearchEvent(which, events[0]);
          events := events[1..];
        }
      }
    }

    method DoFirePending(elapsed: nat)
      modifies this
      ensures Value() == FirePending(old(Value()), elapsed)
    {
      if pending.Some? && ShouldFire(elapsed) {
        var which := pending.value.0;
        pending := None;
        gen := (gen + 1) % GENERATIONS;
        DoBeginSearch(which);
        rx := Some(Receiver(|launched| + 1, []));
        cancelFlag := true;
        launched := launched + [which];
        said := [];
      }
    }
  }
}
