/** The walk of one search (`walk_levels` in
    `crates/sshrack-core/src/pathfind.rs`): exact descent along the leading
    segments, then the entries of the directory found that match the last one.
    The scores of drilled segments are zero, so a hit carries its leaf's score. */
module Pathfind {
  import opened Prelude
  import opened DirSource
  import opened Search
  import Safety = SearchSafety

  type Lister = Path -> Result<seq<DirEntry>, string>
  type SegmentMatcher = (string, string) -> Option<nat>

  /** What a walk needs: the listing, the matcher, and how a path is printed. */
  datatype Walker = Walker(list: Lister, matches: SegmentMatcher, show: Path -> string)

  function FileName(p: Path): Option<string> {
    if p.parts == [] || p.parts[|p.parts| - 1] == "." || p.parts[|p.parts| - 1] == ".." then None
    else Some(p.parts[|p.parts| - 1])
  }

  /** Segments to descend along exactly. */
  function Drill(q: Parsed): seq<string> {
    if q.trailingSlash || q.segments == [] then q.segments else q.segments[..|q.segments| - 1]
  }

  /** The segment to match; none lists everything. */
  function Leaf(q: Parsed): Option<string> {
    if q.trailingSlash || q.segments == [] then None else Some(q.segments[|q.segments| - 1])
  }

  predicate Enters(e: DirEntry, seg: string) {
    e.isDir && FileName(e.path) == Some(seg)
  }

  function Entered(entries: seq<DirEntry>, seg: string): seq<Path> {
    if entries == [] then []
    else Entered(entries[..|entries| - 1], seg)
         + (if Enters(entries[|entries| - 1], seg) then [entries[|entries| - 1].path] else [])
  }

  function ListError(w: Walker, dir: Path, message: string): Kind {
    Failure(w.show(dir) + ": " + message)
  }

  /** One level of the descent: the directories of the next level, all those
      listed so far, and the events so far. */
  datatype Level = Level(next: seq<Path>, visited: set<Path>, events: seq<Kind>)

  function Visit(w: Walker, seg: string, l: Level, dir: Path): Level {
    if dir in l.visited then l
    else
      var l := l.(visited := l.visited + {dir});
      match w.list(dir)
      case Err(message) => l.(events := l.events + [ListError(w, dir, message)])
      case Ok(entries) => l.(next := l.next + Entered(entries, seg))
  }

  function Sweep(w: Walker, seg: string, frontier: seq<Path>, l: Level): Level {
    if frontier == [] then l else Visit(w, seg, Sweep(w, seg, frontier[..|frontier| - 1], l), frontier[|frontier| - 1])
  }

  function Descend(w: Walker, base: Path, drill: seq<string>): Level {
    if drill == [] then Level([base], {}, [])
    else
      var l := Descend(w, base, drill[..|drill| - 1]);
      Sweep(w, drill[|drill| - 1], l.next, l.(next := []))
  }

  function HitOf(w: Walker, leaf: Option<string>, e: DirEntry): Option<Hit> {
    match (FileName(e.path), leaf)
    case (None, _) => None
    case (Some(_), None) => Some(Hit(e.path, e.isDir, 0))
    case (Some(name), Some(pattern)) =>
      match w.matches(name, pattern) case Some(score) => Some(Hit(e.path, e.isDir, score)) case None => None
  }

  function LeafHits(w: Walker, leaf: Option<string>, entries: seq<DirEntry>): seq<Hit> {
    if entries == [] then []
    else
      var init, hit := LeafHits(w, leaf, entries[..|entries| - 1]), HitOf(w, leaf, entries[|entries| - 1]);
      if hit.Some? then init + [hit.value] else init
  }

  function Matches(hits: seq<Hit>): (r: seq<Kind>)
    ensures |r| == |hits| && forall i | 0 <= i < |hits| :: r[i] == Match(hits[i])
  {
    seq(|hits|, i requires 0 <= i < |hits| => Match(hits[i]))
  }

  function LeafEvents(w: Walker, leaf: Option<string>, dir: Path): seq<Kind> {
    match w.list(dir)
    case Err(message) => [ListError(w, dir, message)]
    case Ok(entries) => (if leaf.None? then [Drilled(dir)] else []) + Matches(LeafHits(w, leaf, entries))
  }

  function Collect(w: Walker, leaf: Option<string>, frontier: seq<Path>): seq<Kind> {
    if frontier == [] then []
    else Collect(w, leaf, frontier[..|frontier| - 1]) + LeafEvents(w, leaf, frontier[|frontier| - 1])
  }

  /** All events of a walk that is not cancelled. */
  function Walk(w: Walker, q: Parsed): seq<Kind> {
    var l := Descend(w, q.base, Drill(q));
    l.events + Collect(w, Leaf(q), l.next) + [Finished]
  }

  // ---- a cancelled walk ----

  /** Where a walk ends: at the flag before a level, before a directory of a
      level, before the leaf pass or before a directory of it, or not early. */
  datatype Stop = InLevel(level: nat) | InDir(level: nat, dirs: nat) | BeforeLeaf | InLeaf(dirs: nat) | Completed

  function After(w: Walker, q: Parsed, k: nat): Level
    requires k <= |Drill(q)|
  {
    Descend(w, q.base, Drill(q)[..k])
  }

  /** How often the flag is read while descending. */
  function DescentReads(w: Walker, base: Path, drill: seq<string>): nat {
    if drill == [] then 0
    else
      var init := drill[..|drill| - 1];
      var next := Descend(w, base, init).next;
      DescentReads(w, base, init) + (if next == [] then 0 else 1 + |next|)
  }

  function Reads(w: Walker, q: Parsed): nat {
    DescentReads(w, q.base, Drill(q)) + 1 + |Descend(w, q.base, Drill(q)).next|
  }

  /** The flag is found set at `stop` when `patience` reads before found it clear. */
  predicate StopsAt(w: Walker, q: Parsed, stop: Stop, patience: nat) {
    var drill := Drill(q);
    match stop
    case InLevel(k) => k < |drill| && After(w, q, k).next != [] && patience == DescentReads(w, q.base, drill[..k])
    case InDir(k, d) =>
      k < |drill| && d < |After(w, q, k).next| && patience == DescentReads(w, q.base, drill[..k]) + 1 + d
    case BeforeLeaf => patience == DescentReads(w, q.base, drill)
    case InLeaf(d) => d < |Descend(w, q.base, drill).next| && patience == DescentReads(w, q.base, drill) + 1 + d
    case Completed => patience >= Reads(w, q)
  }

  function EventsAt(w: Walker, q: Parsed, stop: Stop, patience: nat): seq<Kind>
    requires StopsAt(w, q, stop, patience)
  {
    var l := Descend(w, q.base, Drill(q));
    match stop
    case InLevel(k) => After(w, q, k).events
    case InDir(k, d) => Sweep(w, Drill(q)[k], After(w, q, k).next[..d], After(w, q, k).(next := [])).events
    case BeforeLeaf => l.events
    case InLeaf(d) => l.events + Collect(w, Leaf(q), l.next[..d])
    case Completed => Walk(w, q)
  }

  predicate Begins<T(==)>(a: seq<T>, b: seq<T>) {
    |a| <= |b| && b[..|a|] == a
  }

  lemma {:induction false} SweepGrows(w: Walker, seg: string, frontier: seq<Path>, l: Level, d: nat)
    requires d <= |frontier|
    ensures Begins(Sweep(w, seg, frontier[..d], l).events, Sweep(w, seg, frontier, l).events)
    decreases |frontier|
  {
    if d < |frontier| {
      assert frontier[..|frontier| - 1][..d] == frontier[..d];
      SweepGrows(w, seg, frontier[..|frontier| - 1], l, d);
    } else {
      assert frontier[..d] == frontier;
    }
  }

  lemma {:induction false} DescendGrows(w: Walker, base: Path, drill: seq<string>, k: nat)
    requires k <= |drill|
    ensures Begins(Descend(w, base, drill[..k]).events, Descend(w, base, drill).events)
    ensures DescentReads(w, base, drill[..k]) <= DescentReads(w, base, drill)
    decreases |drill|
  {
    hide Sweep;
    if k < |drill| {
      var init := drill[..|drill| - 1];
      assert init[..k] == drill[..k];
      DescendGrows(w, base, init, k);
      var l := Descend(w, base, init);
      SweepGrows(w, drill[|drill| - 1], l.next, l.(next := []), 0);
      SweepNothing(w, drill[|drill| - 1], l.next, l.(next := []));
    } else {
      assert drill[..k] == drill;
    }
  }

  lemma SweepNothing(w: Walker, seg: string, frontier: seq<Path>, l: Level)
    ensures Sweep(w, seg, frontier[..0], l) == l
  {
  }

  lemma {:induction false} CollectGrows(w: Walker, leaf: Option<string>, frontier: seq<Path>, d: nat)
    requires d <= |frontier|
    ensures Begins(Collect(w, leaf, frontier[..d]), Collect(w, leaf, frontier))
    decreases |frontier|
  {
    hide LeafEvents;
    if d < |frontier| {
      assert frontier[..|frontier| - 1][..d] == frontier[..d];
      CollectGrows(w, leaf, frontier[..|frontier| - 1], d);
    } else {
      assert frontier[..d] == frontier;
    }
  }

  /** The events of one level are part of those of the next. */
  lemma LevelGrows(w: Walker, q: Parsed, k: nat, d: nat)
    requires k < |Drill(q)| && d <= |After(w, q, k).next|
    ensures var l := After(w, q, k);
            Begins(Sweep(w, Drill(q)[k], l.next[..d], l.(next := [])).events, Descend(w, q.base, Drill(q)).events)
    ensures var sofar := DescentReads(w, q.base, Drill(q)[..k]);
            After(w, q, k).next != [] ==> sofar + 1 + |After(w, q, k).next| <= DescentReads(w, q.base, Drill(q))
  {
    hide Sweep;
    var drill, l := Drill(q), After(w, q, k);
    assert drill[..k + 1][..k] == drill[..k];
    SweepGrows(w, drill[k], l.next, l.(next := []), d);
    DescendGrows(w, q.base, drill, k + 1);
  }

  lemma {:induction false} SweepIsUnfinished(w: Walker, seg: string, frontier: seq<Path>, l: Level)
    requires Finished !in l.events
    ensures Finished !in Sweep(w, seg, frontier, l).events
  {
    hide Entered;
    if frontier != [] {
      SweepIsUnfinished(w, seg, frontier[..|frontier| - 1], l);
    }
  }

  lemma {:induction false} DescentIsUnfinished(w: Walker, base: Path, drill: seq<string>)
    ensures Finished !in Descend(w, base, drill).events
  {
    hide Sweep;
    if drill != [] {
      DescentIsUnfinished(w, base, drill[..|drill| - 1]);
      var l := Descend(w, base, drill[..|drill| - 1]);
      SweepIsUnfinished(w, drill[|drill| - 1], l.next, l.(next := []));
    }
  }

  lemma {:induction false} LeavesAreUnfinished(w: Walker, leaf: Option<string>, frontier: seq<Path>)
    ensures Finished !in Collect(w, leaf, frontier)
  {
    if frontier != [] {
      LeavesAreUnfinished(w, leaf, frontier[..|frontier| - 1]);
    }
  }

  /** The events of a cut walk begin those of the whole descent and leaf pass. */
  lemma CutIsBeginning(w: Walker, q: Parsed, stop: Stop, patience: nat)
    requires StopsAt(w, q, stop, patience) && !stop.Completed?
    ensures var l := Descend(w, q.base, Drill(q));
            Begins(EventsAt(w, q, stop, patience), l.events + Collect(w, Leaf(q), l.next))
    ensures patience < Reads(w, q)
  {
    hide Sweep, Collect, Descend;
    match stop
    case InLevel(k) =>
      DescendGrows(w, q.base, Drill(q), k);
      LevelGrows(w, q, k, 0);
    case InDir(k, d) => LevelGrows(w, q, k, d);
    case BeforeLeaf =>
    case InLeaf(d) => CollectGrows(w, Leaf(q), Descend(w, q.base, Drill(q)).next, d);
  }

  /** A cancelled walk sends a beginning of the whole walk's events, and never
      the last of them. */
  lemma CancelledNeverFinishes(w: Walker, q: Parsed, stop: Stop, patience: nat)
    requires StopsAt(w, q, stop, patience)
    ensures var events := EventsAt(w, q, stop, patience);
            && Begins(events, Walk(w, q))
            && (Finished in events <==> events == Walk(w, q))
            && (events == Walk(w, q) <==> patience >= Reads(w, q))
  {
    hide Descend, Collect;
    var l := Descend(w, q.base, Drill(q));
    var cut := l.events + Collect(w, Leaf(q), l.next);
    assert Walk(w, q) == cut + [Finished];
    if !stop.Completed? {
      CutIsBeginning(w, q, stop, patience);
      DescentIsUnfinished(w, q.base, Drill(q));
      LeavesAreUnfinished(w, Leaf(q), l.next);
      var events := EventsAt(w, q, stop, patience);
      assert forall i | 0 <= i < |events| :: events[i] == cut[i] && cut[i] in cut;
    }
  }

  // ---- the loops ----

  /** `patience` counts the reads of the cancel flag that still find it clear;
      `left` is what remains of it, or the walk is over. */
  method SweepLevel(w: Walker, seg: string, frontier: seq<Path>, start: Level, patience: nat)
    returns (l: Level, left: Option<nat>)
    ensures left == if patience >= |frontier| then Some(patience - |frontier|) else None
    ensures l == Sweep(w, seg, if patience >= |frontier| then frontier else frontier[..patience], start)
  {
    l := start;
    for i := 0 to |frontier|
      invariant i <= patience
      invariant l == Sweep(w, seg, frontier[..i], start)
    {
      if i == patience {
        return l, None;
      }
      var dir := frontier[i];
      assert frontier[..i + 1][..i] == frontier[..i];
      if dir in l.visited {
        continue;
      }
      l := l.(visited := l.visited + {dir});
      match w.list(dir)
      case Err(message) => l := l.(events := l.events + [ListError(w, dir, message)]);
      case Ok(entries) =>
        var found := CollectEntered(entries, seg);
        l := l.(next := l.next + found);
    }
    assert frontier[..|frontier|] == frontier;
    left := Some(patience - |frontier|);
  }

  method CollectEntered(entries: seq<DirEntry>, seg: string) returns (found: seq<Path>)
    ensures found == Entered(entries, seg)
  {
    found := [];
    for i := 0 to |entries|
      invariant found == Entered(entries[..i], seg)
    {
      assert entries[..i + 1][..i] == entries[..i];
      if entries[i].isDir && FileName(entries[i].path) == Some(seg) {
        found := found + [entries[i].path];
      }
    }
    assert entries[..|entries|] == entries;
  }

  method CollectHits(w: Walker, leaf: Option<string>, entries: seq<DirEntry>) returns (hits: seq<Hit>)
    ensures hits == LeafHits(w, leaf, entries)
  {
    hits := [];
    for i := 0 to |entries|
      invariant hits == LeafHits(w, leaf, entries[..i])
    {
      assert entries[..i + 1][..i] == entries[..i];
      var hit := HitOf(w, leaf, entries[i]);
      if hit.Some? {
        hits := hits + [hit.value];
      }
    }
    assert entries[..|entries|] == entries;
  }

  lemma {:induction false} EmptyStaysEmpty(w: Walker, base: Path, drill: seq<string>, k: nat)
    requires k <= |drill| && Descend(w, base, drill[..k]).next == []
    ensures Descend(w, base, drill) == Descend(w, base, drill[..k])
    ensures DescentReads(w, base, drill) == DescentReads(w, base, drill[..k])
    decreases |drill| - k
  {
    if k == |drill| {
      assert drill[..k] == drill;
    } else {
      assert drill[..k + 1][..k] == drill[..k];
      EmptyStaysEmpty(w, base, drill, k + 1);
    }
  }

  /** `walk_levels`, leaving the descent as soon as no directory is left, and the
      walk as soon as the flag is found set: at the read after `patience` clear
      ones. */
  method WalkLevels(w: Walker, q: Parsed, patience: nat) returns (events: seq<Kind>, ghost stop: Stop)
    ensures StopsAt(w, q, stop, patience)
    ensures events == EventsAt(w, q, stop, patience)
    ensures Begins(events, Walk(w, q)) && (Finished in events <==> patience >= Reads(w, q))
  {
    hide Sweep, LeafEvents, Walk, Reads;
    var drill, leaf := Drill(q), Leaf(q);
    var l := Level([q.base], {}, []);
    var k, left := 0, patience;
    while k < |drill| && l.next != []
      invariant 0 <= k <= |drill| && l == Descend(w, q.base, drill[..k])
      invariant 0 <= left && patience == DescentReads(w, q.base, drill[..k]) + left
    {
      if left == 0 {
        CancelledNeverFinishes(w, q, InLevel(k), patience);
        return l.events, InLevel(k);
      }
      assert drill[..k + 1][..k] == drill[..k];
      var swept, rest := SweepLevel(w, drill[k], l.next, l.(next := []), left - 1);
      if rest.None? {
        CancelledNeverFinishes(w, q, InDir(k, left - 1), patience);
        return swept.events, InDir(k, left - 1);
      }
      l, left := swept, rest.value;
      k := k + 1;
    }
    if l.next == [] {
      EmptyStaysEmpty(w, q.base, drill, k);
    }
    assert drill[..k] == drill || l.next == [];
    events, stop := Leaves(w, q, l, left, patience);
    CancelledNeverFinishes(w, q, stop, patience);
  }

  /** The leaf pass over the directories reached. */
  method Leaves(w: Walker, q: Parsed, l: Level, left: nat, ghost patience: nat)
    returns (events: seq<Kind>, ghost stop: Stop)
    requires l == Descend(w, q.base, Drill(q))
    requires patience == DescentReads(w, q.base, Drill(q)) + left
    ensures StopsAt(w, q, stop, patience)
    ensures events == EventsAt(w, q, stop, patience)
  {
    hide LeafEvents, Descend, DescentReads;
    events := l.events;
    if left == 0 {
      return events, BeforeLeaf;
    }
    if l.next == [] {
      assert l.events + [] + [Finished] == l.events + [Finished];
      return l.events + [Finished], Completed;
    }
    var frontier, leaf := l.next, Leaf(q);
    for i := 0 to |frontier|
      invariant i <= left - 1
      invariant events == l.events + Collect(w, leaf, frontier[..i])
    {
      if i == left - 1 {
        return events, InLeaf(i);
      }
      assert frontier[..i + 1][..i] == frontier[..i];
      var more := LeafPass(w, leaf, frontier[i]);
      events := events + more;
    }
    assert frontier[..|frontier|] == frontier;
    return events + [Finished], Completed;
  }

  method LeafPass(w: Walker, leaf: Option<string>, dir: Path) returns (events: seq<Kind>)
    ensures events == LeafEvents(w, leaf, dir)
  {
    match w.list(dir)
    case Err(message) => events := [ListError(w, dir, message)];
    case Ok(entries) =>
      var hits := CollectHits(w, leaf, entries);
      events := (if leaf.None? then [Drilled(dir)] else []) + Matches(hits);
  }

  // ---- what the walk finds ----

  /** A listing of a directory names each of its children once. */
  ghost predicate NamesChildren(w: Walker) {
    forall d: Path | w.list(d).Ok? :: Children(d, w.list(d).value)
  }

  ghost predicate Children(d: Path, entries: seq<DirEntry>) {
    && (forall i | 0 <= i < |entries| :: entries[i].path == Child(d, Last(entries[i].path)))
    && (forall i, j | 0 <= i < j < |entries| :: entries[i].path != entries[j].path)
  }

  function Last(p: Path): string {
    if p.parts == [] then "" else p.parts[|p.parts| - 1]
  }

  function Child(d: Path, name: string): Path {
    Path(d.rooted, d.parts + [name])
  }

  /** The directory a chain of names leads to, one child at a time. */
  datatype Found = At(dir: Path) | Unlistable(dir: Path, message: string) | NoSuchChild

  function Follow(w: Walker, base: Path, drill: seq<string>): Found {
    if drill == [] then At(base)
    else match Follow(w, base, drill[..|drill| - 1])
      case At(d) =>
        (match w.list(d)
         case Err(message) => Unlistable(d, message)
         case Ok(entries) =>
           if exists e :: e in entries && Enters(e, drill[|drill| - 1])
           then At(Child(d, drill[|drill| - 1])) else NoSuchChild)
      case other => other
  }

  lemma {:induction false} NoneEntered(entries: seq<DirEntry>, seg: string)
    requires forall e | e in entries :: !Enters(e, seg)
    ensures Entered(entries, seg) == []
  {
    hide Enters;
    if entries != [] {
      NoneEntered(entries[..|entries| - 1], seg);
      assert entries[|entries| - 1] in entries;
    }
  }

  lemma {:induction false} EnteredIsTheChild(d: Path, entries: seq<DirEntry>, seg: string)
    requires Children(d, entries)
    ensures Entered(entries, seg) == if exists e :: e in entries && Enters(e, seg) then [Child(d, seg)] else []
  {
    if entries != [] {
      var n := |entries| - 1;
      var init, last := entries[..n], entries[n];
      assert entries == init + [last];
      if Enters(last, seg) {
        OnlyOne(d, entries, seg);
        NoneEntered(init, seg);
        assert last in entries;
      } else {
        EnteredIsTheChild(d, init, seg);
      }
    }
  }

  lemma OnlyOne(d: Path, entries: seq<DirEntry>, seg: string)
    requires Children(d, entries) && entries != [] && Enters(entries[|entries| - 1], seg)
    ensures entries[|entries| - 1].path == Child(d, seg)
    ensures forall e | e in entries[..|entries| - 1] :: !Enters(e, seg)
  {
    var n := |entries| - 1;
    forall e | e in entries[..n] ensures !Enters(e, seg) {
      var i :| 0 <= i < n && entries[i] == e;
      assert entries[i].path != entries[n].path;
      assert entries[i].path == Child(d, Last(entries[i].path)) && entries[n].path == Child(d, Last(entries[n].path));
    }
  }

  predicate Reached(w: Walker, f: Found, l: Level) {
    match f
    case At(d) => l.next == [d] && l.events == [] && forall v | v in l.visited :: |v.parts| < |d.parts|
    case Unlistable(d, message) => l.next == [] && l.events == [ListError(w, d, message)]
    case NoSuchChild => l.next == [] && l.events == []
  }

  /** The level-by-level descent with its list of visited directories is a walk
      along one chain of names: there is never more than one directory on a
      level, and none is met twice. */
  lemma {:induction false} DescentFollowsTheNames(w: Walker, base: Path, drill: seq<string>)
    requires NamesChildren(w)
    ensures Reached(w, Follow(w, base, drill), Descend(w, base, drill))
  {
    hide Children, Enters, Entered;
    if drill != [] {
      var init, seg := drill[..|drill| - 1], drill[|drill| - 1];
      DescentFollowsTheNames(w, base, init);
      var l, f := Descend(w, base, init), Follow(w, base, init);
      SweepOne(w, seg, l.next, l.(next := []));
      if f.At? && w.list(f.dir).Ok? {
        EnteredIsTheChild(f.dir, w.list(f.dir).value, seg);
      }
    }
  }

  lemma SweepOne(w: Walker, seg: string, frontier: seq<Path>, l: Level)
    requires |frontier| <= 1
    ensures Sweep(w, seg, frontier, l) == if frontier == [] then l else Visit(w, seg, l, frontier[0])
  {
    if frontier != [] {
      assert frontier[..0] == [];
    }
  }

  function Ending(w: Walker, leaf: Option<string>, f: Found): seq<Kind> {
    match f
    case At(d) => LeafEvents(w, leaf, d) + [Finished]
    case Unlistable(d, message) => [ListError(w, d, message), Finished]
    case NoSuchChild => [Finished]
  }

  /** So a search ends in one of three ways: a directory and its matching
      entries, a directory that cannot be listed, or nothing. */
  lemma WalkEvents(w: Walker, q: Parsed)
    requires NamesChildren(w)
    ensures Walk(w, q) == Ending(w, Leaf(q), Follow(w, q.base, Drill(q)))
  {
    hide Descend, Follow, LeafEvents;
    DescentFollowsTheNames(w, q.base, Drill(q));
    var l := Descend(w, q.base, Drill(q));
    if l.next != [] {
      CollectOne(w, Leaf(q), l.next[0]);
      assert l.next == [l.next[0]];
      assert l.events + LeafEvents(w, Leaf(q), l.next[0]) == LeafEvents(w, Leaf(q), l.next[0]);
    }
  }

  lemma CollectOne(w: Walker, leaf: Option<string>, dir: Path)
    ensures Collect(w, leaf, [dir]) == LeafEvents(w, leaf, dir)
  {
    hide LeafEvents;
    assert [dir][..0] == [];
    assert [] + LeafEvents(w, leaf, dir) == LeafEvents(w, leaf, dir);
  }

  /** Only the first event can be a drilled directory, so the one event that can
      lose the find cursor (`SearchSafety.AbsorbKeepsCursor`) never comes. */
  lemma DrilledComesFirst(w: Walker, q: Parsed, k: nat)
    requires NamesChildren(w) && 0 < k < |Walk(w, q)|
    ensures !Walk(w, q)[k].Drilled?
  {
    hide Walk, Follow, LeafHits;
    WalkEvents(w, q);
  }

  // ---- what the user sees when it is over ----

  function AbsorbAll(p: PaneSearch, launch: nat, kinds: seq<Kind>): PaneSearch {
    if kinds == [] then p
    else Absorb(AbsorbAll(p, launch, kinds[..|kinds| - 1]), Event(launch, launch % GENERATIONS, kinds[|kinds| - 1]))
  }

  lemma {:induction false} AbsorbSplits(p: PaneSearch, launch: nat, a: seq<Kind>, b: seq<Kind>)
    ensures AbsorbAll(p, launch, a + b) == AbsorbAll(AbsorbAll(p, launch, a), launch, b)
  {
    hide Absorb;
    if b == [] {
      assert a + b == a;
    } else {
      AbsorbSplits(p, launch, a, b[..|b| - 1]);
      assert (a + b)[..|a + b| - 1] == a + b[..|b| - 1];
    }
  }

  predicate Fresh(p: PaneSearch, launch: nat) {
    p.resultsGen != Some(launch % GENERATIONS)
  }

  /** Hits one by one, on top of what the pane shows of this search. */
  lemma {:induction false} AbsorbHits(p: PaneSearch, launch: nat, hits: seq<Hit>)
    requires hits != []
    requires !Fresh(p, launch) ==> p.results == [] && p.cursor == 0
    ensures var t := AbsorbAll(p, launch, Matches(hits));
            && t.results == RankHits(hits) && t.cursor == 0 && t.resultsGen == Some(launch % GENERATIONS)
            && t.currentDir == (if Fresh(p, launch) then None else p.currentDir)
            && t.searching == p.searching && t.error == p.error
  {
    hide RankHits;
    var n := |hits| - 1;
    var init, hit := hits[..n], hits[n];
    assert Matches(hits)[..n] == Matches(init);
    assert hits == init + [hit];
    if n == 0 {
      OneRanked(hit);
      assert Matches(init) == [];
    } else {
      AbsorbHits(p, launch, init);
      Safety.IncrementalRankIsBatch(init, hit);
    }
  }

  lemma OneRanked(hit: Hit)
    ensures RankHits([] + [hit]) == [hit] && RankHits([hit]) == [hit]
  {
    assert [hit][..0] == [] && [] + [hit] == [hit];
    assert RankHits([]) == [];
  }

  /** What a pane in find mode shows after a whole search of a new generation:
      the ranking of exactly the matching entries of the directory the query
      names, with that directory itself on top when everything is listed. */
  lemma FindShowsTheMatches(w: Walker, q: Parsed, p: PaneSearch, launch: nat)
    requires NamesChildren(w) && Fresh(p, launch)
    requires Follow(w, q.base, Drill(q)).At? && w.list(Follow(w, q.base, Drill(q)).dir).Ok?
    ensures var d := Follow(w, q.base, Drill(q)).dir;
            var t := AbsorbAll(p, launch, Walk(w, q));
            && t.results == RankHits(LeafHits(w, Leaf(q), w.list(d).value))
            && t.currentDir == (if Leaf(q).None? then Some(Hit(d, true, 0)) else None)
            && t.cursor == 0 && !t.searching && t.error == p.error
  {
    hide RankHits, Walk, Follow, LeafHits;
    WalkEvents(w, q);
    var d := Follow(w, q.base, Drill(q)).dir;
    var hits := LeafHits(w, Leaf(q), w.list(d).value);
    var first := if Leaf(q).None? then [Drilled(d)] else [];
    AbsorbSplits(p, launch, first + Matches(hits), [Finished]);
    AbsorbSplits(p, launch, first, Matches(hits));
    var u := AbsorbAll(p, launch, first);
    OneEvent(p, launch, Drilled(d));
    if hits == [] {
      assert Matches(hits) == [];
      NothingRanked();
    } else {
      AbsorbHits(u, launch, hits);
    }
    OneEvent(AbsorbAll(p, launch, first + Matches(hits)), launch, Finished);
  }

  lemma OneEvent(p: PaneSearch, launch: nat, kind: Kind)
    ensures AbsorbAll(p, launch, [kind]) == Absorb(p, Event(launch, launch % GENERATIONS, kind))
    ensures AbsorbAll(p, launch, []) == p
  {
    hide Absorb;
    assert [kind][..0] == [];
  }

  lemma NothingRanked()
    ensures RankHits([]) == []
  {
  }

  function Complaint(w: Walker, f: Found): string
    requires f.Unlistable? || (f.At? && w.list(f.dir).Err?)
  {
    w.show(f.dir) + ": " + (if f.Unlistable? then f.message else w.list(f.dir).error)
  }

  /** A query that leads nowhere leaves an empty list; a directory that cannot be
      listed leaves an empty list and its error. */
  lemma FindShowsNothing(w: Walker, q: Parsed, p: PaneSearch, launch: nat)
    requires NamesChildren(w) && Fresh(p, launch)
    requires var f := Follow(w, q.base, Drill(q)); f.At? ==> w.list(f.dir).Err?
    ensures var f := Follow(w, q.base, Drill(q));
            var t := AbsorbAll(p, launch, Walk(w, q));
            && t.results == [] && t.currentDir == None && t.cursor == 0 && !t.searching
            && t.error == (if f.NoSuchChild? then p.error else Some(Complaint(w, f)))
  {
    hide RankHits, Walk, Follow;
    WalkEvents(w, q);
    match Follow(w, q.base, Drill(q))
    case NoSuchChild => OneEvent(p, launch, Finished);
    case Unlistable(d, message) => TwoEvents(p, launch, ListError(w, d, message), Finished);
    case At(d) => TwoEvents(p, launch, ListError(w, d, w.list(d).error), Finished);
  }

  lemma TwoEvents(p: PaneSearch, launch: nat, a: Kind, b: Kind)
    ensures AbsorbAll(p, launch, [a, b]) == AbsorbAll(AbsorbAll(p, launch, [a]), launch, [b])
    ensures [a, b] == [a] + [b]
    ensures AbsorbAll(p, launch, [a]) == Absorb(p, Event(launch, launch % GENERATIONS, a))
    ensures forall r :: AbsorbAll(r, launch, [b]) == Absorb(r, Event(launch, launch % GENERATIONS, b))
  {
    hide Absorb;
    AbsorbSplits(p, launch, [a], [b]);
    OneEvent(p, launch, a);
    forall r ensures AbsorbAll(r, launch, [b]) == Absorb(r, Event(launch, launch % GENERATIONS, b)) {
      OneEvent(r, launch, b);
    }
  }
}
