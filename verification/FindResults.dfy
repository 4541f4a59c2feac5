/** What a search finds, told from the listing and the query alone
    (`crates/sshrack-core/src/pathfind.rs`): no other file says which entries
    match, how a query divides, or what a step of the descent enters. */
module FindResults {
  import opened Prelude
  import opened DirSource
  import opened Search
  import opened Pathfind
  import Safety = SearchSafety

  /** The last name of a path; `.` and `..` are no names. */
  predicate HasName(p: Path, name: string) {
    p.parts != [] && p.parts[|p.parts| - 1] == name && name != "." && name != ".."
  }

  /** `hit` reports the entry: its path, whether it is a directory, and the score
      the matcher gives its name, or 0 when everything is listed. */
  ghost predicate Reports(w: Walker, leaf: Option<string>, e: DirEntry, hit: Hit) {
    && hit.path == e.path && hit.isDir == e.isDir
    && exists name :: HasName(e.path, name)
                      && if leaf.None? then hit.score == 0 else w.matches(name, leaf.value) == Some(hit.score)
  }

  /** A query ends in a slash, and every segment is descended into; or its last
      segment is the pattern and the others are descended into. */
  lemma QueryDivides(q: Parsed)
    ensures q.trailingSlash || q.segments == [] ==> Leaf(q) == None && Drill(q) == q.segments
    ensures !q.trailingSlash && q.segments != [] ==> Leaf(q).Some? && Drill(q) + [Leaf(q).value] == q.segments
  {
  }

  lemma HitReports(w: Walker, leaf: Option<string>, e: DirEntry)
    ensures HitOf(w, leaf, e).Some? <==> exists hit :: Reports(w, leaf, e, hit)
    ensures forall hit :: Reports(w, leaf, e, hit) ==> HitOf(w, leaf, e) == Some(hit)
  {
    var name := if e.path.parts == [] then "" else e.path.parts[|e.path.parts| - 1];
    assert FileName(e.path).Some? <==> HasName(e.path, name);
    assert forall n | HasName(e.path, n) :: n == name;
    if HitOf(w, leaf, e).Some? {
      assert Reports(w, leaf, e, HitOf(w, leaf, e).value);
    }
  }

  lemma {:induction false} LeafHitsReport(w: Walker, leaf: Option<string>, entries: seq<DirEntry>)
    ensures forall hit :: hit in LeafHits(w, leaf, entries) <==> exists e :: e in entries && Reports(w, leaf, e, hit)
  {
    hide Reports, HitOf;
    if entries != [] {
      var n := |entries| - 1;
      var init, last := entries[..n], entries[n];
      assert entries == init + [last];
      LeafHitsReport(w, leaf, init);
      HitReports(w, leaf, last);
      forall hit ensures hit in LeafHits(w, leaf, entries) <==> exists e :: e in entries && Reports(w, leaf, e, hit) {
        if Reports(w, leaf, last, hit) {
          assert last in entries;
        }
        if e :| e in init && Reports(w, leaf, e, hit) {
          assert e in entries;
        }
      }
    }
  }

  lemma {:induction false} LeafHitsDiffer(w: Walker, leaf: Option<string>, entries: seq<DirEntry>)
    requires forall i, j | 0 <= i < j < |entries| :: entries[i].path != entries[j].path
    ensures forall i, j | 0 <= i < j < |LeafHits(w, leaf, entries)| ::
              LeafHits(w, leaf, entries)[i].path != LeafHits(w, leaf, entries)[j].path
  {
    hide HitOf;
    if entries != [] {
      var n := |entries| - 1;
      var init, last := entries[..n], entries[n];
      LeafHitsDiffer(w, leaf, init);
      LeafHitsReport(w, leaf, init);
      var hits := LeafHits(w, leaf, init);
      HitReports(w, leaf, last);
      forall i | 0 <= i < |hits| && HitOf(w, leaf, last).Some?
        ensures hits[i].path != HitOf(w, leaf, last).value.path
      {
        assert hits[i] in hits;
        var e :| e in init && Reports(w, leaf, e, hits[i]);
      }
    }
  }

  /** The higher score stands above, then the path of fewer components, then the
      one that comes first component by component. */
  predicate StandsAbove(a: Hit, b: Hit) {
    var m := |a.path.parts| + (if a.path.rooted then 1 else 0);
    var n := |b.path.parts| + (if b.path.rooted then 1 else 0);
    a.score > b.score || (a.score == b.score && (m < n || (m == n && !ComesAfter(a.path, b.path))))
  }

  /** `/` comes before any name; names are compared byte by byte. */
  predicate ComesAfter(a: Path, b: Path) {
    if a.rooted != b.rooted then b.rooted
    else exists k: nat :: k <= |a.parts| && k <= |b.parts| && a.parts[..k] == b.parts[..k]
                          && k < |a.parts| && (k == |b.parts| || LexLess(b.parts[k], a.parts[k]))
  }

  lemma {:induction false} PartsLessAt(a: seq<string>, b: seq<string>)
    ensures PartsLess(b, a) <==>
              exists k: nat :: k <= |a| && k <= |b| && a[..k] == b[..k]
                               && k < |a| && (k == |b| || LexLess(b[k], a[k]))
  {
    hide LexLess;
    if PartsLess(b, a) {
      var k := FirstDifference(b, a);
    }
    if k: nat :| k <= |a| && k <= |b| && a[..k] == b[..k] && k < |a| && (k == |b| || LexLess(b[k], a[k])) {
      DifferenceDecides(b, a, k);
    }
  }

  lemma {:induction false} FirstDifference(b: seq<string>, a: seq<string>) returns (k: nat)
    requires PartsLess(b, a)
    ensures k < |a| && k <= |b| && a[..k] == b[..k] && (k == |b| || LexLess(b[k], a[k]))
  {
    hide LexLess;
    k := 0;
    if b != [] && !LexLess(b[0], a[0]) {
      var j := FirstDifference(b[1..], a[1..]);
      k := j + 1;
      assert a[..k] == [a[0]] + a[1..][..j] && b[..k] == [b[0]] + b[1..][..j];
    }
  }

  lemma {:induction false} DifferenceDecides(b: seq<string>, a: seq<string>, k: nat)
    requires k < |a| && k <= |b| && a[..k] == b[..k] && (k == |b| || LexLess(b[k], a[k]))
    ensures PartsLess(b, a)
  {
    hide LexLess;
    if k > 0 {
      assert a[0] == a[..k][0] == b[..k][0] == b[0];
      assert a[1..][..k - 1] == a[..k][1..] && b[1..][..k - 1] == b[..k][1..];
      DifferenceDecides(b[1..], a[1..], k - 1);
    }
  }

  lemma NotBeforeStandsAbove(a: Hit, b: Hit)
    requires !HitBefore(b, a)
    ensures StandsAbove(a, b)
  {
    hide PartsLess, LexLess;
    PartsLessAt(a.path.parts, b.path.parts);
  }

  /** After a whole search the list shows one hit for each entry of the directory
      found that matches, reported as it is, and nothing else, best first. */
  lemma ResultsAreTheMatches(w: Walker, q: Parsed, p: PaneSearch, launch: nat)
    requires NamesChildren(w) && Fresh(p, launch)
    requires Follow(w, q.base, Drill(q)).At? && w.list(Follow(w, q.base, Drill(q)).dir).Ok?
    ensures var entries := w.list(Follow(w, q.base, Drill(q)).dir).value;
            var results := AbsorbAll(p, launch, Walk(w, q)).results;
            && (forall hit :: hit in results <==> exists e :: e in entries && Reports(w, Leaf(q), e, hit))
            && (forall i, j | 0 <= i < j < |results| :: results[i].path != results[j].path)
            && (forall i, j | 0 <= i < j < |results| :: StandsAbove(results[i], results[j]))
  {
    hide Walk, Follow, RankHits, LeafHits, Reports, StandsAbove;
    FindShowsTheMatches(w, q, p, launch);
    var d := Follow(w, q.base, Drill(q)).dir;
    var entries := w.list(d).value;
    var hits := LeafHits(w, Leaf(q), entries);
    assert Children(d, entries);
    LeafHitsReport(w, Leaf(q), entries);
    LeafHitsDiffer(w, Leaf(q), entries);
    Safety.RankHitsRanks(hits);
    SamePaths(hits, RankHits(hits));
    forall hit ensures hit in RankHits(hits) <==> hit in hits {
      assert hit in multiset(RankHits(hits)) <==> hit in multiset(hits);
    }
    RankedHits(hits);
  }

  lemma RankedHits(hits: seq<Hit>)
    ensures var r := RankHits(hits); forall i, j | 0 <= i < j < |r| :: StandsAbove(r[i], r[j])
  {
    hide HitBefore, RankHits, StandsAbove;
    Safety.RankHitsRanks(hits);
    var r := RankHits(hits);
    forall i, j | 0 <= i < j < |r| ensures StandsAbove(r[i], r[j]) {
      NotBeforeStandsAbove(r[i], r[j]);
    }
  }

  /** A rearrangement of hits with different paths has different paths. */
  lemma SamePaths(a: seq<Hit>, b: seq<Hit>)
    requires multiset(a) == multiset(b)
    requires forall i, j | 0 <= i < j < |a| :: a[i].path != a[j].path
    ensures forall i, j | 0 <= i < j < |b| :: b[i].path != b[j].path
  {
    forall i, j | 0 <= i < j < |b|
      ensures b[i].path != b[j].path
    {
      var x, y := b[i], b[j];
      assert x in multiset(a) && y in multiset(a);
      if x == y {
        TwiceInside(b, i, j);
        OnceInside(a, x);
      }
    }
  }

  lemma TwiceInside(b: seq<Hit>, i: nat, j: nat)
    requires i < j < |b| && b[i] == b[j]
    ensures multiset(b)[b[i]] >= 2
  {
    assert b == b[..i] + [b[i]] + b[i + 1..j] + [b[j]] + b[j + 1..];
  }

  lemma {:induction false} OnceInside(a: seq<Hit>, x: Hit)
    requires forall i, j | 0 <= i < j < |a| :: a[i].path != a[j].path
    ensures multiset(a)[x] <= 1
  {
    if a != [] {
      assert a == [a[0]] + a[1..];
      OnceInside(a[1..], x);
      assert forall k | 0 < k < |a| :: a[k].path != a[0].path;
      assert a[0] !in a[1..];
    }
  }

  /** The descent goes through the one child directory of each name: each step
      enters a listed directory of that very name, or there is none. */
  lemma DescentEntersChildren(w: Walker, base: Path, drill: seq<string>, name: string)
    requires Follow(w, base, drill).At? && w.list(Follow(w, base, drill).dir).Ok?
    ensures var d, entries := Follow(w, base, drill).dir, w.list(Follow(w, base, drill).dir).value;
            var next := Follow(w, base, drill + [name]);
            && (next.At? <==> exists e :: e in entries && e.isDir && HasName(e.path, name))
            && (next.At? ==> next.dir == Path(d.rooted, d.parts + [name]))
            && (!next.At? ==> next == NoSuchChild)
  {
    hide Follow;
    assert (drill + [name])[..|drill|] == drill;
    FollowOne(w, base, drill + [name]);
    assert forall e: DirEntry :: Enters(e, name) <==> e.isDir && HasName(e.path, name);
  }

  /** A level takes in every child of the name of every directory of the level
      above that can be listed, and no other. */
  lemma {:induction false} LevelTakesAllChildren(w: Walker, name: string, frontier: seq<Path>, events: seq<Kind>)
    ensures var l := Sweep(w, name, frontier, Level([], {}, events));
            && (forall d :: d in l.visited <==> d in frontier)
            && (forall p :: p in l.next <==>
                  exists d :: d in frontier && w.list(d).Ok? && IsChildOf(w.list(d).value, name, p))
  {
    if frontier != [] {
      var init, last := frontier[..|frontier| - 1], frontier[|frontier| - 1];
      assert frontier == init + [last];
      LevelTakesAllChildren(w, name, init, events);
      if w.list(last).Ok? {
        EnteredAreChildren(w.list(last).value, name);
      }
      hide IsChildOf;
    }
  }

  predicate IsChildOf(entries: seq<DirEntry>, name: string, p: Path) {
    exists e :: e in entries && e.isDir && HasName(e.path, name) && e.path == p
  }

  lemma {:induction false} EnteredAreChildren(entries: seq<DirEntry>, name: string)
    ensures forall p :: p in Entered(entries, name) <==> IsChildOf(entries, name, p)
  {
    if entries != [] {
      var init, last := entries[..|entries| - 1], entries[|entries| - 1];
      assert entries == init + [last];
      EnteredAreChildren(init, name);
      assert Enters(last, name) <==> last.isDir && HasName(last.path, name);
    }
  }

  lemma FollowOne(w: Walker, base: Path, drill: seq<string>)
    requires drill != []
    ensures var init, name := drill[..|drill| - 1], drill[|drill| - 1];
            Follow(w, base, init).At? && w.list(Follow(w, base, init).dir).Ok? ==>
              var d := Follow(w, base, init).dir;
              Follow(w, base, drill)
              == if exists e :: e in w.list(d).value && Enters(e, name) then At(Child(d, name)) else NoSuchChild
  {
  }
}
