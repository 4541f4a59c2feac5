/** Paths and directory listings (`crates/sshrack-core/src/dirsource.rs` and the
    path helpers of `pathutil.rs`). */
module DirSource {
  import opened Prelude
  import Sort = StableSort

  // ---- paths ----

  /** A path is compared component by component; `rooted` is a leading `/`. */
  datatype Path = Path(rooted: bool, parts: seq<string>)

  function Parent(p: Path): Option<Path> {
    if p.parts == [] then None else Some(p.(parts := p.parts[..|p.parts| - 1]))
  }

  predicate AtOrBelow(p: Path, d: Path) {
    p.rooted == d.rooted && d.parts <= p.parts
  }

  /** A `.` component survives only at the very front of a relative path. */
  function Join(base: Path, q: Path): Path {
    if q.rooted then q
    else if (base.rooted || base.parts != []) && q.parts != [] && q.parts[0] == "." then
      base.(parts := base.parts + q.parts[1..])
    else base.(parts := base.parts + q.parts)
  }

  function Split(s: string): (r: seq<string>)
    ensures |r| >= 1
  {
    if s == "" then [""]
    else
      var rest := Split(s[1..]);
      if s[0] == '/' then [""] + rest else [[s[0]] + rest[0]] + rest[1..]
  }

  function Components(segments: seq<string>, keepDot: bool): seq<string> {
    if segments == [] then []
    else
      (if segments[0] == "" || (segments[0] == "." && !keepDot) then [] else [segments[0]])
      + Components(segments[1..], false)
  }

  predicate IsAbsolute(s: string) {
    s != "" && s[0] == '/'
  }

  function ParsePath(s: string): Path {
    Path(IsAbsolute(s), Components(Split(s), !IsAbsolute(s)))
  }

  function ExpandTilde(input: string, home: Path): Path {
    if input == "~" then home
    else if |input| >= 2 && (input[..2] == "~/" || input[..2] == "~\\") then Join(home, ParsePath(input[2..]))
    else ParsePath(input)
  }

  predicate StartsWithTilde(s: string) {
    s != "" && s[0] == '~'
  }

  // ---- listings ----

  datatype RawEntry = RawEntry(name: string, path: Path, isDir: bool, isSymlink: bool,
                               size: Option<nat>, modified: Option<nat>)

  datatype DirEntry = DirEntry(name: string, path: Path, isDir: bool, isSymlink: bool,
                               size: Option<nat>, modified: Option<nat>)

  function Decorate(raw: string, isDir: bool, isSymlink: bool): string {
    if isDir then raw + "/" else if isSymlink then raw + "@" else raw
  }

  function ToEntry(item: RawEntry): DirEntry {
    DirEntry(Decorate(item.name, item.isDir, item.isSymlink), item.path, item.isDir,
             item.isSymlink, item.size, item.modified)
  }

  /** An entry is its item, with `/` behind the name of a directory and `@` behind
      that of any other link. */
  lemma EntryIsItsItem(item: RawEntry)
    ensures var e := ToEntry(item);
            && e.path == item.path && e.isDir == item.isDir && e.isSymlink == item.isSymlink
            && e.size == item.size && e.modified == item.modified
            && (item.isDir ==> e.name == item.name + "/")
            && (!item.isDir && item.isSymlink ==> e.name == item.name + "@")
            && (!item.isDir && !item.isSymlink ==> e.name == item.name)
  {
  }

  datatype EntryKey = EntryKey(isDir: bool, lower: string)

  predicate EntryBefore(a: EntryKey, b: EntryKey) {
    (a.isDir && !b.isDir) || (a.isDir == b.isDir && LexLess(a.lower, b.lower))
  }

  lemma EntryBeforeIsStrictTotal()
    ensures Sort.StrictTotal(EntryBefore)
  {
    forall a: EntryKey ensures !EntryBefore(a, a) {
      LexIrreflexive(a.lower);
    }
    forall a: EntryKey, b: EntryKey, c: EntryKey | EntryBefore(a, b) && EntryBefore(b, c)
      ensures EntryBefore(a, c)
    {
      if LexLess(a.lower, b.lower) && LexLess(b.lower, c.lower) {
        LexTransitive(a.lower, b.lower, c.lower);
      }
    }
    forall a: EntryKey, b: EntryKey
      ensures a == b || EntryBefore(a, b) || EntryBefore(b, a)
    {
      LexTotal(a.lower, b.lower);
    }
  }

  /** `lower` is the foreign `str::to_lowercase`. */
  function EntryKeys(lower: string -> string, items: seq<RawEntry>): (r: seq<EntryKey>)
    ensures |r| == |items|
  {
    seq(|items|, i requires 0 <= i < |items| => EntryKey(items[i].isDir, lower(items[i].name)))
  }

  function ListingOrder(lower: string -> string, items: seq<RawEntry>): seq<nat> {
    Sort.SortBy(EntryKeys(lower, items), EntryBefore, Sort.UpTo(|items|))
  }

  /** `build_entries`: sort the items, then decorate them. */
  method BuildEntries(lower: string -> string, items: seq<RawEntry>) returns (entries: seq<DirEntry>)
    ensures |entries| == |ListingOrder(lower, items)| == |items|
    ensures forall k | 0 <= k < |entries| ::
              var i := ListingOrder(lower, items)[k]; i < |items| && entries[k] == ToEntry(items[i])
  {
    var order := SortedItems(lower, items);
    EntryBeforeIsStrictTotal();
    Sort.SortAll(EntryKeys(lower, items), EntryBefore);
    entries := [];
    for k := 0 to |order|
      invariant |entries| == k
      invariant forall j | 0 <= j < k :: entries[j] == ToEntry(items[order[j]])
    {
      entries := entries + [ToEntry(items[order[k]])];
    }
  }

  method SortedItems(lower: string -> string, items: seq<RawEntry>) returns (order: seq<nat>)
    ensures order == ListingOrder(lower, items)
  {
    var a := new nat[|items|](k => k);
    assert a[..] == Sort.UpTo(|items|);
    Sort.SortInPlace(a, EntryKeys(lower, items), EntryBefore);
    order := a[..];
  }

  /** Directories first, then lower-cased name, then the order read from disk. */
  ghost predicate ShownBefore(lower: string -> string, items: seq<RawEntry>, i: nat, j: nat) {
    && i < |items| && j < |items|
    && var a, b := items[i], items[j];
    || (a.isDir && !b.isDir)
    || (a.isDir == b.isDir && LexLess(lower(a.name), lower(b.name)))
    || (a.isDir == b.isDir && lower(a.name) == lower(b.name) && i < j)
  }

  /** Every item once, in listing order. */
  ghost predicate IsListingOrder(lower: string -> string, items: seq<RawEntry>, order: seq<nat>) {
    && (forall i :: i in order <==> 0 <= i < |items|)
    && (forall a, b | 0 <= a < b < |order| :: ShownBefore(lower, items, order[a], order[b]))
  }

  /** The listing order is a stable dirs-first permutation, and the only one. */
  lemma ListingOrderIsTheOrder(lower: string -> string, items: seq<RawEntry>, order: seq<nat>)
    ensures IsListingOrder(lower, items, order) <==> order == ListingOrder(lower, items)
  {
    EntryBeforeIsStrictTotal();
    var keys, r := EntryKeys(lower, items), ListingOrder(lower, items);
    Sort.SortAll(keys, EntryBefore);
    assert IsListingOrder(lower, items, r);
    if IsListingOrder(lower, items, order) {
      Sort.OrderedUnique(keys, EntryBefore, order, r);
    }
  }

  // ---- the listing capability ----

  datatype PathKind = Dir | File | Symlink | NotFound

  datatype ResolvedPath = DirAt(dir: Path) | FileAt(file: Path) | Missing

  /** A listing source whose answers do not change while it is used. */
  datatype Source = Source(list: Path -> Result<seq<DirEntry>, string>,
                           classify: Path -> PathKind,
                           home: Option<Path>)

  function ResolveTarget(src: Source, raw: string, cwd: Path): Path {
    if StartsWithTilde(raw) then
      match src.home case Some(h) => ExpandTilde(raw, h) case None => ParsePath(raw)
    else if IsAbsolute(raw) then ParsePath(raw)
    else Join(cwd, ParsePath(raw))
  }

  function Resolve(src: Source, raw: string, cwd: Path): ResolvedPath {
    var abs := ResolveTarget(src, raw, cwd);
    match src.classify(abs)
    case Dir => DirAt(abs)
    case Symlink => DirAt(abs)
    case File => FileAt(abs)
    case NotFound => Missing
  }

  function CandidatePath(src: Source, c: string): Option<Path> {
    if StartsWithTilde(c) then
      match src.home case Some(h) => Some(ExpandTilde(c, h)) case None => None
    else Some(ParsePath(c))
  }

  predicate IsStartDir(src: Source, c: string) {
    var p := CandidatePath(src, c);
    p.Some? && src.classify(p.value) == Dir
  }

  /** The first candidate that is an existing directory. */
  function StartDir(src: Source, candidates: seq<string>): Option<Path> {
    if candidates == [] then None
    else if IsStartDir(src, candidates[0]) then CandidatePath(src, candidates[0])
    else StartDir(src, candidates[1..])
  }

  /** `resolve_start`: probe the candidates in order. */
  method ResolveStart(src: Source, candidates: seq<string>) returns (start: Option<Path>)
    ensures start == StartDir(src, candidates)
    ensures start.None? <==> forall k | 0 <= k < |candidates| :: !IsStartDir(src, candidates[k])
    ensures start.Some? ==> exists k :: 0 <= k < |candidates| && IsStartDir(src, candidates[k])
                                        && start == CandidatePath(src, candidates[k])
                                        && forall j | 0 <= j < k :: !IsStartDir(src, candidates[j])
  {
    var i := 0;
    while i < |candidates|
      invariant 0 <= i <= |candidates|
      invariant forall j | 0 <= j < i :: !IsStartDir(src, candidates[j])
      invariant StartDir(src, candidates) == StartDir(src, candidates[i..])
    {
      var p := CandidatePath(src, candidates[i]);
      if p.Some? && src.classify(p.value) == Dir {
        assert IsStartDir(src, candidates[i]);
        return p;
      }
      i := i + 1;
    }
    return None;
  }
}
