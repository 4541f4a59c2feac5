/** Highlighting matched characters (`src/tui/panel.rs`). Rust slices strings at
    byte offsets, so the loop works on UTF-8 offsets; a slice off a character
    boundary would panic. */
module Highlight {
  import opened Prelude
  import Sort = StableSort

  /** A run of text with one style; `hit` is the highlighted style. */
  datatype Span = Span(text: string, hit: bool)

  function Utf8Len(c: char): (n: nat)
    ensures 1 <= n <= 4
  {
    var code := c as int;
    if code < 0x80 then 1 else if code < 0x800 then 2 else if code < 0x1_0000 then 3 else 4
  }

  /** `str::len`: the number of UTF-8 bytes. */
  function Bytes(s: string): nat {
    if s == "" then 0 else Utf8Len(s[0]) + Bytes(s[1..])
  }

  ghost predicate OnBoundary(s: string, byte: nat) {
    exists i :: 0 <= i <= |s| && Bytes(s[..i]) == byte
  }

  /** The number of characters that lie wholly in the first `byte` bytes. */
  function CharsIn(s: string, byte: nat): (k: nat)
    ensures k <= |s|
  {
    if s == "" || byte < Utf8Len(s[0]) then 0 else 1 + CharsIn(s[1..], byte - Utf8Len(s[0]))
  }

  lemma {:induction false} CharsInOffset(s: string, i: nat)
    requires i <= |s|
    ensures CharsIn(s, Bytes(s[..i])) == i
    decreases |s|
  {
    if i > 0 {
      assert s[..i][1..] == s[1..][..i - 1];
      CharsInOffset(s[1..], i - 1);
    }
  }

  lemma {:induction false} BytesOfPrefix(s: string, i: nat)
    requires i < |s|
    ensures Bytes(s[..i + 1]) == Bytes(s[..i]) + Utf8Len(s[i])
    decreases |s|
  {
    if i > 0 {
      assert s[..i][1..] == s[1..][..i - 1] && s[..i + 1][1..] == s[1..][..i];
      BytesOfPrefix(s[1..], i - 1);
    }
  }

  lemma {:induction false} BytesMonotone(s: string, i: nat, j: nat)
    requires i <= j <= |s|
    ensures Bytes(s[..i]) <= Bytes(s[..j])
    ensures Bytes(s[..i]) == Bytes(s[..j]) <==> i == j
    decreases j - i
  {
    if i < j {
      BytesOfPrefix(s, i);
      BytesMonotone(s, i + 1, j);
    }
  }

  /** `&s[from..to]`; the precondition is what keeps Rust from panicking. */
  function Slice(s: string, from: nat, to: nat): string
    requires from <= to && OnBoundary(s, from) && OnBoundary(s, to)
  {
    var a, b := CharsIn(s, from), CharsIn(s, to);
    if a <= b then s[a..b] else ""
  }

  /** `char_to_byte`: past the end it falls back to the length. */
  function CharToByte(s: string, idx: nat): nat {
    if idx < |s| then Bytes(s[..idx]) else Bytes(s)
  }

  /** The length in bytes of the character that starts at `byte`, 0 at the end. */
  function LenAt(s: string, byte: nat): nat {
    var k := CharsIn(s, byte);
    if k < |s| then Utf8Len(s[k]) else 0
  }

  // ---- what a list of spans shows ----

  function Text(spans: seq<Span>): string {
    if spans == [] then "" else Text(spans[..|spans| - 1]) + spans[|spans| - 1].text
  }

  function Tagged(span: Span): seq<(char, bool)> {
    seq(|span.text|, i requires 0 <= i < |span.text| => (span.text[i], span.hit))
  }

  /** Every character shown, with whether it is highlighted. */
  function Shown(spans: seq<Span>): seq<(char, bool)> {
    if spans == [] then [] else Shown(spans[..|spans| - 1]) + Tagged(spans[|spans| - 1])
  }

  /** The promise: the whole text, highlighted exactly at the matched indices. */
  function Marked(s: string, hits: set<nat>): (r: seq<(char, bool)>)
    ensures |r| == |s|
  {
    seq(|s|, i requires 0 <= i < |s| => (s[i], i in hits))
  }

  lemma ShownPush(spans: seq<Span>, span: Span)
    ensures Shown(spans + [span]) == Shown(spans) + Tagged(span)
    ensures Text(spans + [span]) == Text(spans) + span.text
  {
    assert (spans + [span])[..|spans|] == spans;
  }

  lemma {:induction false} TextOfShown(spans: seq<Span>)
    ensures |Text(spans)| == |Shown(spans)|
    ensures forall i | 0 <= i < |Text(spans)| :: Text(spans)[i] == Shown(spans)[i].0
    decreases |spans|
  {
    if spans != [] {
      TextOfShown(spans[..|spans| - 1]);
    }
  }

  lemma {:induction false} TextConcat(a: seq<Span>, b: seq<Span>)
    ensures Text(a + b) == Text(a) + Text(b)
    decreases |b|
  {
    if b == [] {
      assert a + b == a;
    } else {
      var init, last := b[..|b| - 1], b[|b| - 1];
      assert (a + b)[..|a + b| - 1] == a + init;
      TextConcat(a, init);
      assert Text(a + b) == Text(a + init) + last.text;
    }
  }

  // ---- the code ----

  function Hits(raw: seq<nat>): set<nat> {
    set i | i in raw
  }

  predicate Less(a: nat, b: nat) {
    a < b
  }

  /** `match_indices` after nucleo: sort, then drop repeats. */
  method SortDedup(raw: seq<nat>) returns (idx: seq<nat>)
    ensures forall a, b | 0 <= a < b < |idx| :: idx[a] < idx[b]
    ensures Hits(idx) == Hits(raw)
  {
    var sorted := SortValues(raw);
    idx := Dedup(sorted);
    assert forall v :: v in idx <==> v in raw;
  }

  method SortValues(raw: seq<nat>) returns (sorted: seq<nat>)
    ensures forall a, b | 0 <= a < b < |sorted| :: sorted[a] <= sorted[b]
    ensures forall v :: v in sorted <==> v in raw
  {
    var a := new nat[|raw|](k => k);
    assert a[..] == Sort.UpTo(|raw|);
    Sort.SortInPlace(a, raw, Less);
    SortedValues(raw);
    sorted := ValuesAt(raw, a[..]);
  }

  function ValuesAt(raw: seq<nat>, order: seq<nat>): (r: seq<nat>)
    requires Sort.Within(order, |raw|)
  {
    seq(|order|, k requires 0 <= k < |order| => raw[order[k]])
  }

  lemma SortedValues(raw: seq<nat>)
    ensures var order := Sort.SortBy(raw, Less, Sort.UpTo(|raw|));
            && Sort.Within(order, |raw|)
            && var sorted := ValuesAt(raw, order);
            && (forall a, b | 0 <= a < b < |sorted| :: sorted[a] <= sorted[b])
            && (forall v :: v in sorted <==> v in raw)
  {
    Sort.SortAll(raw, Less);
    var order := Sort.SortBy(raw, Less, Sort.UpTo(|raw|));
    hide Sort.SortBy;
    var sorted := ValuesAt(raw, order);
    forall v | v in raw ensures v in sorted {
      var p: nat :| p < |raw| && raw[p] == v;
      assert p in order;
      var k :| 0 <= k < |order| && order[k] == p;
      assert sorted[k] == v;
    }
  }

  /** `Vec::dedup` on a sorted vector. */
  method Dedup(sorted: seq<nat>) returns (idx: seq<nat>)
    requires forall a, b | 0 <= a < b < |sorted| :: sorted[a] <= sorted[b]
    ensures forall a, b | 0 <= a < b < |idx| :: idx[a] < idx[b]
    ensures forall v :: v in idx <==> v in sorted
  {
    idx := [];
    for k := 0 to |sorted|
      invariant forall a, b | 0 <= a < b < |idx| :: idx[a] < idx[b]
      invariant forall v :: v in idx <==> v in sorted[..k]
      invariant k > 0 ==> idx != [] && idx[|idx| - 1] == sorted[k - 1]
      invariant forall i | 0 <= i < |idx| :: k > 0 && idx[i] <= sorted[k - 1]
    {
      if idx == [] || idx[|idx| - 1] != sorted[k] {
        idx := idx + [sorted[k]];
      }
    }
    assert sorted[..|sorted|] == sorted;
  }

  /** The span loop of `highlighted_spans` over sorted, distinct indices: the
      text is shown whole, and highlighted exactly at the indices inside it. */
  method SpansAt(s: string, idx: seq<nat>) returns (spans: seq<Span>)
    requires forall a, b | 0 <= a < b < |idx| :: idx[a] < idx[b]
    ensures Shown(spans) == Marked(s, Hits(idx))
  {
    hide Marked, Stretch, CharsIn, Bytes;
    spans := [];
    var prev := 0;
    ghost var p := 0;   // characters shown so far
    EmptyStretch(s, Hits(idx));
    for k := 0 to |idx|
      invariant 0 <= p <= |s| && prev == Bytes(s[..p])
      invariant Shown(spans) == Marked(s, Hits(idx))[..p]
      invariant k < |idx| ==> p <= Clip(s, idx[k])
      invariant forall j | 0 <= j < k :: idx[j] < p || p == |s|
    {
      var byte := CharToByte(s, idx[k]);
      ghost var q := Clip(s, idx[k]);   // the character `byte` points at
      assert q == |s| ==> s[..q] == s;
      BytesMonotone(s, p, q);
      if byte > prev {
        spans := PushSlice(s, spans, prev, byte, false, p, q);
        GapIsUnmatched(s, idx, k, p, q);
      }
      var next := byte + LenAt(s, byte);
      ghost var r := AfterMatch(s, q);
      spans := PushSlice(s, spans, byte, next, true, q, r);
      MatchIsMarked(s, Hits(idx), q, r);
      prev := next;
      p := r;
    }
    assert s[..|s|] == s;
    if prev < Bytes(s) {
      GapIsUnmatched(s, idx, |idx|, p, |s|);
      spans := PushSlice(s, spans, prev, Bytes(s), false, p, |s|);
    } else {
      BytesMonotone(s, p, |s|);
    }
    assert Marked(s, Hits(idx))[..|s|] == Marked(s, Hits(idx));
  }

  /** Characters `p` to `q`, all in one style. */
  function Stretch(s: string, p: nat, q: nat, hit: bool): (r: seq<(char, bool)>)
    requires p <= q <= |s|
    ensures |r| == q - p
  {
    seq(q - p, i requires 0 <= i < q - p => (s[p + i], hit))
  }

  lemma EmptyStretch(s: string, hits: set<nat>)
    ensures Shown([]) == Marked(s, hits)[..0] && Bytes(s[..0]) == 0
  {
  }

  /** The character after a match at `q`, which may be the end of the text. */
  lemma AfterMatch(s: string, q: nat) returns (r: nat)
    requires q <= |s|
    ensures r == (if q < |s| then q + 1 else q)
    ensures Bytes(s[..r]) == Bytes(s[..q]) + LenAt(s, Bytes(s[..q]))
  {
    CharsInOffset(s, q);
    r := if q < |s| then q + 1 else q;
    if q < |s| { BytesOfPrefix(s, q); }
  }

  lemma MatchIsMarked(s: string, hits: set<nat>, q: nat, r: nat)
    requires q <= |s| && r == (if q < |s| then q + 1 else q)
    requires q < |s| ==> q in hits
    ensures Marked(s, hits)[..q] + Stretch(s, q, r, true) == Marked(s, hits)[..r]
  {
  }

  /** A character index clipped to the text. */
  function Clip(s: string, idx: nat): nat {
    if idx < |s| then idx else |s|
  }

  /** Between the last shown character and the next match nothing is matched. */
  lemma GapIsUnmatched(s: string, idx: seq<nat>, k: nat, p: nat, q: nat)
    requires forall a, b | 0 <= a < b < |idx| :: idx[a] < idx[b]
    requires k <= |idx| && p <= q <= |s|
    requires forall j | 0 <= j < k :: idx[j] < p || p == |s|
    requires k < |idx| ==> q <= idx[k]
    ensures Marked(s, Hits(idx))[..p] + Stretch(s, p, q, false) == Marked(s, Hits(idx))[..q]
  {
    forall j | 0 <= j < |idx|
      ensures idx[j] < p || idx[j] >= q
    {
      if j > k {
        assert idx[k] < idx[j];
      }
    }
  }

  /** Push `&s[from..to]`, whose bytes are the characters `p` to `q`. */
  method PushSlice(s: string, spans: seq<Span>, from: nat, to: nat, hit: bool, ghost p: nat, ghost q: nat)
    returns (r: seq<Span>)
    requires p <= q <= |s| && from == Bytes(s[..p]) && to == Bytes(s[..q])
    ensures Shown(r) == Shown(spans) + Stretch(s, p, q, hit)
  {
    BytesMonotone(s, p, q);
    CharsInOffset(s, p);
    CharsInOffset(s, q);
    var span := Span(Slice(s, from, to), hit);
    ShownPush(spans, span);
    r := spans + [span];
  }

  /** nucleo's raw match indices for a text and a query; `None` for no match. */
  type Finder = (string, string) -> Option<seq<nat>>

  /** The indices to highlight. */
  function QueryHits(find: Finder, text: string, query: string): set<nat> {
    if query == "" then {}
    else match find(text, query) case None => {} case Some(raw) => Hits(raw)
  }

  /** `highlighted_spans`: lossless for any text and any matcher answer. */
  method HighlightedSpans(find: Finder, text: string, query: string) returns (spans: seq<Span>)
    ensures Shown(spans) == Marked(text, QueryHits(find, text, query))
    ensures Text(spans) == text
  {
    var matched := find(text, query);
    if query == "" || matched.None? {
      spans := [Span(text, false)];
      assert spans[..0] == [];
      ShownPush([], Span(text, false));
    } else {
      var idx := SortDedup(matched.value);
      spans := SpansAt(text, idx);
    }
    TextOfShown(spans);
  }

  // ---- what the matcher really answers ----

  /** Only one-byte characters before `k`. */
  predicate AsciiBefore(text: string, k: nat)
    requires k <= |text|
  {
    forall j | 0 <= j < k :: Utf8Len(text[j]) == 1
  }

  lemma {:induction false} OffsetIsIndex(text: string, k: nat)
    requires k <= |text|
    ensures Bytes(text[..k]) >= k
    ensures Bytes(text[..k]) == k <==> AsciiBefore(text, k)
    decreases k
  {
    if k > 0 {
      OffsetIsIndex(text, k - 1);
      BytesOfPrefix(text, k - 1);
    }
  }

  /** The byte offsets of characters of the text. */
  function Offsets(text: string, chars: set<nat>): set<nat>
    requires forall k | k in chars :: k < |text|
  {
    set k | k in chars :: Bytes(text[..k])
  }

  /** The matcher is handed bytes, so the indices it answers are byte offsets. The
      matched characters are the ones highlighted exactly when each of them has
      ASCII alone before it. */
  lemma HighlightsTheMatch(find: Finder, text: string, query: string, chars: set<nat>)
    requires query != "" && find(text, query).Some?
    requires forall k | k in chars :: k < |text|
    requires Hits(find(text, query).value) == Offsets(text, chars)
    ensures Marked(text, QueryHits(find, text, query)) == Marked(text, chars)
            <==> forall k | k in chars :: AsciiBefore(text, k)
  {
    hide Bytes, Utf8Len, AsciiBefore;
    var offsets := Offsets(text, chars);
    forall k | k in chars ensures Bytes(text[..k]) >= k && (Bytes(text[..k]) == k <==> AsciiBefore(text, k)) {
      OffsetIsIndex(text, k);
    }
    if forall k | k in chars :: AsciiBefore(text, k) {
      assert offsets == chars;
    } else {
      var bad := set k | k in chars && !AsciiBefore(text, k);
      var some :| some in chars && !AsciiBefore(text, some);
      assert some in bad;
      var k := Least(bad, some + 1);
      forall j | j in chars ensures Bytes(text[..j]) != k {
        if j < k { assert j !in bad; }
      }
      assert k !in offsets;
      assert Marked(text, offsets)[k] != Marked(text, chars)[k];
    }
  }

  lemma {:induction false} Least(s: set<nat>, bound: nat) returns (k: nat)
    requires exists j :: j in s && j < bound
    ensures k in s && forall j | j in s :: k <= j
  {
    if exists j :: j in s && j < bound - 1 {
      k := Least(s, bound - 1);
    } else {
      k := bound - 1;
    }
  }

  /** For every match inside a text, exactly the texts with no more than a last
      character beyond ASCII. */
  lemma OffsetsAgree(text: string)
    ensures (forall k | 0 <= k < |text| :: Bytes(text[..k]) == k) <==> (text == "" || AsciiBefore(text, |text| - 1))
  {
    hide Bytes;
    forall k | 0 <= k < |text| ensures Bytes(text[..k]) == k <==> AsciiBefore(text, k) {
      OffsetIsIndex(text, k);
    }
  }

  /** In a name that begins with a two-byte letter the character after the
      matched one is highlighted. */
  lemma WrongCharacterIsMarked()
    ensures var text := ['\U{e9}', 'a', 'b'];
            Marked(text, Offsets(text, {1})) == [('\U{e9}', false), ('a', false), ('b', true)]
  {
    var text := ['\U{e9}', 'a', 'b'];
    assert text[..1] == ['\U{e9}'] && text[..1][1..] == "";
    assert Bytes(text[..1]) == 2;
    assert Offsets(text, {1}) == {2};
  }
}
