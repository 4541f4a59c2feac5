/** Geometry of text in terminal cells (`src/tui/fit.rs`). Display width is
    additive over characters; the width table itself is foreign. */
module Fit {
  import opened Prelude

  type Widths = char -> nat

  const ELLIPSIS: char := '\U{2026}'
  const MARKER: char := '\U{25B6}'

  /** What the program relies on: no character is wider than two cells; the
      ellipsis, the focus marker and printable ASCII take one. */
  ghost predicate Sane(w: Widths) {
    && (forall c :: w(c) <= 2)
    && w(ELLIPSIS) == 1
    && w(MARKER) == 1
    && (forall c | ' ' <= c <= '~' :: w(c) == 1)
  }

  function Cells(w: Widths, s: string): nat {
    if s == "" then 0 else w(s[0]) + Cells(w, s[1..])
  }

  lemma {:induction false} CellsConcat(w: Widths, s: string, t: string)
    ensures Cells(w, s + t) == Cells(w, s) + Cells(w, t)
  {
    if s == "" {
      assert s + t == t;
    } else {
      assert (s + t)[1..] == s[1..] + t;
      CellsConcat(w, s[1..], t);
    }
  }

  // ---- the focus-following viewport ----

  function Min(a: nat, b: nat): nat {
    if a < b then a else b
  }

  function Monus(a: nat, b: nat): nat {
    if a < b then 0 else a - b
  }

  function FocusWindow(total: nat, selected: nat, visible: nat): (r: (nat, nat))
  {
    if total == 0 || visible == 0 then (0, 0)
    else if visible >= total then (0, total)
    else
      var sel := Min(selected, total - 1);
      var start := Min(Monus(sel, visible / 2), total - visible);
      (start, start + visible)
  }

  /** The window is as large as it can be and shows the (clamped) selection. */
  lemma FocusWindowShowsSelection(total: nat, selected: nat, visible: nat)
    ensures var (start, end) := FocusWindow(total, selected, visible);
            && start <= end <= total
            && end - start == Min(visible, total)
            && (total > 0 && visible > 0 ==> start <= Min(selected, total - 1) < end)
  {
  }

  /** Moving the selection one row down scrolls by at most one row, never up. */
  lemma FocusWindowScrollsSmoothly(total: nat, selected: nat, visible: nat)
    ensures FocusWindow(total, selected, visible).0
            <= FocusWindow(total, selected + 1, visible).0
            <= FocusWindow(total, selected, visible).0 + 1
  {
  }

  /** Away from both ends the selection stands in the middle of the window. */
  lemma FocusWindowCentres(total: nat, selected: nat, visible: nat)
    requires visible / 2 <= selected && selected - visible / 2 + visible <= total
    ensures visible > 0 ==> FocusWindow(total, selected, visible).0 == selected - visible / 2
    ensures FocusWindow(total, 0, visible).0 == 0
    ensures visible > 0 ==> FocusWindow(total, total, visible).1 == total
  {
  }

  // ---- truncation ----

  /** How many leading characters of `s` fit into `budget` cells. */
  function FitLen(w: Widths, s: string, budget: nat): (k: nat)
    ensures k <= |s|
  {
    if s == "" || w(s[0]) > budget then 0 else 1 + FitLen(w, s[1..], budget - w(s[0]))
  }

  /** That prefix fits, and every longer prefix does not. */
  lemma {:induction false} FitLenIsLongest(w: Widths, s: string, budget: nat)
    ensures Cells(w, s[..FitLen(w, s, budget)]) <= budget
    ensures forall j | FitLen(w, s, budget) < j <= |s| :: Cells(w, s[..j]) > budget
  {
    if s != "" {
      forall j | 0 < j <= |s|
        ensures Cells(w, s[..j]) == w(s[0]) + Cells(w, s[1..][..j - 1])
      {
        assert s[..j][1..] == s[1..][..j - 1];
      }
      if w(s[0]) <= budget {
        FitLenIsLongest(w, s[1..], budget - w(s[0]));
      }
    }
  }

  function Truncate(w: Widths, s: string, max: nat): string {
    if max == 0 then ""
    else if Cells(w, s) <= max then s
    else s[..FitLen(w, s, max - 1)] + [ELLIPSIS]
  }

  function Reverse(s: string): (r: string)
    ensures |r| == |s| && forall k | 0 <= k < |s| :: r[k] == s[|s| - 1 - k]
  {
    seq(|s|, k requires 0 <= k < |s| => s[|s| - 1 - k])
  }

  method TruncateCells(w: Widths, s: string, max: nat) returns (out: string)
    ensures out == Truncate(w, s, max)
  {
    if max == 0 { return ""; }
    if Cells(w, s) <= max { return s; }
    var budget := max - 1;
    out := "";
    var used, i := 0, 0;
    while i < |s|
      invariant 0 <= i <= |s| && 0 <= used <= budget
      invariant out == s[..i]
      invariant FitLen(w, s, budget) == i + FitLen(w, s[i..], budget - used)
    {
      var cw := w(s[i]);
      FitNext(w, s, budget, i, used);
      if used + cw > budget { break; }
      out := out + [s[i]];
      used := used + cw;
      i := i + 1;
    }
    out := out + [ELLIPSIS];
  }

  /** The loops take one more character while it fits. */
  lemma FitNext(w: Widths, s: string, budget: nat, i: nat, used: nat)
    requires i < |s| && used <= budget
    requires FitLen(w, s, budget) == i + FitLen(w, s[i..], budget - used)
    ensures FitLen(w, s, budget) ==
            if used + w(s[i]) > budget then i else i + 1 + FitLen(w, s[i + 1..], budget - used - w(s[i]))
  {
    assert s[i..][1..] == s[i + 1..];
  }

  lemma ReverseTwice(s: string)
    ensures Reverse(Reverse(s)) == s
  {
  }

  lemma ReverseAppend(s: string, c: char)
    ensures Reverse(s + [c]) == [c] + Reverse(s)
  {
  }

  /** Head truncation is tail truncation seen in a mirror. */
  method TruncateCellsHead(w: Widths, s: string, max: nat) returns (out: string)
    ensures out == Reverse(Truncate(w, Reverse(s), max))
  {
    hide Reverse, FitLen, Cells;
    CellsReverse(w, s);
    if max == 0 { return ""; }
    if Cells(w, s) <= max {
      ReverseTwice(s);
      return s;
    }
    var budget := max - 1;
    ghost var mirror := Reverse(s);
    var kept: string := "";
    var used, i := 0, |s|;
    while i > 0
      invariant 0 <= i <= |s| && 0 <= used <= budget
      invariant kept == mirror[..|s| - i] && |mirror| == |s|
      invariant FitLen(w, mirror, budget) == |s| - i + FitLen(w, mirror[|s| - i..], budget - used)
    {
      var cw := w(s[i - 1]);
      FitNext(w, mirror, budget, |s| - i, used);
      if used + cw > budget { break; }
      kept := kept + [s[i - 1]];
      used := used + cw;
      i := i - 1;
    }
    ReverseAppend(kept, ELLIPSIS);
    kept := Reverse(kept);
    out := [ELLIPSIS] + kept;
  }

  lemma {:induction false} CellsReverse(w: Widths, s: string)
    ensures Cells(w, Reverse(s)) == Cells(w, s)
    decreases |s|
  {
    if s != "" {
      assert Reverse(s) == Reverse(s[1..]) + [s[0]];
      CellsConcat(w, Reverse(s[1..]), [s[0]]);
      CellsReverse(w, s[1..]);
    }
  }

  /** The prefixes that fit are those of up to `k` characters. */
  ghost predicate LongestPrefix(w: Widths, s: string, k: nat, budget: nat)
    requires k <= |s|
  {
    forall j | 0 <= j <= |s| :: j <= k <==> Cells(w, s[..j]) <= budget
  }

  /** The result always fits; it is the text itself when that fits, and
      otherwise the longest prefix that leaves a cell for the ellipsis. */
  lemma TruncateIsOptimal(w: Widths, s: string, max: nat)
    requires Sane(w)
    ensures Cells(w, Truncate(w, s, max)) <= max
    ensures max > 0 && Cells(w, s) <= max ==> Truncate(w, s, max) == s
    ensures max > 0 && Cells(w, s) > max ==>
              exists k | 0 <= k < |s| ::
                Truncate(w, s, max) == s[..k] + [ELLIPSIS] && LongestPrefix(w, s, k, max - 1)
  {
    hide FitLen, LongestPrefix;
    if max > 0 && Cells(w, s) > max {
      var k := FitLen(w, s, max - 1);
      FitLenIsLongest(w, s, max - 1);
      CellsConcat(w, s[..k], [ELLIPSIS]);
      assert s[..|s|] == s;
      FitLenIsLongestPrefix(w, s, max - 1);
    }
  }

  lemma FitLenIsLongestPrefix(w: Widths, s: string, budget: nat)
    ensures LongestPrefix(w, s, FitLen(w, s, budget), budget)
  {
    var k := FitLen(w, s, budget);
    FitLenIsLongest(w, s, budget);
    forall j | 0 <= j <= k
      ensures Cells(w, s[..j]) <= budget
    {
      assert s[..k] == s[..j] + s[j..k];
      CellsConcat(w, s[..j], s[j..k]);
    }
  }

  lemma TruncateIdempotent(w: Widths, s: string, max: nat)
    requires Sane(w)
    ensures Truncate(w, Truncate(w, s, max), max) == Truncate(w, s, max)
  {
    TruncateIsOptimal(w, s, max);
  }

  // ---- two elastic columns ----

  /** The first guess for the primary column: its need, capped at its share. */
  function CappedNeed(avail: nat, aNeed: nat, aShare: nat): nat {
    Min(aNeed, avail * aShare / 100)
  }

  /** The split when the two columns contend and the capped guess is `a`. */
  function Contend(avail: nat, aNeed: nat, a: nat, aMin: nat, bMin: nat): Option<(nat, nat)> {
    if a > avail then None
    else
      var aw := if avail - a < bMin
                then var target := Min(Monus(avail, bMin), aNeed); if aMin > target then aMin else target
                else a;
      if aw > avail then None else Some((aw, avail - aw))
  }

  /** `column_widths`. `None` marks a call on which the program's unsigned
      subtraction underflows. */
  function ColumnWidths(avail: nat, aNeed: nat, bNeed: nat, aShare: nat, aMin: nat, bMin: nat)
    : (r: Option<(nat, nat)>)
  {
    if avail == 0 then Some((0, 0))
    else if aNeed + bNeed <= avail then Some((aNeed, avail - aNeed))
    else Contend(avail, aNeed, CappedNeed(avail, aNeed, aShare), aMin, bMin)
  }

  /** The split is promised for every call. It exists exactly when one of the
      two columns can give way: the needs fit, or the secondary column keeps its
      floor, or the primary floor fits. */
  lemma ColumnWidthsDefined(avail: nat, aNeed: nat, bNeed: nat, aShare: nat, aMin: nat, bMin: nat)
    ensures ColumnWidths(avail, aNeed, bNeed, aShare, aMin, bMin).Some?
            <==> || avail == 0
                 || aNeed + bNeed <= avail
                 || (CappedNeed(avail, aNeed, aShare) <= avail
                     && (avail - CappedNeed(avail, aNeed, aShare) >= bMin || aMin <= avail))
  {
  }

  /** The split uses all cells; both needs are met when they fit; otherwise the
      secondary column keeps its floor unless the primary is down to its own. */
  lemma ColumnWidthsSplit(avail: nat, aNeed: nat, bNeed: nat, aShare: nat, aMin: nat, bMin: nat)
    requires aShare <= 100
    requires avail == 0 || aMin <= avail
    ensures var r := ColumnWidths(avail, aNeed, bNeed, aShare, aMin, bMin);
            && r.Some?
            && r.value.0 + r.value.1 == avail
            && (aNeed + bNeed <= avail ==> r.value.0 == aNeed && r.value.1 >= bNeed)
            && (avail > 0 && aNeed + bNeed > avail ==>
                  && (r.value.1 >= bMin || r.value.0 == aMin)
                  && (r.value.0 <= avail * aShare / 100 || r.value.0 == aMin))
  {
    ShareAtMostAll(avail, aShare);
    ContendSplit(avail, aNeed, CappedNeed(avail, aNeed, aShare), aMin, bMin);
  }

  lemma ShareAtMostAll(avail: nat, aShare: nat)
    requires aShare <= 100
    ensures avail * aShare / 100 <= avail
  {
    assert avail * aShare <= avail * 100;
  }

  lemma ContendSplit(avail: nat, aNeed: nat, a: nat, aMin: nat, bMin: nat)
    requires a <= avail && (avail == 0 || aMin <= avail)
    ensures avail > 0 ==>
              var r := Contend(avail, aNeed, a, aMin, bMin);
              && r.Some?
              && r.value.0 + r.value.1 == avail
              && (r.value.1 >= bMin || r.value.0 == aMin)
              && (r.value.0 <= a || r.value.0 == aMin)
  {
  }

  /** When both columns want more than there is, the primary one is as wide as its
      need and its share allow and the secondary floor leaves, but not narrower
      than its own floor if it had to give way. */
  lemma ColumnWidthsContend(avail: nat, aNeed: nat, bNeed: nat, aShare: nat, aMin: nat, bMin: nat)
    requires avail > 0 && aNeed + bNeed > avail && ColumnWidths(avail, aNeed, bNeed, aShare, aMin, bMin).Some?
    ensures var a := ColumnWidths(avail, aNeed, bNeed, aShare, aMin, bMin).value.0;
            var cap := if aNeed * 100 <= avail * aShare then aNeed else avail * aShare / 100;
            && (cap + bMin <= avail ==> a == cap)
            && (cap + bMin > avail && aMin + bMin <= avail ==> a == avail - bMin)
            && (cap + bMin > avail && aMin + bMin > avail ==> a == aMin)
  {
    CapIsCap(avail, aNeed, aShare);
    var cap := CappedNeed(avail, aNeed, aShare);
    assert cap <= aNeed;
  }

  lemma CapIsCap(avail: nat, aNeed: nat, aShare: nat)
    ensures CappedNeed(avail, aNeed, aShare) == if aNeed * 100 <= avail * aShare then aNeed else avail * aShare / 100
  {
    var p := avail * aShare;
    assert CappedNeed(avail, aNeed, aShare) == Min(aNeed, p / 100);
    if aNeed * 100 <= p {
      assert aNeed <= p / 100;
    } else {
      assert p / 100 <= aNeed;
    }
  }

  /** With the host list's numbers (share 40, floors 6 and 12) the promise is
      broken: in a five-cell budget a long name and address underflow. */
  lemma ColumnWidthsUnderflows()
    ensures ColumnWidths(5, 20, 20, 40, 6, 12) == None
  {
  }
}
