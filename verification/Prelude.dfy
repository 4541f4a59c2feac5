/** Small shared vocabulary: optional values, results, and the byte order Rust
    gives to strings. */
module Prelude {

  datatype Option<+T> = None | Some(value: T)

  datatype Result<+T, +E> = Ok(value: T) | Err(error: E)

  /** Rust compares `String`s byte by byte. UTF-8 keeps the order of scalar
      values, so that is the lexicographic order of the characters. */
  predicate LexLess(a: string, b: string) {
    b != [] && (a == [] || a[0] < b[0] || (a[0] == b[0] && LexLess(a[1..], b[1..])))
  }

  lemma LexIrreflexive(a: string)
    ensures !LexLess(a, a)
  {
    if a != [] {
      LexIrreflexive(a[1..]);
    }
  }

  lemma LexTransitive(a: string, b: string, c: string)
    requires LexLess(a, b) && LexLess(b, c)
    ensures LexLess(a, c)
  {
    if a != [] && a[0] == b[0] == c[0] {
      LexTransitive(a[1..], b[1..], c[1..]);
    }
  }

  lemma LexTotal(a: string, b: string)
    ensures a == b || LexLess(a, b) || LexLess(b, a)
  {
    if a != [] && b != [] && a[0] == b[0] {
      LexTotal(a[1..], b[1..]);
      assert a == [a[0]] + a[1..] && b == [b[0]] + b[1..];
    }
  }

  /** One string comes before another when it is a beginning of it, or has the
      smaller character where they first differ. */
  lemma LexIsFirstDifference(a: string, b: string, k: nat)
    requires k <= |a| && k <= |b| && a[..k] == b[..k]
    ensures k == |a| ==> (LexLess(a, b) <==> k < |b|)
    ensures k == |b| ==> !LexLess(a, b)
    ensures k < |a| && k < |b| && a[k] != b[k] ==> (LexLess(a, b) <==> a[k] < b[k])
  {
    if k > 0 {
      assert a[0] == a[..k][0] == b[..k][0] == b[0];
      assert a[1..][..k - 1] == a[..k][1..] && b[1..][..k - 1] == b[..k][1..];
      LexIsFirstDifference(a[1..], b[1..], k - 1);
    }
  }

  /** `Option<&String>` as Rust orders it: `None` first. */
  predicate NameLess(a: Option<string>, b: Option<string>) {
    b.Some? && (a.None? || LexLess(a.value, b.value))
  }

  /** A selection pulled back into a list of `n` rows; 0 when it is empty. */
  function ClampIndex(i: nat, n: nat): nat {
    if n == 0 then 0 else if i >= n then n - 1 else i
  }

  /** `String::pop` */
  function Pop(s: string): string {
    if s == "" then "" else s[..|s| - 1]
  }
}
