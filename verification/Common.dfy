/** Small shared vocabulary: optional columns and plain arithmetic helpers. */
module Common {

  /** A nullable column or a JavaScript `T | null`. */
  datatype Option<+T> = None | Some(value: T)

  function Min(a: int, b: int): int { if a <= b then a else b }

  function Max(a: int, b: int): int { if a >= b then a else b }

  /** JavaScript's < on strings, and SQLite's on ASCII ones: the first difference decides, and a prefix comes first. */
  predicate TextLess(a: string, b: string) {
    b != "" && (a == "" || a[0] < b[0] || (a[0] == b[0] && TextLess(a[1..], b[1..])))
  }

  /** It is a strict total order. */
  lemma {:induction false} TextTotal(a: string, b: string)
    ensures a != b ==> TextLess(a, b) != TextLess(b, a)
    ensures !TextLess(a, a)
    decreases |a|
  {
    if a != "" {
      TextTotal(a[1..], if b != "" then b[1..] else "");
      if b != "" && a[0] == b[0] && a[1..] == b[1..] {
        assert a == [a[0]] + a[1..] && b == [b[0]] + b[1..];
      }
    }
  }

  lemma {:induction false} TextTransitive(a: string, b: string, c: string)
    requires TextLess(a, b) && TextLess(b, c)
    ensures TextLess(a, c)
    decreases |a|
  {
    if a != "" && a[0] == b[0] == c[0] {
      TextTransitive(a[1..], b[1..], c[1..]);
    }
  }
}
