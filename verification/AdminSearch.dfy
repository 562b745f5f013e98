/**
 * Finding rows by text and by prefix in the admin console
 * (platform/src/admin/data.ts, containsPattern and prefixUpperBound), against
 * what SQLite's LIKE ... ESCAPE '\' and its comparisons do with them. How
 * toLowerCase folds a text is a parameter: beyond ASCII it folds letters that
 * LIKE tells apart.
 */
module AdminSearch {
  import opened Common

  // ----- LIKE ------------------------------------------------------------------

  /** Letter case as LIKE ignores it: ASCII only. */
  function Lower(c: char): char { if 'A' <= c <= 'Z' then (c as int + 32) as char else c }

  predicate Same(a: char, b: char) { Lower(a) == Lower(b) }

  /** The same character, or the same letter of ASCII in either case: A to Z are 65 to 90, a to z 32 more. */
  lemma SameIs(a: char, b: char)
    ensures Same(a, b) <==>
              a == b || (65 <= a as int <= 90 && b as int == a as int + 32)
              || (65 <= b as int <= 90 && a as int == b as int + 32)
  {
  }

  predicate SameText(a: string, b: string) { |a| == |b| && forall k | 0 <= k < |a| :: Same(a[k], b[k]) }

  /**
   * SQLite's LIKE: % any text, _ any character, an escaped character itself; an
   * escape with nothing after it matches nothing.
   */
  predicate Like(pattern: string, text: string)
    decreases |pattern| + |text|
  {
    if pattern == "" then text == ""
    else if pattern[0] == '%' then Like(pattern[1..], text) || (text != "" && Like(pattern, text[1..]))
    else if pattern[0] == '_' then text != "" && Like(pattern[1..], text[1..])
    else if pattern[0] == '\\' then |pattern| > 1 && text != "" && Same(pattern[1], text[0])
        && Like(pattern[2..], text[1..])
    else text != "" && Same(pattern[0], text[0]) && Like(pattern[1..], text[1..])
  }

  predicate Wild(c: char) { c == '\\' || c == '%' || c == '_' }

  function Escaped(text: string): string {
    if text == "" then ""
    else (if Wild(text[0]) then ['\\', text[0]] else [text[0]]) + Escaped(text[1..])
  }

  function ContainsPattern(toLowerCase: string -> string, text: string): string {
    "%" + Escaped(toLowerCase(text)) + "%"
  }

  lemma {:induction false} PercentMatchesAll(text: string)
    ensures Like("%", text)
    decreases |text|
  {
    assert "%"[1..] == "";
    if text != "" {
      PercentMatchesAll(text[1..]);
    }
  }

  /** The escaped text and then anything: matched by what begins with it. */
  lemma {:induction false} EscapedMatchesItself(wanted: string, text: string)
    ensures Like(Escaped(wanted) + "%", text) <==> |wanted| <= |text| && SameText(wanted, text[..|wanted|])
    decreases |wanted|
  {
    if wanted == "" {
      assert Escaped(wanted) + "%" == "%";
      PercentMatchesAll(text);
    } else {
      OneEscaped(wanted, text);
      if text != "" {
        EscapedMatchesItself(wanted[1..], text[1..]);
        if |wanted| <= |text| {
          SameTextFirst(wanted, text);
        }
      }
    }
  }

  lemma OneEscaped(wanted: string, text: string)
    requires wanted != ""
    ensures Like(Escaped(wanted) + "%", text)
            <==> text != "" && Same(wanted[0], text[0]) && Like(Escaped(wanted[1..]) + "%", text[1..])
  {
    var c := wanted[0];
    var pattern := Escaped(wanted) + "%";
    var rest := Escaped(wanted[1..]) + "%";
    if Wild(c) {
      assert pattern == ['\\', c] + rest && pattern[2..] == rest;
    } else {
      assert pattern == [c] + rest && pattern[1..] == rest;
    }
  }

  lemma SameTextFirst(wanted: string, text: string)
    requires wanted != "" && text != "" && |wanted| <= |text|
    ensures SameText(wanted, text[..|wanted|])
            <==> Same(wanted[0], text[0]) && SameText(wanted[1..], text[1..][..|wanted| - 1])
  {
    var part, tail := text[..|wanted|], text[1..][..|wanted| - 1];
    assert part == [text[0]] + tail && wanted == [wanted[0]] + wanted[1..];
    if Same(wanted[0], text[0]) && SameText(wanted[1..], tail) {
      forall k | 0 <= k < |wanted| ensures Same(wanted[k], part[k]) {
        if k > 0 { assert wanted[1..][k - 1] == wanted[k] && tail[k - 1] == part[k]; }
      }
    }
    if SameText(wanted, part) {
      forall k | 0 <= k < |tail|
        ensures Same(wanted[1..][k], tail[k])
      {
        assert wanted[k + 1] == wanted[1..][k] && part[k + 1] == tail[k];
      }
    }
  }

  predicate FoundAt(wanted: string, text: string, i: nat) {
    i + |wanted| <= |text| && SameText(wanted, text[i..][..|wanted|])
  }

  ghost predicate Contains(text: string, wanted: string) { exists i: nat :: FoundAt(wanted, text, i) }

  /** What LIKE makes of an escaped text between two percent signs. */
  lemma {:induction false} AnywhereMatches(wanted: string, text: string)
    ensures Like("%" + Escaped(wanted) + "%", text) <==> Contains(text, wanted)
    decreases |text|
  {
    var rest := Escaped(wanted) + "%";
    assert ("%" + Escaped(wanted) + "%")[1..] == rest;
    EscapedMatchesItself(wanted, text);
    assert text[0..] == text;
    assert Like(rest, text) <==> FoundAt(wanted, text, 0);
    if text != "" {
      AnywhereMatches(wanted, text[1..]);
      forall i: nat ensures FoundAt(wanted, text, i + 1) <==> FoundAt(wanted, text[1..], i) {
        if i + 1 <= |text| { assert text[1..][i..] == text[i + 1..]; }
      }
      if exists i: nat :: FoundAt(wanted, text, i) {
        var i: nat :| FoundAt(wanted, text, i);
        assert i == 0 || FoundAt(wanted, text[1..], i - 1);
      }
    } else {
      forall i: nat | FoundAt(wanted, text, i) ensures i == 0 {}
    }
  }

  /**
   * The pattern matches exactly the texts that contain the folded text, whatever
   * % _ and \ are in it, ASCII letter case aside.
   */
  lemma MatchesExactlyWhatContains(toLowerCase: string -> string, wanted: string, text: string)
    ensures Like(ContainsPattern(toLowerCase, wanted), text) <==> Contains(text, toLowerCase(wanted))
  {
    AnywhereMatches(toLowerCase(wanted), text);
  }

  lemma ContainsItself(text: string)
    ensures Contains(text, text)
  {
    assert text[0..] == text && text[..|text|] == text;
    assert FoundAt(text, text, 0);
  }

  /** Of texts no longer than it, only one that is the same contains a text. */
  lemma SameLength(wanted: string, text: string)
    requires Contains(text, wanted)
    ensures |wanted| <= |text| && (|wanted| == |text| ==> SameText(wanted, text))
  {
    var i: nat :| FoundAt(wanted, text, i);
    if |wanted| == |text| {
      assert text[0..] == text && text[..|text|] == text;
    }
  }

  lemma SameContains(a: string, b: string, text: string)
    requires SameText(a, b) && Contains(text, a)
    ensures Contains(text, b)
  {
    var i: nat :| FoundAt(a, text, i);
    assert FoundAt(b, text, i);
  }

  /**
   * And they are exactly the texts that contain the text itself if and only if
   * folding it changed nothing but the case of ASCII letters. Looking for a capital
   * E with an accent finds the small one, and not the capital itself.
   */
  lemma FindsItselfIff(toLowerCase: string -> string, wanted: string)
    ensures (forall text :: Like(ContainsPattern(toLowerCase, wanted), text) <==> Contains(text, wanted))
       <==> SameText(toLowerCase(wanted), wanted)
  {
    var folded := toLowerCase(wanted);
    forall text ensures Like(ContainsPattern(toLowerCase, wanted), text) <==> Contains(text, folded) {
      MatchesExactlyWhatContains(toLowerCase, wanted, text);
    }
    ContainsItself(wanted);
    ContainsItself(folded);
    if SameText(folded, wanted) {
      forall text ensures Contains(text, folded) <==> Contains(text, wanted) {
        if Contains(text, folded) { SameContains(folded, wanted, text); }
        if Contains(text, wanted) { SameContains(wanted, folded, text); }
      }
    } else if Contains(wanted, folded) && Contains(folded, wanted) {
      SameLength(folded, wanted);
      SameLength(wanted, folded);
    }
  }

  // ----- prefix ranges ----------------------------------------------------------------

  /**
   * One more than a character, as charCodeAt and fromCharCode give it; the filter
   * lets only a-z 0-9 _ and . through.
   */
  function After(c: char): char
    requires c <= 'z'
  {
    (c as int + 1) as char
  }

  function PrefixUpperBound(prefix: string): string
    requires prefix != "" && prefix[|prefix| - 1] <= 'z'
  {
    prefix[..|prefix| - 1] + [After(prefix[|prefix| - 1])]
  }

  /** e.action >= prefix AND e.action < its upper bound */
  predicate InRange(prefix: string, text: string)
    requires prefix != "" && prefix[|prefix| - 1] <= 'z'
  {
    !TextLess(text, prefix) && TextLess(text, PrefixUpperBound(prefix))
  }

  /** The range is exactly the texts that begin with the prefix. */
  lemma {:induction false} RangeIsPrefix(prefix: string, text: string)
    requires prefix != "" && prefix[|prefix| - 1] <= 'z'
    ensures InRange(prefix, text) <==> prefix <= text
    decreases |prefix|
  {
    var bound := PrefixUpperBound(prefix);
    if |prefix| == 1 {
      assert bound[0] == After(prefix[0]) && bound[1..] == "" && prefix[1..] == "";
      NothingLessThanEmpty(if text == "" then "" else text[1..]);
    } else if text != "" {
      assert bound[0] == prefix[0] && bound[1..] == PrefixUpperBound(prefix[1..]);
      RangeIsPrefix(prefix[1..], text[1..]);
      assert prefix <= text <==> prefix[0] == text[0] && prefix[1..] <= text[1..] by {
        assert prefix == [prefix[0]] + prefix[1..] && text == [text[0]] + text[1..];
      }
    }
  }

  lemma NothingLessThanEmpty(text: string)
    ensures !TextLess(text, "")
  {
  }

  /**
   * And the bound is the least text above them all: what is above every text with
   * the prefix is exactly what is not below the bound.
   */
  lemma BoundIsLeast(prefix: string, above: string)
    requires prefix != "" && prefix[|prefix| - 1] <= 'z'
    ensures (forall text | prefix <= text :: TextLess(text, above)) <==> !TextLess(above, PrefixUpperBound(prefix))
  {
    if TextLess(above, PrefixUpperBound(prefix)) {
      RangeIsPrefix(prefix, above);
      TextTotal(above, above);
      TextTotal(prefix, above);
      assert prefix <= prefix;
    } else {
      forall text | prefix <= text ensures TextLess(text, above) {
        RangeIsPrefix(prefix, text);
        TextTotal(PrefixUpperBound(prefix), above);
        if above != PrefixUpperBound(prefix) { TextTransitive(text, PrefixUpperBound(prefix), above); }
      }
    }
  }
}
