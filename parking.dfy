/** The parking-count heuristic: the first match of the case-insensitive
    pattern `(\d+)\s*vaga[s]?\s*(de\s*)?garagem` in a listing's title, and the
    integer its first group captures.

    The pattern is given twice: `TailMatch`/`MatchAt` say declaratively which
    stretches of text it matches (the language of the regular expression), and
    `TailEnd`/`ScanAt`/`FirstMatch` are a deterministic scanner. The lemmas show
    the scanner finds exactly the matches the pattern has, and that the
    leftmost one's capture is the whole digit run in front of `vaga`. */
module Parking {
  import opened Wrappers
  import opened Text
  import opened JsNumber

  /** The letter `lower` or its capital `upper` stands at `i`: how the `i`
      flag matches a letter of this pattern (no non-ASCII character folds to an
      ASCII one there). */
  predicate CharAt(s: string, i: nat, lower: char, upper: char) {
    i < |s| && (s[i] == lower || s[i] == upper)
  }

  /** The pattern's words, ignoring case. */
  predicate VagaAt(s: string, i: nat) {
    CharAt(s, i, 'v', 'V') && CharAt(s, i + 1, 'a', 'A') && CharAt(s, i + 2, 'g', 'G')
    && CharAt(s, i + 3, 'a', 'A')
  }

  predicate DeAt(s: string, i: nat) {
    CharAt(s, i, 'd', 'D') && CharAt(s, i + 1, 'e', 'E')
  }

  predicate GaragemAt(s: string, i: nat) {
    CharAt(s, i, 'g', 'G') && CharAt(s, i + 1, 'a', 'A') && CharAt(s, i + 2, 'r', 'R')
    && CharAt(s, i + 3, 'a', 'A') && CharAt(s, i + 4, 'g', 'G') && CharAt(s, i + 5, 'e', 'E')
    && CharAt(s, i + 6, 'm', 'M')
  }

  predicate SpacesBetween(s: string, i: nat, j: nat)
    requires i <= j <= |s|
  {
    forall k :: i <= k < j ==> IsSpace(s[k])
  }

  /** The end of the longest run of white space that starts at `i` (`\s*`). */
  function SkipSpaces(s: string, i: nat): (j: nat)
    requires i <= |s|
    ensures i <= j <= |s| && SpacesBetween(s, i, j)
    ensures j < |s| ==> !IsSpace(s[j])
    decreases |s| - i
  {
    if i < |s| && IsSpace(s[i]) then SkipSpaces(s, i + 1) else i
  }

  // ----- The pattern, declaratively -----

  /** `s[i..q]` is matched by `\s*vaga[s]?\s*(de\s*)?garagem` split as: white
      space up to `a`, `vaga` and an optional `s` up to `b`, white space up to
      `c`, an optional `de` and white space up to `d`, and `garagem`. */
  ghost predicate TailSplit(s: string, i: nat, a: nat, b: nat, c: nat, d: nat, q: nat) {
    i <= a <= |s| && SpacesBetween(s, i, a) && VagaAt(s, a)
    && (b == a + 4 || (b == a + 5 && CharAt(s, a + 4, 's', 'S')))
    && b <= c <= |s| && SpacesBetween(s, b, c)
    && (d == c || (DeAt(s, c) && c + 2 <= d <= |s| && SpacesBetween(s, c + 2, d)))
    && GaragemAt(s, d) && q == d + 7
  }

  /** `s[i..q]` is matched by `\s*vaga[s]?\s*(de\s*)?garagem`. */
  ghost predicate TailMatch(s: string, i: nat, q: nat) {
    exists a: nat, b: nat, c: nat, d: nat :: TailSplit(s, i, a, b, c, d, q)
  }

  /** The whole pattern matches at `p`, and its group `(\d+)` captures `s[p..e]`. */
  ghost predicate MatchAt(s: string, p: nat, e: nat) {
    p < e <= |s| && AllDigits(s[p..e]) && exists q :: TailMatch(s, e, q)
  }

  // ----- The scanner -----

  /** Where `\s*vaga[s]?\s*(de\s*)?garagem` ends when it is matched at `i`.
      Each optional or repeated part is taken greedily; giving any of them
      back never lets the rest match, so this is the only way to match. */
  function TailEnd(s: string, i: nat): Option<nat>
    requires i <= |s|
  {
    var a := SkipSpaces(s, i);
    if !VagaAt(s, a) then None
    else
      var b := if CharAt(s, a + 4, 's', 'S') then a + 5 else a + 4;
      var c := SkipSpaces(s, b);
      var d := if DeAt(s, c) then SkipSpaces(s, c + 2) else c;
      if GaragemAt(s, d) then Some(d + 7) else None
  }

  /** Whether the pattern matches at `p`, and if so where its capture ends.
      `\d+` needs no backtracking: the pattern continues with white space or a
      `v`, neither of which is a digit. */
  function ScanAt(s: string, p: nat): Option<nat>
    requires p <= |s|
  {
    if p < |s| && IsDigit(s[p]) then
      var e := DigitRunEnd(s, p);
      if TailEnd(s, e).Some? then Some(e) else None
    else None
  }

  /** The leftmost position at or after `p` where the pattern matches. */
  function FirstMatch(s: string, p: nat): (r: Option<nat>)
    requires p <= |s|
    ensures r.Some? ==> p <= r.value < |s| && ScanAt(s, r.value).Some?
    ensures r.Some? ==> forall m :: p <= m < r.value ==> ScanAt(s, m).None?
    ensures r.None? ==> forall m :: p <= m <= |s| ==> ScanAt(s, m).None?
    decreases |s| - p
  {
    if p == |s| then None
    else if ScanAt(s, p).Some? then Some(p)
    else FirstMatch(s, p + 1)
  }

  /** The integer the first match of the pattern in `title` captures, as the
      source's `Number(vagasMatch[1])`; `None` when the title has no match. */
  function ParkingFromTitle(title: string): Option<nat> {
    match FirstMatch(title, 0)
    case Some(m) =>
      var e := DigitRunEnd(title, m);
      Some(DigitsValue(title[m..e]))
    case None => None
  }

  // ----- The scanner agrees with the pattern -----

  /** White space that ends at a letter ends where `\s*` stops. */
  lemma SkipSpacesToLetter(s: string, i: nat, a: nat)
    requires i <= a < |s| && SpacesBetween(s, i, a) && ('a' <= s[a] <= 'z' || 'A' <= s[a] <= 'Z')
    ensures SkipSpaces(s, i) == a
  {
  }

  lemma TailEndSound(s: string, i: nat)
    requires i <= |s| && TailEnd(s, i).Some?
    ensures TailMatch(s, i, TailEnd(s, i).value)
  {
    var a := SkipSpaces(s, i);
    var b := if CharAt(s, a + 4, 's', 'S') then a + 5 else a + 4;
    var c := SkipSpaces(s, b);
    var d := if DeAt(s, c) then SkipSpaces(s, c + 2) else c;
    assert TailSplit(s, i, a, b, c, d, d + 7);
  }

  lemma TailEndComplete(s: string, i: nat, q: nat)
    requires i <= |s| && TailMatch(s, i, q)
    ensures TailEnd(s, i) == Some(q)
  {
    var a: nat, b: nat, c: nat, d: nat :| TailSplit(s, i, a, b, c, d, q);
    TailSplitScanned(s, i, a, b, c, d, q);
  }

  /** A split of a match of the tail is the one the scanner follows. */
  lemma TailSplitScanned(s: string, i: nat, a: nat, b: nat, c: nat, d: nat, q: nat)
    requires TailSplit(s, i, a, b, c, d, q)
    ensures TailEnd(s, i) == Some(q)
  {
    SkipSpacesToLetter(s, i, a);
    VagaEndsAt(s, a, b, c, d);
    SpacesEndAt(s, b, c, d);
    TailEndThrough(s, i, a, b, c, d);
  }

  /** The scanner's steps, given where each of them stops. */
  lemma TailEndThrough(s: string, i: nat, a: nat, b: nat, c: nat, d: nat)
    requires i <= |s| && SkipSpaces(s, i) == a && VagaAt(s, a)
    requires b == (if CharAt(s, a + 4, 's', 'S') then a + 5 else a + 4)
    requires b <= |s| && SkipSpaces(s, b) == c
    requires (if DeAt(s, c) then SkipSpaces(s, c + 2) else c) == d
    requires GaragemAt(s, d)
    ensures TailEnd(s, i) == Some(d + 7)
  {
  }

  /** An `s` left unread after `vaga` could be neither white space nor the
      start of `de` or `garagem`, so the optional `s` is taken exactly when it
      is there. */
  lemma VagaEndsAt(s: string, a: nat, b: nat, c: nat, d: nat)
    requires b == a + 4 || (b == a + 5 && CharAt(s, a + 4, 's', 'S'))
    requires b <= c <= |s| && SpacesBetween(s, b, c)
    requires d == c || (DeAt(s, c) && c + 2 <= d <= |s| && SpacesBetween(s, c + 2, d))
    requires GaragemAt(s, d)
    ensures b == (if CharAt(s, a + 4, 's', 'S') then a + 5 else a + 4)
  {
    NothingLeftBeforeDe(s, b, c, d);
  }

  /** What follows the second `\s*` is a `d` or a `g`, and what follows the
      third a `g`, so both runs of white space end where `\s*` stops. */
  lemma SpacesEndAt(s: string, b: nat, c: nat, d: nat)
    requires b <= c <= |s| && SpacesBetween(s, b, c)
    requires d == c || (DeAt(s, c) && c + 2 <= d <= |s| && SpacesBetween(s, c + 2, d))
    requires GaragemAt(s, d)
    ensures SkipSpaces(s, b) == c
    ensures (if DeAt(s, c) then SkipSpaces(s, c + 2) else c) == d
  {
    SkipSpacesToLetter(s, b, c);
    if d != c {
      SkipSpacesToLetter(s, c + 2, d);
    }
  }

  /** Between `vaga[s]?` and `garagem` the pattern reads white space and an
      optional `de`; an `s` cannot stand there. */
  lemma NothingLeftBeforeDe(s: string, b: nat, c: nat, d: nat)
    requires b <= c <= |s| && SpacesBetween(s, b, c)
    requires d == c || (DeAt(s, c) && c + 2 <= d <= |s| && SpacesBetween(s, c + 2, d))
    requires GaragemAt(s, d)
    ensures b < |s| && s[b] != 's' && s[b] != 'S'
  {
    if c > b {
      assert IsSpace(s[b]);
    }
  }

  /** Where the pattern's tail can start: white space or a `v`, never a digit. */
  lemma TailMatchStart(s: string, e: nat, q: nat)
    requires TailMatch(s, e, q)
    ensures e < |s| && !IsDigit(s[e])
  {
    var a: nat, b: nat, c: nat, d: nat :| TailSplit(s, e, a, b, c, d, q);
    if a > e {
      assert IsSpace(s[e]);
    }
  }

  /** Every match of the pattern at `p` is the one the scanner reports. */
  lemma MatchAtIsScanned(s: string, p: nat, e: nat)
    requires p <= |s| && MatchAt(s, p, e)
    ensures ScanAt(s, p) == Some(e)
  {
    var q :| TailMatch(s, e, q);
    TailMatchStart(s, e, q);
    assert forall k :: p <= k < e ==> IsDigit(s[k]) by {
      forall k | p <= k < e ensures IsDigit(s[k]) {
        assert s[p..e][k - p] == s[k];
      }
    }
    assert DigitRunEnd(s, p) == e;
    TailEndComplete(s, e, q);
  }

  /** Every match the scanner reports is a match of the pattern. */
  lemma ScannedIsMatchAt(s: string, p: nat)
    requires p <= |s| && ScanAt(s, p).Some?
    ensures MatchAt(s, p, ScanAt(s, p).value)
  {
    var e := DigitRunEnd(s, p);
    assert ScanAt(s, p).value == e;
    TailEndSound(s, e);
    assert AllDigits(s[p..e]);
  }

  /** The scanner's answer at `p` is exactly the pattern's: it reports a
      match whose capture ends at `e` if and only if the pattern matches at `p`
      with group 1 spanning `s[p..e]`. */
  lemma ScanAtIsMatchAt(s: string, p: nat)
    requires p <= |s|
    ensures forall e: nat :: MatchAt(s, p, e) <==> ScanAt(s, p) == Some(e)
  {
    forall e: nat | MatchAt(s, p, e)
      ensures ScanAt(s, p) == Some(e)
    {
      MatchAtIsScanned(s, p, e);
    }
    if ScanAt(s, p).Some? {
      ScannedIsMatchAt(s, p);
    }
  }

  /** What the source reads from `descricao.match(...)`: `ParkingFromTitle`
      is `None` exactly when the pattern matches nowhere in the title, and
      otherwise the value of the digits group 1 captures at the leftmost
      position where the pattern matches. */
  lemma ParkingFromTitleIsFirstMatch(title: string)
    ensures ParkingFromTitle(title).None? <==>
              forall p: nat, e: nat :: p <= |title| ==> !MatchAt(title, p, e)
    ensures ParkingFromTitle(title).Some? ==>
              exists p: nat, e: nat ::
                MatchAt(title, p, e)
                && (forall p': nat, e': nat :: p' < p ==> !MatchAt(title, p', e'))
                && ParkingFromTitle(title).value == DigitsValue(title[p..e])
  {
    var r := FirstMatch(title, 0);
    forall p: nat, e: nat | p <= |title| && MatchAt(title, p, e)
      ensures ScanAt(title, p) == Some(e)
    {
      MatchAtIsScanned(title, p, e);
    }
    if r.Some? {
      var p := r.value;
      ScannedIsMatchAt(title, p);
      var e := DigitRunEnd(title, p);
      assert MatchAt(title, p, e);
    }
  }

  /** A title that mentions its parking spaces. */
  const ExampleTitle: string := "2 vagas de garagem"

  /** `2 vagas de garagem` mentions two spaces. */
  lemma TitleExample()
    ensures ParkingFromTitle(ExampleTitle) == Some(2)
  {
    var s := ExampleTitle;
    DigitRunEndsAt(s, 0, 1);
    TitleExampleTail();
    assert ScanAt(s, 0) == Some(1);
    assert FirstMatch(s, 0) == Some(0);
    assert s[0..1] == "2";
    assert "2"[..0] == "";
    assert DigitsValue("2") == 2;
    assert ParkingFromTitle(s) == Some(DigitsValue(s[0..1]));
  }

  lemma TitleExampleTail()
    ensures TailEnd(ExampleTitle, 1) == Some(18)
  {
    TitleExampleWords();
    TitleExampleGaragem();
    TitleExampleSpaces();
    TailEndThrough(ExampleTitle, 1, 2, 7, 8, 11);
  }

  lemma TitleExampleWords()
    ensures |ExampleTitle| == 18
    ensures VagaAt(ExampleTitle, 2) && CharAt(ExampleTitle, 6, 's', 'S') && DeAt(ExampleTitle, 8)
  {
  }

  lemma TitleExampleGaragem()
    ensures GaragemAt(ExampleTitle, 11)
  {
  }

  lemma TitleExampleSpaces()
    ensures SkipSpaces(ExampleTitle, 1) == 2
    ensures SkipSpaces(ExampleTitle, 7) == 8
    ensures SkipSpaces(ExampleTitle, 10) == 11
  {
    var s := ExampleTitle;
    SkipSpacesToLetter(s, 1, 2);
    SkipSpacesToLetter(s, 7, 8);
    SkipSpacesToLetter(s, 10, 11);
  }
}
