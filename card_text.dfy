/**
 * Reading a participant card from OCR text: the Levenshtein distance used
 * for fuzzy matching, the tokeniser, and the card parser. The app's
 * detector and the older script define these identically.
 */
module CardText {

  import opened Optional
  import opened Text

  // ---------------------------------------------------------------------
  // Levenshtein distance

  function Min3(x: nat, y: nat, z: nat): (m: nat)
    ensures m <= x && m <= y && m <= z && (m == x || m == y || m == z)
  {
    if x <= y && x <= z then x else if y <= z then y else z
  }

  /** The edit distance between the first `i` characters of `a` and the first `j` of `b`. */
  function D(a: string, b: string, i: nat, j: nat): nat
    requires i <= |a| && j <= |b|
    decreases i + j
  {
    if i == 0 then j
    else if j == 0 then i
    else Min3(D(a, b, i - 1, j) + 1, D(a, b, i, j - 1) + 1, D(a, b, i - 1, j - 1) + (if a[i - 1] == b[j - 1] then 0 else 1))
  }

  /** The edit distance of two whole strings. */
  function Lev(a: string, b: string): nat {
    D(a, b, |a|, |b|)
  }

  lemma {:induction false} DSymmetric(a: string, b: string, i: nat, j: nat)
    requires i <= |a| && j <= |b|
    ensures D(a, b, i, j) == D(b, a, j, i)
    decreases i + j
  {
    if i > 0 && j > 0 {
      DSymmetric(a, b, i - 1, j);
      DSymmetric(a, b, i, j - 1);
      DSymmetric(a, b, i - 1, j - 1);
      DSymmetricStep(a, b, i, j);
    }
  }

  /** One step of the recurrence: swapping the strings swaps the first two candidates. */
  lemma DSymmetricStep(a: string, b: string, i: nat, j: nat)
    requires 0 < i <= |a| && 0 < j <= |b|
    requires D(a, b, i - 1, j) == D(b, a, j, i - 1)
    requires D(a, b, i, j - 1) == D(b, a, j - 1, i)
    requires D(a, b, i - 1, j - 1) == D(b, a, j - 1, i - 1)
    ensures D(a, b, i, j) == D(b, a, j, i)
  {
    var x, y := D(a, b, i - 1, j) + 1, D(a, b, i, j - 1) + 1;
    var z := D(a, b, i - 1, j - 1) + (if a[i - 1] == b[j - 1] then 0 else 1);
    assert D(a, b, i, j) == Min3(x, y, z);
    assert D(b, a, j, i) == Min3(y, x, z);
  }

  /** The distance is symmetric. */
  lemma LevSymmetric(a: string, b: string)
    ensures Lev(a, b) == Lev(b, a)
  {
    DSymmetric(a, b, |a|, |b|);
  }

  lemma {:induction false} DSelf(s: string, i: nat)
    requires i <= |s|
    ensures D(s, s, i, i) == 0
  {
    if i > 0 {
      DSelf(s, i - 1);
    }
  }

  /** A string is at distance 0 from itself and at distance |s| from the empty string. */
  lemma LevIdentityAndEmpty(s: string)
    ensures Lev(s, s) == 0
    ensures Lev(s, "") == |s| && Lev("", s) == |s|
  {
    DSelf(s, |s|);
  }

  lemma {:induction false} DBounds(a: string, b: string, i: nat, j: nat)
    requires i <= |a| && j <= |b|
    ensures (if i >= j then i - j else j - i) <= D(a, b, i, j) <= (if i >= j then i else j)
    decreases i + j
  {
    if i > 0 && j > 0 {
      DBounds(a, b, i - 1, j);
      DBounds(a, b, i, j - 1);
      DBounds(a, b, i - 1, j - 1);
    }
  }

  /** The distance is at least the length difference and at most the longer length. */
  lemma LevBounds(a: string, b: string)
    ensures (if |a| >= |b| then |a| - |b| else |b| - |a|) <= Lev(a, b) <= (if |a| >= |b| then |a| else |b|)
  {
    DBounds(a, b, |a|, |b|);
  }

  /**
   * `_levenshtein_distance`: the longer string goes first, an empty second
   * string gives the first's length, and otherwise rows of the table are
   * computed one after another, `prev` holding the last.
   */
  method LevenshteinDistance(s1: string, s2: string) returns (d: nat)
    ensures d == Lev(s1, s2)
    decreases if |s1| < |s2| then 1 else 0
  {
    if |s1| < |s2| {
      d := LevenshteinDistance(s2, s1);
      LevSymmetric(s2, s1);
      return;
    }
    if |s2| == 0 {
      return |s1|;
    }
    var prev: seq<nat> := seq(|s2| + 1, j requires 0 <= j <= |s2| => j);
    for i := 0 to |s1|
      invariant |prev| == |s2| + 1
      invariant forall j :: 0 <= j <= |s2| ==> prev[j] == D(s1, s2, i, j)
    {
      prev := NextRow(s1, s2, i, prev);
    }
    d := prev[|s2|];
  }

  /** Row `i + 1` of the table from row `i`, one cell at a time. */
  method NextRow(s1: string, s2: string, i: nat, prev: seq<nat>) returns (curr: seq<nat>)
    requires i < |s1| && |prev| == |s2| + 1
    requires forall j :: 0 <= j <= |s2| ==> prev[j] == D(s1, s2, i, j)
    ensures |curr| == |s2| + 1
    ensures forall j :: 0 <= j <= |s2| ==> curr[j] == D(s1, s2, i + 1, j)
  {
    curr := [i + 1];
    for j := 0 to |s2|
      invariant |curr| == j + 1
      invariant forall q :: 0 <= q <= j ==> curr[q] == D(s1, s2, i + 1, q)
    {
      var cell := Min3(prev[j + 1] + 1, curr[j] + 1, prev[j] + (if s1[i] != s2[j] then 1 else 0));
      assert cell == D(s1, s2, i + 1, j + 1);
      curr := curr + [cell];
    }
  }

  /** A common prefix costs nothing. */
  lemma {:induction false} DCommonPrefix(a: string, b: string, i: nat)
    requires i <= |a| && i <= |b| && a[..i] == b[..i]
    ensures D(a, b, i, i) == 0
  {
    if i > 0 {
      assert a[i - 1] == a[..i][i - 1] && b[i - 1] == b[..i][i - 1];
      assert a[..i - 1] == a[..i][..i - 1] && b[..i - 1] == b[..i][..i - 1];
      DCommonPrefix(a, b, i - 1);
    }
  }

  /** Matching characters along a diagonal cost nothing more. */
  lemma {:induction false} DDiagonal(a: string, b: string, i: nat, j: nat, k: nat)
    requires i + k <= |a| && j + k <= |b| && a[i..i + k] == b[j..j + k]
    ensures D(a, b, i + k, j + k) <= D(a, b, i, j)
  {
    if k > 0 {
      assert a[i..i + k - 1] == a[i..i + k][..k - 1] && b[j..j + k - 1] == b[j..j + k][..k - 1];
      assert a[i + k - 1] == a[i..i + k][k - 1] && b[j + k - 1] == b[j..j + k][k - 1];
      DDiagonal(a, b, i, j, k - 1);
    }
  }

  // ---------------------------------------------------------------------
  // Tokens: the matches of `[A-Za-z]+|[0-9]+`, left to right

  predicate InClass(c: char, letters: bool) {
    if letters then IsLetter(c) else IsDigit(c)
  }

  /** The end of the maximal run of one character class starting at `i`. */
  function SpanEnd(s: string, i: nat, letters: bool): (j: nat)
    requires i <= |s|
    ensures i <= j <= |s|
    ensures forall p :: i <= p < j ==> InClass(s[p], letters)
    ensures j == |s| || !InClass(s[j], letters)
    decreases |s| - i
  {
    if i < |s| && InClass(s[i], letters) then SpanEnd(s, i + 1, letters) else i
  }

  function TokensFrom(s: string, i: nat): seq<string>
    requires i <= |s|
    decreases |s| - i
  {
    if i == |s| then []
    else if IsLetter(s[i]) then
      var j := SpanEnd(s, i, true);
      [s[i..j]] + TokensFrom(s, j)
    else if IsDigit(s[i]) then
      var j := SpanEnd(s, i, false);
      [s[i..j]] + TokensFrom(s, j)
    else TokensFrom(s, i + 1)
  }

  /** `re.findall(r"[A-Za-z]+|[0-9]+", text)`. */
  function Tokens(s: string): seq<string> {
    TokensFrom(s, 0)
  }

  /** A token is a non-empty run of letters only or of digits only. */
  predicate IsToken(w: string) {
    |w| >= 1 && ((forall p :: 0 <= p < |w| ==> IsLetter(w[p])) || AllDigits(w))
  }

  lemma {:induction false} TokensFromShape(s: string, i: nat)
    requires i <= |s|
    ensures forall k :: 0 <= k < |TokensFrom(s, i)| ==> IsToken(TokensFrom(s, i)[k])
    decreases |s| - i
  {
    if i < |s| {
      if IsLetter(s[i]) {
        TokensFromShape(s, SpanEnd(s, i, true));
      } else if IsDigit(s[i]) {
        TokensFromShape(s, SpanEnd(s, i, false));
      } else {
        TokensFromShape(s, i + 1);
      }
    }
  }

  /** Every token is all letters or all digits, and not empty. */
  lemma TokensShape(s: string)
    ensures forall k :: 0 <= k < |Tokens(s)| ==> IsToken(Tokens(s)[k])
  {
    TokensFromShape(s, 0);
  }

  // ---------------------------------------------------------------------
  // The card

  datatype Role = Participant | Expert

  /** The role as `_parse_card` names it. */
  function RoleName(r: Role): string {
    match r
    case Participant => "participant"
    case Expert => "expert"
  }

  /** The card read from OCR text: a role and a number. */
  datatype Card = Card(role: Role, number: nat)

  /** A word of at least five characters within distance 3 of either role name. */
  predicate Keyword(w: string) {
    |w| >= 5 && (Lev(Lower(w), "participant") <= 3 || Lev(Lower(w), "expert") <= 3)
  }

  /** `str.isdigit` on a token. */
  predicate IsNumber(w: string) {
    |w| >= 1 && AllDigits(w)
  }

  /** The role of a keyword: the nearer name, a tie going to participant. */
  function RoleOf(w: string): Role {
    if Lev(Lower(w), "participant") <= Lev(Lower(w), "expert") then Participant else Expert
  }

  /** The index of the first number at or after `j`. */
  function FirstNumber(words: seq<string>, j: nat): (r: Option<nat>)
    ensures r.None? <==> forall n :: j <= n < |words| ==> !IsNumber(words[n])
    ensures r.Some? ==> j <= r.value < |words| && IsNumber(words[r.value])
    ensures r.Some? ==> forall m :: j <= m < r.value ==> !IsNumber(words[m])
    decreases |words| - j
  {
    if j >= |words| then None
    else if IsNumber(words[j]) then Some(j)
    else FirstNumber(words, j + 1)
  }

  /**
   * The positions of the keyword and the number `_parse_card` settles on,
   * looking at keywords from `k` on.
   */
  function FindCard(words: seq<string>, k: nat): (r: Option<(nat, nat)>)
    ensures r.Some? ==> k <= r.value.0 < r.value.1 < |words|
    ensures r.Some? ==> Keyword(words[r.value.0]) && IsNumber(words[r.value.1])
    decreases |words| - k
  {
    if k >= |words| then None
    else if Keyword(words[k]) && FirstNumber(words, k + 1).Some? then Some((k, FirstNumber(words, k + 1).value))
    else FindCard(words, k + 1)
  }

  /** The card `_parse_card` reads from `text`. */
  function CardFromText(text: string): Option<Card> {
    var words := Tokens(text);
    match FindCard(words, 0)
    case None => None
    case Some((i, j)) => Some(Card(RoleOf(words[i]), DigitsValue(words[j])))
  }

  /**
   * No card exactly when no keyword is followed by a number; otherwise the
   * card uses the first keyword that is followed by one, and the first
   * number after that keyword.
   */
  lemma {:induction false} FindCardSpec(words: seq<string>, k: nat)
    ensures FindCard(words, k).None? <==>
      forall i, j :: k <= i < j < |words| && Keyword(words[i]) ==> !IsNumber(words[j])
    ensures FindCard(words, k).Some? ==>
      var (i, j) := FindCard(words, k).value;
      && (forall m :: i < m < j ==> !IsNumber(words[m]))
      && (forall m, n :: k <= m < i && m < n < |words| && Keyword(words[m]) ==> !IsNumber(words[n]))
    decreases |words| - k
  {
    if k < |words| {
      FindCardSpec(words, k + 1);
    }
  }

  /**
   * `_parse_card`: scan the tokens for a keyword, then for the first number
   * after it.
   */
  method ParseCard(text: string) returns (card: Option<Card>)
    ensures card == CardFromText(text)
  {
    var words := Tokens(text);
    for i := 0 to |words|
      invariant FindCard(words, 0) == FindCard(words, i)
    {
      var word := words[i];
      if |word| < 5 {
        continue;
      }
      var dP := LevenshteinDistance(Lower(word), "participant");
      var dE := LevenshteinDistance(Lower(word), "expert");
      if dP <= 3 || dE <= 3 {
        for j := i + 1 to |words|
          invariant FirstNumber(words, i + 1) == FirstNumber(words, j)
        {
          if IsNumber(words[j]) {
            var role := if dP <= dE then Participant else Expert;
            return Some(Card(role, DigitsValue(words[j])));
          }
        }
      }
    }
    return None;
  }
}
