/**
 * The Levenshtein distance and the card parser on the strings the
 * detector's unit tests use.
 */
module CardExamples {

  import opened Optional
  import opened Text
  import opened CardText

  /** A maximal run of one class starting at `i` is the next token. */
  lemma RunToken(s: string, i: nat, j: nat, letters: bool)
    requires i < j <= |s|
    requires letters ==> IsLetter(s[i])
    requires !letters ==> IsDigit(s[i])
    requires forall p :: i <= p < j ==> InClass(s[p], letters)
    requires j == |s| || !InClass(s[j], letters)
    ensures TokensFrom(s, i) == [s[i..j]] + TokensFrom(s, j)
  {
    var e := SpanEnd(s, i, letters);
    assert e <= j by {
      assert j < |s| ==> !InClass(s[j], letters);
    }
    assert e >= j by {
      assert e < |s| ==> !InClass(s[e], letters);
    }
  }

  /** Scanning `a + b` from inside `b` is scanning `b`: the end of a run. */
  lemma {:induction false} SpanEndSuffix(a: string, b: string, i: nat, letters: bool)
    requires |a| <= i <= |a + b|
    ensures SpanEnd(a + b, i, letters) == SpanEnd(b, i - |a|, letters) + |a|
    decreases |a + b| - i
  {
    if i < |a + b| {
      assert (a + b)[i] == b[i - |a|];
      SpanEndSuffix(a, b, i + 1, letters);
    }
  }

  /** Scanning `a + b` from inside `b` is scanning `b`: the tokens. */
  lemma {:induction false} TokensFromSuffix(a: string, b: string, i: nat)
    requires |a| <= i <= |a + b|
    ensures TokensFrom(a + b, i) == TokensFrom(b, i - |a|)
    decreases |a + b| - i
  {
    var s := a + b;
    if i < |s| {
      assert s[i] == b[i - |a|];
      if IsLetter(s[i]) || IsDigit(s[i]) {
        var j := RunSuffix(a, b, i, IsLetter(s[i]));
        TokensFromRun(s, i);
        TokensFromRun(b, i - |a|);
        TokensFromSuffix(a, b, j);
      } else {
        SkipChar(s, i);
        SkipChar(b, i - |a|);
        TokensFromSuffix(a, b, i + 1);
      }
    }
  }

  /** A letter or a digit at `i` starts the next token. */
  lemma TokensFromRun(s: string, i: nat)
    requires i < |s| && (IsLetter(s[i]) || IsDigit(s[i]))
    ensures TokensFrom(s, i) ==
      [s[i..SpanEnd(s, i, IsLetter(s[i]))]] + TokensFrom(s, SpanEnd(s, i, IsLetter(s[i])))
  {
  }

  /** One run of `a + b` inside `b` is the same run of `b`. */
  lemma RunSuffix(a: string, b: string, i: nat, letters: bool) returns (j: nat)
    requires |a| <= i < |a + b|
    ensures j == SpanEnd(a + b, i, letters) && j - |a| == SpanEnd(b, i - |a|, letters)
    ensures (a + b)[i..j] == b[i - |a|..j - |a|]
  {
    SpanEndSuffix(a, b, i, letters);
    j := SpanEnd(a + b, i, letters);
  }

  /** A word of one class followed by a space is the first token. */
  lemma WordThenRest(w: string, rest: string, letters: bool)
    requires |w| >= 1
    requires forall p :: 0 <= p < |w| ==> InClass(w[p], letters)
    ensures Tokens(w + " " + rest) == [w] + Tokens(rest)
  {
    var s := w + " " + rest;
    assert s == (w + " ") + rest;
    forall p | 0 <= p < |w|
      ensures InClass(s[p], letters)
    {
      assert s[p] == w[p];
    }
    assert s[|w|] == ' ';
    RunToken(s, 0, |w|, letters);
    assert s[0..|w|] == w;
    SkipChar(s, |w|);
    TokensFromSuffix(w + " ", rest, |w| + 1);
  }

  /** A word of one class on its own is one token. */
  lemma WordAlone(w: string, letters: bool)
    requires |w| >= 1
    requires forall p :: 0 <= p < |w| ==> InClass(w[p], letters)
    ensures Tokens(w) == [w]
  {
    RunToken(w, 0, |w|, letters);
    assert w[0..|w|] == w;
  }

  /** A character that is neither a letter nor a digit is skipped. */
  lemma SkipChar(s: string, i: nat)
    requires i < |s| && !IsLetter(s[i]) && !IsDigit(s[i])
    ensures TokensFrom(s, i) == TokensFrom(s, i + 1)
  {
  }

  lemma CatBat()
    ensures Lev("cat", "bat") == 1
  {
    var a, b := "cat", "bat";
    assert D(a, b, 1, 1) == 1;
    assert D(a, b, 1, 2) == 2;
    assert D(a, b, 1, 3) == 3;
    assert D(a, b, 2, 1) == 2;
    assert D(a, b, 2, 2) == 1;
    assert D(a, b, 2, 3) == 2;
    assert D(a, b, 3, 1) == 3;
    assert D(a, b, 3, 2) == 2;
    assert D(a, b, 3, 3) == 1;
  }

  lemma KittenSitting()
    ensures Lev("kitten", "sitting") == 3
  {
    var a, b := "kitten", "sitting";
    assert D(a, b, 1, 1) == 1;
    assert D(a, b, 1, 2) == 2;
    assert D(a, b, 1, 3) == 3;
    assert D(a, b, 1, 4) == 4;
    assert D(a, b, 1, 5) == 5;
    assert D(a, b, 1, 6) == 6;
    assert D(a, b, 1, 7) == 7;
    assert D(a, b, 2, 1) == 2;
    assert D(a, b, 2, 2) == 1;
    assert D(a, b, 2, 3) == 2;
    assert D(a, b, 2, 4) == 3;
    assert D(a, b, 2, 5) == 4;
    assert D(a, b, 2, 6) == 5;
    assert D(a, b, 2, 7) == 6;
    assert D(a, b, 3, 1) == 3;
    assert D(a, b, 3, 2) == 2;
    assert D(a, b, 3, 3) == 1;
    assert D(a, b, 3, 4) == 2;
    assert D(a, b, 3, 5) == 3;
    assert D(a, b, 3, 6) == 4;
    assert D(a, b, 3, 7) == 5;
    assert D(a, b, 4, 1) == 4;
    assert D(a, b, 4, 2) == 3;
    assert D(a, b, 4, 3) == 2;
    assert D(a, b, 4, 4) == 1;
    assert D(a, b, 4, 5) == 2;
    assert D(a, b, 4, 6) == 3;
    assert D(a, b, 4, 7) == 4;
    assert D(a, b, 5, 1) == 5;
    assert D(a, b, 5, 2) == 4;
    assert D(a, b, 5, 3) == 3;
    assert D(a, b, 5, 4) == 2;
    assert D(a, b, 5, 5) == 2;
    assert D(a, b, 5, 6) == 3;
    assert D(a, b, 5, 7) == 4;
    assert D(a, b, 6, 1) == 6;
    assert D(a, b, 6, 2) == 5;
    assert D(a, b, 6, 3) == 4;
    assert D(a, b, 6, 4) == 3;
    assert D(a, b, 6, 5) == 3;
    assert D(a, b, 6, 6) == 2;
    assert D(a, b, 6, 7) == 3;
  }

  lemma HelloExpert()
    ensures Lev("hello", "expert") == 6
  {
    var a, b := "hello", "expert";
    assert D(a, b, 1, 1) == 1;
    assert D(a, b, 1, 2) == 2;
    assert D(a, b, 1, 3) == 3;
    assert D(a, b, 1, 4) == 4;
    assert D(a, b, 1, 5) == 5;
    assert D(a, b, 1, 6) == 6;
    assert D(a, b, 2, 1) == 1;
    assert D(a, b, 2, 2) == 2;
    assert D(a, b, 2, 3) == 3;
    assert D(a, b, 2, 4) == 3;
    assert D(a, b, 2, 5) == 4;
    assert D(a, b, 2, 6) == 5;
    assert D(a, b, 3, 1) == 2;
    assert D(a, b, 3, 2) == 2;
    assert D(a, b, 3, 3) == 3;
    assert D(a, b, 3, 4) == 4;
    assert D(a, b, 3, 5) == 4;
    assert D(a, b, 3, 6) == 5;
    assert D(a, b, 4, 1) == 3;
    assert D(a, b, 4, 2) == 3;
    assert D(a, b, 4, 3) == 3;
    assert D(a, b, 4, 4) == 4;
    assert D(a, b, 4, 5) == 5;
    assert D(a, b, 4, 6) == 5;
    assert D(a, b, 5, 1) == 4;
    assert D(a, b, 5, 2) == 4;
    assert D(a, b, 5, 3) == 4;
    assert D(a, b, 5, 4) == 4;
    assert D(a, b, 5, 5) == 5;
    assert D(a, b, 5, 6) == 6;
  }

  lemma WorldExpert()
    ensures Lev("world", "expert") == 6
  {
    var a, b := "world", "expert";
    assert D(a, b, 1, 1) == 1;
    assert D(a, b, 1, 2) == 2;
    assert D(a, b, 1, 3) == 3;
    assert D(a, b, 1, 4) == 4;
    assert D(a, b, 1, 5) == 5;
    assert D(a, b, 1, 6) == 6;
    assert D(a, b, 2, 1) == 2;
    assert D(a, b, 2, 2) == 2;
    assert D(a, b, 2, 3) == 3;
    assert D(a, b, 2, 4) == 4;
    assert D(a, b, 2, 5) == 5;
    assert D(a, b, 2, 6) == 6;
    assert D(a, b, 3, 1) == 3;
    assert D(a, b, 3, 2) == 3;
    assert D(a, b, 3, 3) == 3;
    assert D(a, b, 3, 4) == 4;
    assert D(a, b, 3, 5) == 4;
    assert D(a, b, 3, 6) == 5;
    assert D(a, b, 4, 1) == 4;
    assert D(a, b, 4, 2) == 4;
    assert D(a, b, 4, 3) == 4;
    assert D(a, b, 4, 4) == 4;
    assert D(a, b, 4, 5) == 5;
    assert D(a, b, 4, 6) == 5;
    assert D(a, b, 5, 1) == 5;
    assert D(a, b, 5, 2) == 5;
    assert D(a, b, 5, 3) == 5;
    assert D(a, b, 5, 4) == 5;
    assert D(a, b, 5, 5) == 5;
    assert D(a, b, 5, 6) == 6;
  }

  /** One dropped letter: "paricipant" is within distance 1 of "participant". */
  lemma MisspeltParticipant()
    ensures Lev("paricipant", "participant") <= 1
  {
    DropOne("paricipant", "participant");
  }

  lemma DropOne(a: string, b: string)
    requires a == "paricipant" && b == "participant"
    ensures Lev(a, b) <= 1
  {
    DCommonPrefix(a, b, 3);
    assert D(a, b, 3, 4) <= D(a, b, 3, 3) + 1;
    assert a[3..10] == b[4..11];
    DDiagonal(a, b, 3, 4, 7);
  }

  /** A keyword followed by a number gives the card they spell. */
  lemma ParseKeywordNumber(text: string, w: string, n: string, role: Role, number: nat)
    requires Tokens(text) == [w, n] && Keyword(w) && IsNumber(n)
    requires RoleOf(w) == role && DigitsValue(n) == number
    ensures CardFromText(text) == Some(Card(role, number))
  {
    assert FirstNumber([w, n], 1) == Some(1);
  }

  lemma KeywordParticipant(w: string)
    requires w == "Participant"
    ensures Keyword(w) && RoleOf(w) == Participant
  {
    assert Lower(w) == "participant";
    LevIdentityAndEmpty("participant");
    LevBounds("participant", "expert");
  }

  lemma KeywordExpert(w: string)
    requires w == "Expert"
    ensures Keyword(w) && RoleOf(w) == Expert
  {
    assert Lower(w) == "expert";
    LevIdentityAndEmpty("expert");
    LevBounds("expert", "participant");
  }

  lemma KeywordMisspelt(w: string)
    requires w == "Paricipant"
    ensures Keyword(w) && RoleOf(w) == Participant
  {
    assert Lower(w) == "paricipant";
    MisspeltParticipant();
    LevBounds("paricipant", "expert");
  }

  lemma NotKeywords()
    ensures !Keyword("Hello") && !Keyword("World") && !Keyword("42")
  {
    assert Lower("Hello") == "hello" && Lower("World") == "world";
    HelloExpert();
    WorldExpert();
    LevBounds("hello", "participant");
    LevBounds("world", "participant");
  }

  lemma TokensParticipant(s: string)
    requires s == "Participant 5"
    ensures Tokens(s) == ["Participant", "5"]
  {
    assert s == "Participant" + " " + "5";
    WordThenRest("Participant", "5", true);
    WordAlone("5", false);
  }

  lemma ParseParticipant(text: string)
    requires text == "Participant 5"
    ensures CardFromText(text) == Some(Card(Participant, 5))
  {
    TokensParticipant(text);
    var words := Tokens(text);
    KeywordParticipant(words[0]);
    assert DigitsValue(words[1]) == 5;
    ParseKeywordNumber(text, words[0], words[1], Participant, 5);
  }

  lemma TokensExpert(s: string)
    requires s == "Expert 3"
    ensures Tokens(s) == ["Expert", "3"]
  {
    assert s == "Expert" + " " + "3";
    WordThenRest("Expert", "3", true);
    WordAlone("3", false);
  }

  lemma ParseExpert(text: string)
    requires text == "Expert 3"
    ensures CardFromText(text) == Some(Card(Expert, 3))
  {
    TokensExpert(text);
    var words := Tokens(text);
    KeywordExpert(words[0]);
    assert DigitsValue(words[1]) == 3;
    ParseKeywordNumber(text, words[0], words[1], Expert, 3);
  }

  lemma TokensMisspelt(s: string)
    requires s == "Paricipant 2"
    ensures Tokens(s) == ["Paricipant", "2"]
  {
    assert s == "Paricipant" + " " + "2";
    WordThenRest("Paricipant", "2", true);
    WordAlone("2", false);
  }

  lemma ParseMisspelt(text: string)
    requires text == "Paricipant 2"
    ensures CardFromText(text) == Some(Card(Participant, 2))
  {
    TokensMisspelt(text);
    var words := Tokens(text);
    KeywordMisspelt(words[0]);
    assert DigitsValue(words[1]) == 2;
    ParseKeywordNumber(text, words[0], words[1], Participant, 2);
  }

  lemma ParseWithoutNumber(text: string)
    requires text == "Participant"
    ensures CardFromText(text) == None
  {
    var s := "Participant";
    assert SpanEnd(s, 0, true) == 11 && s[0..11] == "Participant";
    assert TokensFrom(s, 11) == [];
    assert FirstNumber(["Participant"], 1) == None;
  }

  lemma TokensNoKeyword(s: string)
    requires s == "Hello World 42"
    ensures Tokens(s) == ["Hello", "World", "42"]
  {
    var rest := "World 42";
    assert s == "Hello" + " " + rest;
    WordThenRest("Hello", rest, true);
    TokensWorld42(rest);
  }

  lemma TokensWorld42(s: string)
    requires s == "World 42"
    ensures Tokens(s) == ["World", "42"]
  {
    assert s == "World" + " " + "42";
    WordThenRest("World", "42", true);
    WordAlone("42", false);
  }

  lemma ParseWithoutKeyword(text: string)
    requires text == "Hello World 42"
    ensures CardFromText(text) == None
  {
    TokensNoKeyword(text);
    NotKeywords();
    var w := ["Hello", "World", "42"];
    assert FindCard(w, 0) == None;
  }
}
