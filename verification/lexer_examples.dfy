/** The lexer's unit tests (src/parser/lexer.rs) as facts about the model.
    Each test is one lemma about `Tokenize`; the lemmas before it establish
    what a single call of `next` yields at each offset of the test input. */
module LexerExamples {
  import opened Base
  import opened Tokens
  import opened Keywords
  import opened Lexer
  import opened Tokenizer

  const PuncInput: seq<Byte> := Ascii(",:;(][)")

  lemma PuncTestAt0()
    ensures Next(PuncInput, 0) == Step(Done(Token(Punc(Comma), 0)), 1)
  {
    assert PuncInput[0] == 44;
    NextSingle(PuncInput, 0, Punc(Comma));
  }

  lemma PuncTestAt1()
    ensures Next(PuncInput, 1) == Step(Done(Token(Punc(Colon), 1)), 2)
  {
    assert PuncInput[1] == 58;
    NextSingle(PuncInput, 1, Punc(Colon));
  }

  lemma PuncTestAt2()
    ensures Next(PuncInput, 2) == Step(Done(Token(Punc(SemiColon), 2)), 3)
  {
    assert PuncInput[2] == 59;
    NextSingle(PuncInput, 2, Punc(SemiColon));
  }

  lemma PuncTestAt3()
    ensures Next(PuncInput, 3) == Step(Done(Token(Punc(LParen), 3)), 4)
  {
    assert PuncInput[3] == 40;
    NextSingle(PuncInput, 3, Punc(LParen));
  }

  lemma PuncTestAt4()
    ensures Next(PuncInput, 4) == Step(Done(Token(Punc(RBracket), 4)), 5)
  {
    assert PuncInput[4] == 93;
    NextSingle(PuncInput, 4, Punc(RBracket));
  }

  lemma PuncTestAt5()
    ensures Next(PuncInput, 5) == Step(Done(Token(Punc(LBracket), 5)), 6)
  {
    assert PuncInput[5] == 91;
    NextSingle(PuncInput, 5, Punc(LBracket));
  }

  lemma PuncTestAt6()
    ensures Next(PuncInput, 6) == Step(Done(Token(Punc(RParen), 6)), 7)
  {
    assert PuncInput[6] == 41;
    NextSingle(PuncInput, 6, Punc(RParen));
  }

  const PuncTestRun4: Run := Call(Punc(RBracket), 5, Call(Punc(LBracket), 6, Call(Punc(RParen), 7, Finish)))

  lemma PuncTestFollows4()
    ensures Follows(PuncInput, 4, PuncTestRun4)
  {
    PuncTestAt4();
    PuncTestAt5();
    PuncTestAt6();
    assert Follows(PuncInput, 6, Call(Punc(RParen), 7, Finish));
    assert Follows(PuncInput, 5, Call(Punc(LBracket), 6, Call(Punc(RParen), 7, Finish)));
    assert Follows(PuncInput, 4, Call(Punc(RBracket), 5, Call(Punc(LBracket), 6, Call(Punc(RParen), 7, Finish))));
  }

  const PuncTestRun0: Run := Call(Punc(Comma), 1, Call(Punc(Colon), 2, Call(Punc(SemiColon), 3, Call(Punc(LParen), 4, PuncTestRun4))))

  lemma PuncTestFollows0()
    ensures Follows(PuncInput, 0, PuncTestRun0)
  {
    PuncTestFollows4();
    PuncTestAt0();
    PuncTestAt1();
    PuncTestAt2();
    PuncTestAt3();
    assert Follows(PuncInput, 3, Call(Punc(LParen), 4, PuncTestRun4));
    assert Follows(PuncInput, 2, Call(Punc(SemiColon), 3, Call(Punc(LParen), 4, PuncTestRun4)));
    assert Follows(PuncInput, 1, Call(Punc(Colon), 2, Call(Punc(SemiColon), 3, Call(Punc(LParen), 4, PuncTestRun4))));
    assert Follows(PuncInput, 0, Call(Punc(Comma), 1, Call(Punc(Colon), 2, Call(Punc(SemiColon), 3, Call(Punc(LParen), 4, PuncTestRun4)))));
  }

  lemma PuncTestKinds4()
    ensures RunKinds(PuncTestRun4) == [Punc(RBracket), Punc(LBracket), Punc(RParen)] + RunKinds(Finish)
  {
    assert RunKinds(Call(Punc(RParen), 7, Finish)) == [Punc(RParen)] + RunKinds(Finish);
    assert RunKinds(Call(Punc(LBracket), 6, Call(Punc(RParen), 7, Finish))) == [Punc(LBracket), Punc(RParen)] + RunKinds(Finish);
    assert RunKinds(Call(Punc(RBracket), 5, Call(Punc(LBracket), 6, Call(Punc(RParen), 7, Finish)))) == [Punc(RBracket), Punc(LBracket), Punc(RParen)] + RunKinds(Finish);
  }

  lemma PuncTestKinds0()
    ensures RunKinds(PuncTestRun0) == [Punc(Comma), Punc(Colon), Punc(SemiColon), Punc(LParen)] + RunKinds(PuncTestRun4)
  {
    assert RunKinds(Call(Punc(LParen), 4, PuncTestRun4)) == [Punc(LParen)] + RunKinds(PuncTestRun4);
    assert RunKinds(Call(Punc(SemiColon), 3, Call(Punc(LParen), 4, PuncTestRun4))) == [Punc(SemiColon), Punc(LParen)] + RunKinds(PuncTestRun4);
    assert RunKinds(Call(Punc(Colon), 2, Call(Punc(SemiColon), 3, Call(Punc(LParen), 4, PuncTestRun4)))) == [Punc(Colon), Punc(SemiColon), Punc(LParen)] + RunKinds(PuncTestRun4);
    assert RunKinds(Call(Punc(Comma), 1, Call(Punc(Colon), 2, Call(Punc(SemiColon), 3, Call(Punc(LParen), 4, PuncTestRun4))))) == [Punc(Comma), Punc(Colon), Punc(SemiColon), Punc(LParen)] + RunKinds(PuncTestRun4);
  }

  lemma PuncTestRunKinds()
    ensures RunKinds(PuncTestRun0) == [Punc(Comma), Punc(Colon), Punc(SemiColon), Punc(LParen), Punc(RBracket), Punc(LBracket), Punc(RParen), Eof]
  {
    PuncTestKinds4();
    PuncTestKinds0();
  }

  /** `test_punc`: each one-byte punctuation mark is its own token. */
  lemma PuncTest()
    ensures Tokenize(PuncInput, 0).Done?
    ensures Kinds(Tokenize(PuncInput, 0).value) == [Punc(Comma), Punc(Colon), Punc(SemiColon), Punc(LParen), Punc(RBracket), Punc(LBracket), Punc(RParen), Eof]
  {
    PuncTestFollows0();
    FollowsTokenize(PuncInput, 0, PuncTestRun0);
    PuncTestRunKinds();
  }

  const KeywordInput: seq<Byte> := Ascii("select weight from ") + Ascii("dog;")

  lemma KeywordTestBytes0()
    ensures KeywordInput[0..6] == [115, 101, 108, 101, 99, 116]
  {
    assert KeywordInput[0] == 115 && KeywordInput[1] == 101 && KeywordInput[2] == 108 && KeywordInput[3] == 101 && KeywordInput[4] == 99 && KeywordInput[5] == 116;
  }

  lemma KeywordTestWord0()
    ensures forall i :: 0 <= i < 6 ==> IsLetter(KeywordInput[i])
    ensures !IsLetter(KeywordInput[6])
    ensures Text(LowerBytes(KeywordInput[0..6])) == Spelling(KeywordKind.Select)
  {
    KeywordTestBytes0();
    assert KeywordInput[6] == 32;
  }

  lemma KeywordTestAt0()
    ensures Next(KeywordInput, 0) == Step(Done(Token(Keyword(KeywordKind.Select), 0)), 6)
  {
    KeywordTestWord0();
    NextKeyword(KeywordInput, 0, 6, KeywordKind.Select);
  }

  lemma KeywordTestAt6()
    ensures Next(KeywordInput, 6) == Step(Done(Token(Whitespace(Space), 6)), 7)
  {
    assert KeywordInput[6] == 32;
    NextSingle(KeywordInput, 6, Whitespace(Space));
  }

  lemma KeywordTestBytes7()
    ensures KeywordInput[7..13] == [119, 101, 105, 103, 104, 116]
  {
    assert KeywordInput[7] == 119 && KeywordInput[8] == 101 && KeywordInput[9] == 105 && KeywordInput[10] == 103 && KeywordInput[11] == 104 && KeywordInput[12] == 116;
  }

  lemma KeywordTestText7()
    ensures Ascii("weight") == [119, 101, 105, 103, 104, 116]
  {
  }

  lemma KeywordTestCode7()
    ensures PrefixCode(Text(LowerBytes([119, 101, 105, 103, 104, 116]))) == 0x77656967
  {
  }

  lemma KeywordTestLetters7()
    ensures forall i :: 7 <= i < 13 ==> IsLetter(KeywordInput[i])
  {
    assert KeywordInput[7] == 119 && KeywordInput[8] == 101 && KeywordInput[9] == 105 && KeywordInput[10] == 103 && KeywordInput[11] == 104 && KeywordInput[12] == 116;
  }

  lemma KeywordTestFree7()
    ensures forall k :: Text(LowerBytes(KeywordInput[7..13])) != Spelling(k)
  {
    KeywordTestBytes7();
    KeywordTestCode7();
    Unreserved(KeywordInput[7..13]);
  }

  lemma KeywordTestWord7()
    ensures KeywordInput[7..13] == Ascii("weight")
    ensures forall i :: 7 <= i < 13 ==> IsLetter(KeywordInput[i])
    ensures !IsLetter(KeywordInput[13])
    ensures forall k :: Text(LowerBytes(KeywordInput[7..13])) != Spelling(k)
  {
    KeywordTestBytes7();
    KeywordTestText7();
    KeywordTestLetters7();
    KeywordTestFree7();
    assert KeywordInput[13] == 32;
  }

  lemma KeywordTestAt7()
    ensures Next(KeywordInput, 7) == Step(Done(Token(Identifier(Ascii("weight")), 7)), 13)
  {
    KeywordTestWord7();
    NextIdentifier(KeywordInput, 7, 13);
  }

  lemma KeywordTestAt13()
    ensures Next(KeywordInput, 13) == Step(Done(Token(Whitespace(Space), 13)), 14)
  {
    assert KeywordInput[13] == 32;
    NextSingle(KeywordInput, 13, Whitespace(Space));
  }

  lemma KeywordTestBytes14()
    ensures KeywordInput[14..18] == [102, 114, 111, 109]
  {
    assert KeywordInput[14] == 102 && KeywordInput[15] == 114 && KeywordInput[16] == 111 && KeywordInput[17] == 109;
  }

  lemma KeywordTestWord14()
    ensures forall i :: 14 <= i < 18 ==> IsLetter(KeywordInput[i])
    ensures !IsLetter(KeywordInput[18])
    ensures Text(LowerBytes(KeywordInput[14..18])) == Spelling(From)
  {
    KeywordTestBytes14();
    assert KeywordInput[18] == 32;
  }

  lemma KeywordTestAt14()
    ensures Next(KeywordInput, 14) == Step(Done(Token(Keyword(From), 14)), 18)
  {
    KeywordTestWord14();
    NextKeyword(KeywordInput, 14, 18, From);
  }

  lemma KeywordTestAt18()
    ensures Next(KeywordInput, 18) == Step(Done(Token(Whitespace(Space), 18)), 19)
  {
    assert KeywordInput[18] == 32;
    NextSingle(KeywordInput, 18, Whitespace(Space));
  }

  lemma KeywordTestBytes19()
    ensures KeywordInput[19..22] == [100, 111, 103]
  {
    assert KeywordInput[19] == 100 && KeywordInput[20] == 111 && KeywordInput[21] == 103;
  }

  lemma KeywordTestText19()
    ensures Ascii("dog") == [100, 111, 103]
  {
  }

  lemma KeywordTestCode19()
    ensures PrefixCode(Text(LowerBytes([100, 111, 103]))) == 0x646f6700
  {
  }

  lemma KeywordTestLetters19()
    ensures forall i :: 19 <= i < 22 ==> IsLetter(KeywordInput[i])
  {
    assert KeywordInput[19] == 100 && KeywordInput[20] == 111 && KeywordInput[21] == 103;
  }

  lemma KeywordTestFree19()
    ensures forall k :: Text(LowerBytes(KeywordInput[19..22])) != Spelling(k)
  {
    KeywordTestBytes19();
    KeywordTestCode19();
    Unreserved(KeywordInput[19..22]);
  }

  lemma KeywordTestWord19()
    ensures KeywordInput[19..22] == Ascii("dog")
    ensures forall i :: 19 <= i < 22 ==> IsLetter(KeywordInput[i])
    ensures !IsLetter(KeywordInput[22])
    ensures forall k :: Text(LowerBytes(KeywordInput[19..22])) != Spelling(k)
  {
    KeywordTestBytes19();
    KeywordTestText19();
    KeywordTestLetters19();
    KeywordTestFree19();
    assert KeywordInput[22] == 59;
  }

  lemma KeywordTestAt19()
    ensures Next(KeywordInput, 19) == Step(Done(Token(Identifier(Ascii("dog")), 19)), 22)
  {
    KeywordTestWord19();
    NextIdentifier(KeywordInput, 19, 22);
  }

  lemma KeywordTestAt22()
    ensures Next(KeywordInput, 22) == Step(Done(Token(Punc(SemiColon), 22)), 23)
  {
    assert KeywordInput[22] == 59;
    NextSingle(KeywordInput, 22, Punc(SemiColon));
  }

  const KeywordTestRun19: Run := Call(Identifier(Ascii("dog")), 22, Call(Punc(SemiColon), 23, Finish))

  lemma KeywordTestFollows19()
    ensures Follows(KeywordInput, 19, KeywordTestRun19)
  {
    KeywordTestAt19();
    KeywordTestAt22();
    assert Follows(KeywordInput, 22, Call(Punc(SemiColon), 23, Finish));
    assert Follows(KeywordInput, 19, Call(Identifier(Ascii("dog")), 22, Call(Punc(SemiColon), 23, Finish)));
  }

  const KeywordTestRun13: Run := Call(Whitespace(Space), 14, Call(Keyword(From), 18, Call(Whitespace(Space), 19, KeywordTestRun19)))

  lemma KeywordTestFollows13()
    ensures Follows(KeywordInput, 13, KeywordTestRun13)
  {
    KeywordTestFollows19();
    KeywordTestAt13();
    KeywordTestAt14();
    KeywordTestAt18();
    assert Follows(KeywordInput, 18, Call(Whitespace(Space), 19, KeywordTestRun19));
    assert Follows(KeywordInput, 14, Call(Keyword(From), 18, Call(Whitespace(Space), 19, KeywordTestRun19)));
    assert Follows(KeywordInput, 13, Call(Whitespace(Space), 14, Call(Keyword(From), 18, Call(Whitespace(Space), 19, KeywordTestRun19))));
  }

  const KeywordTestRun0: Run := Call(Keyword(KeywordKind.Select), 6, Call(Whitespace(Space), 7, Call(Identifier(Ascii("weight")), 13, KeywordTestRun13)))

  lemma KeywordTestFollows0()
    ensures Follows(KeywordInput, 0, KeywordTestRun0)
  {
    KeywordTestFollows13();
    KeywordTestAt0();
    KeywordTestAt6();
    KeywordTestAt7();
    assert Follows(KeywordInput, 7, Call(Identifier(Ascii("weight")), 13, KeywordTestRun13));
    assert Follows(KeywordInput, 6, Call(Whitespace(Space), 7, Call(Identifier(Ascii("weight")), 13, KeywordTestRun13)));
    assert Follows(KeywordInput, 0, Call(Keyword(KeywordKind.Select), 6, Call(Whitespace(Space), 7, Call(Identifier(Ascii("weight")), 13, KeywordTestRun13))));
  }

  lemma KeywordTestKinds19()
    ensures RunKinds(KeywordTestRun19) == [Identifier(Ascii("dog")), Punc(SemiColon)] + RunKinds(Finish)
  {
    assert RunKinds(Call(Punc(SemiColon), 23, Finish)) == [Punc(SemiColon)] + RunKinds(Finish);
    assert RunKinds(Call(Identifier(Ascii("dog")), 22, Call(Punc(SemiColon), 23, Finish))) == [Identifier(Ascii("dog")), Punc(SemiColon)] + RunKinds(Finish);
  }

  lemma KeywordTestKinds13()
    ensures RunKinds(KeywordTestRun13) == [Whitespace(Space), Keyword(From), Whitespace(Space)] + RunKinds(KeywordTestRun19)
  {
    assert RunKinds(Call(Whitespace(Space), 19, KeywordTestRun19)) == [Whitespace(Space)] + RunKinds(KeywordTestRun19);
    assert RunKinds(Call(Keyword(From), 18, Call(Whitespace(Space), 19, KeywordTestRun19))) == [Keyword(From), Whitespace(Space)] + RunKinds(KeywordTestRun19);
    assert RunKinds(Call(Whitespace(Space), 14, Call(Keyword(From), 18, Call(Whitespace(Space), 19, KeywordTestRun19)))) == [Whitespace(Space), Keyword(From), Whitespace(Space)] + RunKinds(KeywordTestRun19);
  }

  lemma KeywordTestKinds0()
    ensures RunKinds(KeywordTestRun0) == [Keyword(KeywordKind.Select), Whitespace(Space), Identifier(Ascii("weight"))] + RunKinds(KeywordTestRun13)
  {
    assert RunKinds(Call(Identifier(Ascii("weight")), 13, KeywordTestRun13)) == [Identifier(Ascii("weight"))] + RunKinds(KeywordTestRun13);
    assert RunKinds(Call(Whitespace(Space), 7, Call(Identifier(Ascii("weight")), 13, KeywordTestRun13))) == [Whitespace(Space), Identifier(Ascii("weight"))] + RunKinds(KeywordTestRun13);
    assert RunKinds(Call(Keyword(KeywordKind.Select), 6, Call(Whitespace(Space), 7, Call(Identifier(Ascii("weight")), 13, KeywordTestRun13)))) == [Keyword(KeywordKind.Select), Whitespace(Space), Identifier(Ascii("weight"))] + RunKinds(KeywordTestRun13);
  }

  lemma KeywordTestRunKinds()
    ensures RunKinds(KeywordTestRun0) == [Keyword(KeywordKind.Select), Whitespace(Space), Identifier(Ascii("weight")), Whitespace(Space), Keyword(From), Whitespace(Space), Identifier(Ascii("dog")), Punc(SemiColon), Eof]
  {
    KeywordTestKinds19();
    KeywordTestKinds13();
    KeywordTestKinds0();
  }

  /** `test_kw`: keywords and identifiers, with the spaces between them returned as tokens. */
  lemma KeywordTest()
    ensures Tokenize(KeywordInput, 0).Done?
    ensures Kinds(Tokenize(KeywordInput, 0).value) == [Keyword(KeywordKind.Select), Whitespace(Space), Identifier(Ascii("weight")), Whitespace(Space), Keyword(From), Whitespace(Space), Identifier(Ascii("dog")), Punc(SemiColon), Eof]
  {
    KeywordTestFollows0();
    FollowsTokenize(KeywordInput, 0, KeywordTestRun0);
    KeywordTestRunKinds();
  }

  const StringInput: seq<Byte> := Ascii("UPDATE dog SET color ") + Ascii("= 'golden' WHERE ") + Ascii("breed = 'golden ") + Ascii("retriever';")

  lemma StringTestBytes0()
    ensures StringInput[0..6] == [85, 80, 68, 65, 84, 69]
  {
    assert StringInput[0] == 85 && StringInput[1] == 80 && StringInput[2] == 68 && StringInput[3] == 65 && StringInput[4] == 84 && StringInput[5] == 69;
  }

  lemma StringTestWord0()
    ensures forall i :: 0 <= i < 6 ==> IsLetter(StringInput[i])
    ensures !IsLetter(StringInput[6])
    ensures Text(LowerBytes(StringInput[0..6])) == Spelling(KeywordKind.Update)
  {
    StringTestBytes0();
    assert StringInput[6] == 32;
  }

  lemma StringTestAt0()
    ensures Next(StringInput, 0) == Step(Done(Token(Keyword(KeywordKind.Update), 0)), 6)
  {
    StringTestWord0();
    NextKeyword(StringInput, 0, 6, KeywordKind.Update);
  }

  lemma StringTestAt6()
    ensures Next(StringInput, 6) == Step(Done(Token(Whitespace(Space), 6)), 7)
  {
    assert StringInput[6] == 32;
    NextSingle(StringInput, 6, Whitespace(Space));
  }

  lemma StringTestBytes7()
    ensures StringInput[7..10] == [100, 111, 103]
  {
    assert StringInput[7] == 100 && StringInput[8] == 111 && StringInput[9] == 103;
  }

  lemma StringTestText7()
    ensures Ascii("dog") == [100, 111, 103]
  {
  }

  lemma StringTestCode7()
    ensures PrefixCode(Text(LowerBytes([100, 111, 103]))) == 0x646f6700
  {
  }

  lemma StringTestLetters7()
    ensures forall i :: 7 <= i < 10 ==> IsLetter(StringInput[i])
  {
    assert StringInput[7] == 100 && StringInput[8] == 111 && StringInput[9] == 103;
  }

  lemma StringTestFree7()
    ensures forall k :: Text(LowerBytes(StringInput[7..10])) != Spelling(k)
  {
    StringTestBytes7();
    StringTestCode7();
    Unreserved(StringInput[7..10]);
  }

  lemma StringTestWord7()
    ensures StringInput[7..10] == Ascii("dog")
    ensures forall i :: 7 <= i < 10 ==> IsLetter(StringInput[i])
    ensures !IsLetter(StringInput[10])
    ensures forall k :: Text(LowerBytes(StringInput[7..10])) != Spelling(k)
  {
    StringTestBytes7();
    StringTestText7();
    StringTestLetters7();
    StringTestFree7();
    assert StringInput[10] == 32;
  }

  lemma StringTestAt7()
    ensures Next(StringInput, 7) == Step(Done(Token(Identifier(Ascii("dog")), 7)), 10)
  {
    StringTestWord7();
    NextIdentifier(StringInput, 7, 10);
  }

  lemma StringTestAt10()
    ensures Next(StringInput, 10) == Step(Done(Token(Whitespace(Space), 10)), 11)
  {
    assert StringInput[10] == 32;
    NextSingle(StringInput, 10, Whitespace(Space));
  }

  lemma StringTestBytes11()
    ensures StringInput[11..14] == [83, 69, 84]
  {
    assert StringInput[11] == 83 && StringInput[12] == 69 && StringInput[13] == 84;
  }

  lemma StringTestWord11()
    ensures forall i :: 11 <= i < 14 ==> IsLetter(StringInput[i])
    ensures !IsLetter(StringInput[14])
    ensures Text(LowerBytes(StringInput[11..14])) == Spelling(Set)
  {
    StringTestBytes11();
    assert StringInput[14] == 32;
  }

  lemma StringTestAt11()
    ensures Next(StringInput, 11) == Step(Done(Token(Keyword(Set), 11)), 14)
  {
    StringTestWord11();
    NextKeyword(StringInput, 11, 14, Set);
  }

  lemma StringTestAt14()
    ensures Next(StringInput, 14) == Step(Done(Token(Whitespace(Space), 14)), 15)
  {
    assert StringInput[14] == 32;
    NextSingle(StringInput, 14, Whitespace(Space));
  }

  lemma StringTestBytes15()
    ensures StringInput[15..20] == [99, 111, 108, 111, 114]
  {
    assert StringInput[15] == 99 && StringInput[16] == 111 && StringInput[17] == 108 && StringInput[18] == 111 && StringInput[19] == 114;
  }

  lemma StringTestText15()
    ensures Ascii("color") == [99, 111, 108, 111, 114]
  {
  }

  lemma StringTestCode15()
    ensures PrefixCode(Text(LowerBytes([99, 111, 108, 111, 114]))) == 0x636f6c6f
  {
  }

  lemma StringTestLetters15()
    ensures forall i :: 15 <= i < 20 ==> IsLetter(StringInput[i])
  {
    assert StringInput[15] == 99 && StringInput[16] == 111 && StringInput[17] == 108 && StringInput[18] == 111 && StringInput[19] == 114;
  }

  lemma StringTestFree15()
    ensures forall k :: Text(LowerBytes(StringInput[15..20])) != Spelling(k)
  {
    StringTestBytes15();
    StringTestCode15();
    Unreserved(StringInput[15..20]);
  }

  lemma StringTestWord15()
    ensures StringInput[15..20] == Ascii("color")
    ensures forall i :: 15 <= i < 20 ==> IsLetter(StringInput[i])
    ensures !IsLetter(StringInput[20])
    ensures forall k :: Text(LowerBytes(StringInput[15..20])) != Spelling(k)
  {
    StringTestBytes15();
    StringTestText15();
    StringTestLetters15();
    StringTestFree15();
    assert StringInput[20] == 32;
  }

  lemma StringTestAt15()
    ensures Next(StringInput, 15) == Step(Done(Token(Identifier(Ascii("color")), 15)), 20)
  {
    StringTestWord15();
    NextIdentifier(StringInput, 15, 20);
  }

  lemma StringTestAt20()
    ensures Next(StringInput, 20) == Step(Done(Token(Whitespace(Space), 20)), 21)
  {
    assert StringInput[20] == 32;
    NextSingle(StringInput, 20, Whitespace(Space));
  }

  lemma StringTestAt21()
    ensures Next(StringInput, 21) == Step(Done(Token(Punc(PuncKind.Equal), 21)), 22)
  {
    assert StringInput[21] == 61;
    NextSingle(StringInput, 21, Punc(PuncKind.Equal));
  }

  lemma StringTestAt22()
    ensures Next(StringInput, 22) == Step(Done(Token(Whitespace(Space), 22)), 23)
  {
    assert StringInput[22] == 32;
    NextSingle(StringInput, 22, Whitespace(Space));
  }

  lemma StringTestBytes23()
    ensures StringInput[23..31] == [39] + [103, 111, 108, 100, 101, 110] + [39]
  {
    assert StringInput[23] == 39 && StringInput[24] == 103 && StringInput[25] == 111 && StringInput[26] == 108 && StringInput[27] == 100 && StringInput[28] == 101 && StringInput[29] == 110 && StringInput[30] == 39;
  }

  lemma StringTestText23()
    ensures Ascii("golden") == [103, 111, 108, 100, 101, 110]
  {
  }

  lemma StringTestQuoted23()
    ensures StringInput[23..31] == [Quote] + Ascii("golden") + [Quote]
    ensures Quote !in Ascii("golden") && Ascii("golden")[5] != Backslash
  {
    StringTestBytes23();
    StringTestText23();
  }

  lemma StringTestAt23()
    ensures Next(StringInput, 23) == Step(Done(Token(Literal(String(Ascii("golden"))), 23)), 31)
  {
    StringTestQuoted23();
    NextQuoted(StringInput, 23, Ascii("golden"));
  }

  lemma StringTestAt31()
    ensures Next(StringInput, 31) == Step(Done(Token(Whitespace(Space), 31)), 32)
  {
    assert StringInput[31] == 32;
    NextSingle(StringInput, 31, Whitespace(Space));
  }

  lemma StringTestBytes32()
    ensures StringInput[32..37] == [87, 72, 69, 82, 69]
  {
    assert StringInput[32] == 87 && StringInput[33] == 72 && StringInput[34] == 69 && StringInput[35] == 82 && StringInput[36] == 69;
  }

  lemma StringTestWord32()
    ensures forall i :: 32 <= i < 37 ==> IsLetter(StringInput[i])
    ensures !IsLetter(StringInput[37])
    ensures Text(LowerBytes(StringInput[32..37])) == Spelling(Where)
  {
    StringTestBytes32();
    assert StringInput[37] == 32;
  }

  lemma StringTestAt32()
    ensures Next(StringInput, 32) == Step(Done(Token(Keyword(Where), 32)), 37)
  {
    StringTestWord32();
    NextKeyword(StringInput, 32, 37, Where);
  }

  lemma StringTestAt37()
    ensures Next(StringInput, 37) == Step(Done(Token(Whitespace(Space), 37)), 38)
  {
    assert StringInput[37] == 32;
    NextSingle(StringInput, 37, Whitespace(Space));
  }

  lemma StringTestBytes38()
    ensures StringInput[38..43] == [98, 114, 101, 101, 100]
  {
    assert StringInput[38] == 98 && StringInput[39] == 114 && StringInput[40] == 101 && StringInput[41] == 101 && StringInput[42] == 100;
  }

  lemma StringTestText38()
    ensures Ascii("breed") == [98, 114, 101, 101, 100]
  {
  }

  lemma StringTestCode38()
    ensures PrefixCode(Text(LowerBytes([98, 114, 101, 101, 100]))) == 0x62726565
  {
  }

  lemma StringTestLetters38()
    ensures forall i :: 38 <= i < 43 ==> IsLetter(StringInput[i])
  {
    assert StringInput[38] == 98 && StringInput[39] == 114 && StringInput[40] == 101 && StringInput[41] == 101 && StringInput[42] == 100;
  }

  lemma StringTestFree38()
    ensures forall k :: Text(LowerBytes(StringInput[38..43])) != Spelling(k)
  {
    StringTestBytes38();
    StringTestCode38();
    Unreserved(StringInput[38..43]);
  }

  lemma StringTestWord38()
    ensures StringInput[38..43] == Ascii("breed")
    ensures forall i :: 38 <= i < 43 ==> IsLetter(StringInput[i])
    ensures !IsLetter(StringInput[43])
    ensures forall k :: Text(LowerBytes(StringInput[38..43])) != Spelling(k)
  {
    StringTestBytes38();
    StringTestText38();
    StringTestLetters38();
    StringTestFree38();
    assert StringInput[43] == 32;
  }

  lemma StringTestAt38()
    ensures Next(StringInput, 38) == Step(Done(Token(Identifier(Ascii("breed")), 38)), 43)
  {
    StringTestWord38();
    NextIdentifier(StringInput, 38, 43);
  }

  lemma StringTestAt43()
    ensures Next(StringInput, 43) == Step(Done(Token(Whitespace(Space), 43)), 44)
  {
    assert StringInput[43] == 32;
    NextSingle(StringInput, 43, Whitespace(Space));
  }

  lemma StringTestAt44()
    ensures Next(StringInput, 44) == Step(Done(Token(Punc(PuncKind.Equal), 44)), 45)
  {
    assert StringInput[44] == 61;
    NextSingle(StringInput, 44, Punc(PuncKind.Equal));
  }

  lemma StringTestAt45()
    ensures Next(StringInput, 45) == Step(Done(Token(Whitespace(Space), 45)), 46)
  {
    assert StringInput[45] == 32;
    NextSingle(StringInput, 45, Whitespace(Space));
  }

  lemma StringTestBytes46To55()
    ensures StringInput[46..55] == [39, 103, 111, 108, 100, 101, 110, 32, 114]
  {
    assert StringInput[46] == 39 && StringInput[47] == 103 && StringInput[48] == 111 && StringInput[49] == 108 && StringInput[50] == 100 && StringInput[51] == 101 && StringInput[52] == 110 && StringInput[53] == 32 && StringInput[54] == 114;
  }

  lemma StringTestBytes55To64()
    ensures StringInput[55..64] == [101, 116, 114, 105, 101, 118, 101, 114, 39]
  {
    assert StringInput[55] == 101 && StringInput[56] == 116 && StringInput[57] == 114 && StringInput[58] == 105 && StringInput[59] == 101 && StringInput[60] == 118 && StringInput[61] == 101 && StringInput[62] == 114 && StringInput[63] == 39;
  }

  lemma StringTestBytes46()
    ensures StringInput[46..64] == [39] + [103, 111, 108, 100, 101, 110, 32, 114, 101, 116, 114, 105, 101, 118, 101, 114] + [39]
  {
    StringTestBytes46To55();
    StringTestBytes55To64();
    assert StringInput[46..64] == StringInput[46..55] + StringInput[55..64];
  }

  lemma StringTestText46()
    ensures Ascii("golden retriever") == [103, 111, 108, 100, 101, 110, 32, 114, 101, 116, 114, 105, 101, 118, 101, 114]
  {
  }

  lemma StringTestQuoted46()
    ensures StringInput[46..64] == [Quote] + Ascii("golden retriever") + [Quote]
    ensures Quote !in Ascii("golden retriever") && Ascii("golden retriever")[15] != Backslash
  {
    StringTestBytes46();
    StringTestText46();
  }

  lemma StringTestAt46()
    ensures Next(StringInput, 46) == Step(Done(Token(Literal(String(Ascii("golden retriever"))), 46)), 64)
  {
    StringTestQuoted46();
    NextQuoted(StringInput, 46, Ascii("golden retriever"));
  }

  lemma StringTestAt64()
    ensures Next(StringInput, 64) == Step(Done(Token(Punc(SemiColon), 64)), 65)
  {
    assert StringInput[64] == 59;
    NextSingle(StringInput, 64, Punc(SemiColon));
  }

  const StringTestRun46: Run := Call(Literal(String(Ascii("golden retriever"))), 64, Call(Punc(SemiColon), 65, Finish))

  lemma StringTestFollows46()
    ensures Follows(StringInput, 46, StringTestRun46)
  {
    StringTestAt46();
    StringTestAt64();
    assert Follows(StringInput, 64, Call(Punc(SemiColon), 65, Finish));
    assert Follows(StringInput, 46, Call(Literal(String(Ascii("golden retriever"))), 64, Call(Punc(SemiColon), 65, Finish)));
  }

  const StringTestRun43: Run := Call(Whitespace(Space), 44, Call(Punc(PuncKind.Equal), 45, Call(Whitespace(Space), 46, StringTestRun46)))

  lemma StringTestFollows43()
    ensures Follows(StringInput, 43, StringTestRun43)
  {
    StringTestFollows46();
    StringTestAt43();
    StringTestAt44();
    StringTestAt45();
    assert Follows(StringInput, 45, Call(Whitespace(Space), 46, StringTestRun46));
    assert Follows(StringInput, 44, Call(Punc(PuncKind.Equal), 45, Call(Whitespace(Space), 46, StringTestRun46)));
    assert Follows(StringInput, 43, Call(Whitespace(Space), 44, Call(Punc(PuncKind.Equal), 45, Call(Whitespace(Space), 46, StringTestRun46))));
  }

  const StringTestRun32: Run := Call(Keyword(Where), 37, Call(Whitespace(Space), 38, Call(Identifier(Ascii("breed")), 43, StringTestRun43)))

  lemma StringTestFollows32()
    ensures Follows(StringInput, 32, StringTestRun32)
  {
    StringTestFollows43();
    StringTestAt32();
    StringTestAt37();
    StringTestAt38();
    assert Follows(StringInput, 38, Call(Identifier(Ascii("breed")), 43, StringTestRun43));
    assert Follows(StringInput, 37, Call(Whitespace(Space), 38, Call(Identifier(Ascii("breed")), 43, StringTestRun43)));
    assert Follows(StringInput, 32, Call(Keyword(Where), 37, Call(Whitespace(Space), 38, Call(Identifier(Ascii("breed")), 43, StringTestRun43))));
  }

  const StringTestRun22: Run := Call(Whitespace(Space), 23, Call(Literal(String(Ascii("golden"))), 31, Call(Whitespace(Space), 32, StringTestRun32)))

  lemma StringTestFollows22()
    ensures Follows(StringInput, 22, StringTestRun22)
  {
    StringTestFollows32();
    StringTestAt22();
    StringTestAt23();
    StringTestAt31();
    assert Follows(StringInput, 31, Call(Whitespace(Space), 32, StringTestRun32));
    assert Follows(StringInput, 23, Call(Literal(String(Ascii("golden"))), 31, Call(Whitespace(Space), 32, StringTestRun32)));
    assert Follows(StringInput, 22, Call(Whitespace(Space), 23, Call(Literal(String(Ascii("golden"))), 31, Call(Whitespace(Space), 32, StringTestRun32))));
  }

  const StringTestRun15: Run := Call(Identifier(Ascii("color")), 20, Call(Whitespace(Space), 21, Call(Punc(PuncKind.Equal), 22, StringTestRun22)))

  lemma StringTestFollows15()
    ensures Follows(StringInput, 15, StringTestRun15)
  {
    StringTestFollows22();
    StringTestAt15();
    StringTestAt20();
    StringTestAt21();
    assert Follows(StringInput, 21, Call(Punc(PuncKind.Equal), 22, StringTestRun22));
    assert Follows(StringInput, 20, Call(Whitespace(Space), 21, Call(Punc(PuncKind.Equal), 22, StringTestRun22)));
    assert Follows(StringInput, 15, Call(Identifier(Ascii("color")), 20, Call(Whitespace(Space), 21, Call(Punc(PuncKind.Equal), 22, StringTestRun22))));
  }

  const StringTestRun10: Run := Call(Whitespace(Space), 11, Call(Keyword(Set), 14, Call(Whitespace(Space), 15, StringTestRun15)))

  lemma StringTestFollows10()
    ensures Follows(StringInput, 10, StringTestRun10)
  {
    StringTestFollows15();
    StringTestAt10();
    StringTestAt11();
    StringTestAt14();
    assert Follows(StringInput, 14, Call(Whitespace(Space), 15, StringTestRun15));
    assert Follows(StringInput, 11, Call(Keyword(Set), 14, Call(Whitespace(Space), 15, StringTestRun15)));
    assert Follows(StringInput, 10, Call(Whitespace(Space), 11, Call(Keyword(Set), 14, Call(Whitespace(Space), 15, StringTestRun15))));
  }

  const StringTestRun0: Run := Call(Keyword(KeywordKind.Update), 6, Call(Whitespace(Space), 7, Call(Identifier(Ascii("dog")), 10, StringTestRun10)))

  lemma StringTestFollows0()
    ensures Follows(StringInput, 0, StringTestRun0)
  {
    StringTestFollows10();
    StringTestAt0();
    StringTestAt6();
    StringTestAt7();
    assert Follows(StringInput, 7, Call(Identifier(Ascii("dog")), 10, StringTestRun10));
    assert Follows(StringInput, 6, Call(Whitespace(Space), 7, Call(Identifier(Ascii("dog")), 10, StringTestRun10)));
    assert Follows(StringInput, 0, Call(Keyword(KeywordKind.Update), 6, Call(Whitespace(Space), 7, Call(Identifier(Ascii("dog")), 10, StringTestRun10))));
  }

  lemma StringTestKinds46()
    ensures RunKinds(StringTestRun46) == [Literal(String(Ascii("golden retriever"))), Punc(SemiColon)] + RunKinds(Finish)
  {
    assert RunKinds(Call(Punc(SemiColon), 65, Finish)) == [Punc(SemiColon)] + RunKinds(Finish);
    assert RunKinds(Call(Literal(String(Ascii("golden retriever"))), 64, Call(Punc(SemiColon), 65, Finish))) == [Literal(String(Ascii("golden retriever"))), Punc(SemiColon)] + RunKinds(Finish);
  }

  lemma StringTestKinds43()
    ensures RunKinds(StringTestRun43) == [Whitespace(Space), Punc(PuncKind.Equal), Whitespace(Space)] + RunKinds(StringTestRun46)
  {
    assert RunKinds(Call(Whitespace(Space), 46, StringTestRun46)) == [Whitespace(Space)] + RunKinds(StringTestRun46);
    assert RunKinds(Call(Punc(PuncKind.Equal), 45, Call(Whitespace(Space), 46, StringTestRun46))) == [Punc(PuncKind.Equal), Whitespace(Space)] + RunKinds(StringTestRun46);
    assert RunKinds(Call(Whitespace(Space), 44, Call(Punc(PuncKind.Equal), 45, Call(Whitespace(Space), 46, StringTestRun46)))) == [Whitespace(Space), Punc(PuncKind.Equal), Whitespace(Space)] + RunKinds(StringTestRun46);
  }

  lemma StringTestKinds32()
    ensures RunKinds(StringTestRun32) == [Keyword(Where), Whitespace(Space), Identifier(Ascii("breed"))] + RunKinds(StringTestRun43)
  {
    assert RunKinds(Call(Identifier(Ascii("breed")), 43, StringTestRun43)) == [Identifier(Ascii("breed"))] + RunKinds(StringTestRun43);
    assert RunKinds(Call(Whitespace(Space), 38, Call(Identifier(Ascii("breed")), 43, StringTestRun43))) == [Whitespace(Space), Identifier(Ascii("breed"))] + RunKinds(StringTestRun43);
    assert RunKinds(Call(Keyword(Where), 37, Call(Whitespace(Space), 38, Call(Identifier(Ascii("breed")), 43, StringTestRun43)))) == [Keyword(Where), Whitespace(Space), Identifier(Ascii("breed"))] + RunKinds(StringTestRun43);
  }

  lemma StringTestKinds22()
    ensures RunKinds(StringTestRun22) == [Whitespace(Space), Literal(String(Ascii("golden"))), Whitespace(Space)] + RunKinds(StringTestRun32)
  {
    assert RunKinds(Call(Whitespace(Space), 32, StringTestRun32)) == [Whitespace(Space)] + RunKinds(StringTestRun32);
    assert RunKinds(Call(Literal(String(Ascii("golden"))), 31, Call(Whitespace(Space), 32, StringTestRun32))) == [Literal(String(Ascii("golden"))), Whitespace(Space)] + RunKinds(StringTestRun32);
    assert RunKinds(Call(Whitespace(Space), 23, Call(Literal(String(Ascii("golden"))), 31, Call(Whitespace(Space), 32, StringTestRun32)))) == [Whitespace(Space), Literal(String(Ascii("golden"))), Whitespace(Space)] + RunKinds(StringTestRun32);
  }

  lemma StringTestKinds15()
    ensures RunKinds(StringTestRun15) == [Identifier(Ascii("color")), Whitespace(Space), Punc(PuncKind.Equal)] + RunKinds(StringTestRun22)
  {
    assert RunKinds(Call(Punc(PuncKind.Equal), 22, StringTestRun22)) == [Punc(PuncKind.Equal)] + RunKinds(StringTestRun22);
    assert RunKinds(Call(Whitespace(Space), 21, Call(Punc(PuncKind.Equal), 22, StringTestRun22))) == [Whitespace(Space), Punc(PuncKind.Equal)] + RunKinds(StringTestRun22);
    assert RunKinds(Call(Identifier(Ascii("color")), 20, Call(Whitespace(Space), 21, Call(Punc(PuncKind.Equal), 22, StringTestRun22)))) == [Identifier(Ascii("color")), Whitespace(Space), Punc(PuncKind.Equal)] + RunKinds(StringTestRun22);
  }

  lemma StringTestKinds10()
    ensures RunKinds(StringTestRun10) == [Whitespace(Space), Keyword(Set), Whitespace(Space)] + RunKinds(StringTestRun15)
  {
    assert RunKinds(Call(Whitespace(Space), 15, StringTestRun15)) == [Whitespace(Space)] + RunKinds(StringTestRun15);
    assert RunKinds(Call(Keyword(Set), 14, Call(Whitespace(Space), 15, StringTestRun15))) == [Keyword(Set), Whitespace(Space)] + RunKinds(StringTestRun15);
    assert RunKinds(Call(Whitespace(Space), 11, Call(Keyword(Set), 14, Call(Whitespace(Space), 15, StringTestRun15)))) == [Whitespace(Space), Keyword(Set), Whitespace(Space)] + RunKinds(StringTestRun15);
  }

  lemma StringTestKinds0()
    ensures RunKinds(StringTestRun0) == [Keyword(KeywordKind.Update), Whitespace(Space), Identifier(Ascii("dog"))] + RunKinds(StringTestRun10)
  {
    assert RunKinds(Call(Identifier(Ascii("dog")), 10, StringTestRun10)) == [Identifier(Ascii("dog"))] + RunKinds(StringTestRun10);
    assert RunKinds(Call(Whitespace(Space), 7, Call(Identifier(Ascii("dog")), 10, StringTestRun10))) == [Whitespace(Space), Identifier(Ascii("dog"))] + RunKinds(StringTestRun10);
    assert RunKinds(Call(Keyword(KeywordKind.Update), 6, Call(Whitespace(Space), 7, Call(Identifier(Ascii("dog")), 10, StringTestRun10)))) == [Keyword(KeywordKind.Update), Whitespace(Space), Identifier(Ascii("dog"))] + RunKinds(StringTestRun10);
  }

  lemma StringTestRunKinds()
    ensures RunKinds(StringTestRun0) == [Keyword(KeywordKind.Update), Whitespace(Space), Identifier(Ascii("dog")), Whitespace(Space), Keyword(Set), Whitespace(Space), Identifier(Ascii("color")), Whitespace(Space), Punc(PuncKind.Equal), Whitespace(Space), Literal(String(Ascii("golden"))), Whitespace(Space), Keyword(Where), Whitespace(Space), Identifier(Ascii("breed")), Whitespace(Space), Punc(PuncKind.Equal), Whitespace(Space), Literal(String(Ascii("golden retriever"))), Punc(SemiColon), Eof]
  {
    StringTestKinds46();
    StringTestKinds43();
    StringTestKinds32();
    StringTestKinds22();
    StringTestKinds15();
    StringTestKinds10();
    StringTestKinds0();
  }

  /** `test_string_literal`: a string literal is one token whose text is what lies between the quotes, spaces included. */
  lemma StringTest()
    ensures Tokenize(StringInput, 0).Done?
    ensures Kinds(Tokenize(StringInput, 0).value) == [Keyword(KeywordKind.Update), Whitespace(Space), Identifier(Ascii("dog")), Whitespace(Space), Keyword(Set), Whitespace(Space), Identifier(Ascii("color")), Whitespace(Space), Punc(PuncKind.Equal), Whitespace(Space), Literal(String(Ascii("golden"))), Whitespace(Space), Keyword(Where), Whitespace(Space), Identifier(Ascii("breed")), Whitespace(Space), Punc(PuncKind.Equal), Whitespace(Space), Literal(String(Ascii("golden retriever"))), Punc(SemiColon), Eof]
  {
    StringTestFollows0();
    FollowsTokenize(StringInput, 0, StringTestRun0);
    StringTestRunKinds();
  }


  // Cases the tests do not cover

  const DoubledInput: seq<Byte> := Ascii("'it''s'")

  /** A doubled quote is not an escape: `'it''s'` is two adjacent string
      literals, `it` and `s`. */
  lemma DoubledQuoteSplits()
    ensures Next(DoubledInput, 0) == Step(Done(Token(Literal(String(Ascii("it"))), 0)), 4)
    ensures Next(DoubledInput, 4) == Step(Done(Token(Literal(String(Ascii("s"))), 4)), 7)
  {
    assert DoubledInput[0..4] == [Quote] + Ascii("it") + [Quote];
    assert DoubledInput[4..7] == [Quote] + Ascii("s") + [Quote];
    NextQuoted(DoubledInput, 0, Ascii("it"));
    NextQuoted(DoubledInput, 4, Ascii("s"));
  }

  const EscapedInput: seq<Byte> := Ascii("'a\\'b'")

  /** A backslash keeps the next quote from closing the literal, and stays
      in the literal's text: nothing is unescaped. */
  lemma BackslashKept()
    ensures Next(EscapedInput, 0) == Step(Done(Token(Literal(String(Ascii("a\\'b"))), 0)), 6)
  {
    assert EscapedInput[1] == 97 && EscapedInput[2] == Backslash && EscapedInput[3] == Quote;
    assert EscapedInput[4] == 98 && EscapedInput[5] == Quote;
    assert EscapedInput[1..5] == Ascii("a\\'b");
    NextString(EscapedInput, 0, 5);
  }

  const UnterminatedInput: seq<Byte> := Ascii("'abc")

  /** An unterminated literal reads past the end of the buffer. */
  lemma UnterminatedHalts()
    ensures Next(UnterminatedInput, 0) == Step(Halted(IndexOutOfBounds(4)), 4)
  {
    assert UnterminatedInput[1] == 97 && UnterminatedInput[2] == 98 && UnterminatedInput[3] == 99;
    NextUnterminated(UnterminatedInput, 0);
  }

  lemma SelectLowerCase()
    ensures MatchKeyword(Ascii("select")) == Option.Some(KeywordKind.Select)
  {
    assert Ascii("select") == [115, 101, 108, 101, 99, 116];
    assert Text(LowerBytes(Ascii("select"))) == Spelling(KeywordKind.Select);
  }

  lemma UpperSelectLowers()
    ensures LowerBytes(Ascii("SELECT")) == Ascii("select")
  {
    var upper := Ascii("SELECT");
    assert upper[0] == 83 && upper[1] == 69 && upper[2] == 76 && upper[3] == 69 && upper[4] == 67 && upper[5] == 84;
    assert Ascii("select") == [115, 101, 108, 101, 99, 116];
  }

  lemma MixedSelectLowers()
    ensures LowerBytes(Ascii("SeLeCt")) == Ascii("select")
  {
    var mixed := Ascii("SeLeCt");
    assert mixed[0] == 83 && mixed[1] == 101 && mixed[2] == 76 && mixed[3] == 101 && mixed[4] == 67 && mixed[5] == 116;
    assert Ascii("select") == [115, 101, 108, 101, 99, 116];
  }

  /** Keywords are found whatever their case. */
  lemma SelectInAnyCase()
    ensures MatchKeyword(Ascii("SELECT")) == Option.Some(KeywordKind.Select)
    ensures MatchKeyword(Ascii("SeLeCt")) == Option.Some(KeywordKind.Select)
  {
    SelectLowerCase();
    UpperSelectLowers();
    MixedSelectLowers();
    LowerIdempotent(Ascii("SELECT"));
    MatchIgnoresCase(Ascii("SELECT"), Ascii("select"));
    MatchIgnoresCase(Ascii("SeLeCt"), Ascii("select"));
  }
}
