/**
 * The input/output pairs of tests/safeJsonParse.test.js, stated about the
 * specification `Sanitize` and the wrapper `ParseOutcome`.
 *
 * Each sanitizer case is evaluated one stretch of characters at a time: a
 * `...Spelling` lemma reads the characters off the literal, and a
 * `...Steps<a>To<b>` lemma runs the scan from character a to character b,
 * given the cursor at a, and states the output that stretch appends.  The
 * expected outputs are written as the concatenation of those stretches.
 *
 * The decoder is a parameter, so the parse cases take what the decoder
 * answers on the sanitized text as a premise and state what the wrapper
 * makes of it.
 */
module SanitizerExamples {

  import opened SafeJsonParse

  // ---------------------------------------------------------------------------
  // "{\"first\": 1; \"second\": 2;}"
  // ---------------------------------------------------------------------------

  lemma PropertySeparatorsSpelling1(text: string)
    requires text == "{\"first\": 1; " + "\"second\": 2;}"
    ensures |text| == 26
    ensures text[0] == '{' && text[1] == '\"' && text[2] == 'f' && text[3] == 'i' && text[4] == 'r' && text[5] == 's'
    ensures text[6] == 't' && text[7] == '\"' && text[8] == ':' && text[9] == ' ' && text[10] == '1' && text[11] == ';'
    ensures text[12] == ' '
  {
  }

  lemma PropertySeparatorsSpelling2(text: string)
    requires text == "{\"first\": 1; " + "\"second\": 2;}"
    ensures |text| == 26
    ensures text[13] == '\"' && text[14] == 's' && text[15] == 'e' && text[16] == 'c' && text[17] == 'o' && text[18] == 'n'
    ensures text[19] == 'd' && text[20] == '\"' && text[21] == ':' && text[22] == ' ' && text[23] == '2' && text[24] == ';'
    ensures text[25] == '}'
  {
  }

  lemma PropertySeparatorsSteps0To1(text: string)
    requires |text| == 26 && text[0] == '{'
    ensures Run(text, 1) == Scan("{", Cursor(false, false, Some('{')))
  {
    assert Run(text, 1) == Scan("{", Cursor(false, false, Some('{')));
  }

  lemma PropertySeparatorsSteps1To8(text: string)
    requires |text| == 26 && text[1] == '\"' && text[2] == 'f' && text[3] == 'i' && text[4] == 'r'
    requires text[5] == 's' && text[6] == 't' && text[7] == '\"'
    requires Run(text, 1).cursor == Cursor(false, false, Some('{'))
    ensures Run(text, 8) == Scan(Run(text, 1).sanitized + "\"first\"", Cursor(false, false, Some('"')))
  {
    assert Run(text, 2) == Scan(Run(text, 1).sanitized + "\"", Cursor(true, false, Some('{')));
    assert Run(text, 3) == Scan(Run(text, 2).sanitized + "f", Cursor(true, false, Some('{')));
    assert Run(text, 4) == Scan(Run(text, 3).sanitized + "i", Cursor(true, false, Some('{')));
    assert Run(text, 5) == Scan(Run(text, 4).sanitized + "r", Cursor(true, false, Some('{')));
    assert Run(text, 6) == Scan(Run(text, 5).sanitized + "s", Cursor(true, false, Some('{')));
    assert Run(text, 7) == Scan(Run(text, 6).sanitized + "t", Cursor(true, false, Some('{')));
    assert Run(text, 8) == Scan(Run(text, 7).sanitized + "\"", Cursor(false, false, Some('"')));
  }

  lemma PropertySeparatorsSteps8To10(text: string)
    requires |text| == 26 && text[8] == ':' && text[9] == ' '
    requires Run(text, 8).cursor == Cursor(false, false, Some('"'))
    ensures Run(text, 10) == Scan(Run(text, 8).sanitized + ": ", Cursor(false, false, Some(':')))
  {
    assert Run(text, 9) == Scan(Run(text, 8).sanitized + ":", Cursor(false, false, Some(':')));
    assert Run(text, 10) == Scan(Run(text, 9).sanitized + " ", Cursor(false, false, Some(':')));
  }

  lemma PropertySeparatorsSteps10To11(text: string)
    requires |text| == 26 && text[10] == '1'
    requires Run(text, 10).cursor == Cursor(false, false, Some(':'))
    ensures Run(text, 11) == Scan(Run(text, 10).sanitized + "1", Cursor(false, false, Some('1')))
  {
    assert Run(text, 11) == Scan(Run(text, 10).sanitized + "1", Cursor(false, false, Some('1')));
  }

  lemma PropertySeparatorsSteps11To13(text: string)
    requires |text| == 26 && text[11] == ';' && text[12] == ' ' && text[13] == '\"'
    requires Run(text, 11).cursor == Cursor(false, false, Some('1'))
    ensures Run(text, 13) == Scan(Run(text, 11).sanitized + ", ", Cursor(false, false, Some(',')))
  {
    assert NextNonWhitespace(text, 13) == Some(13);
    assert NextNonWhitespace(text, 12) == Some(13);
    assert Run(text, 12) == Scan(Run(text, 11).sanitized + ",", Cursor(false, false, Some(',')));
    assert Run(text, 13) == Scan(Run(text, 12).sanitized + " ", Cursor(false, false, Some(',')));
  }

  lemma PropertySeparatorsSteps13To21(text: string)
    requires |text| == 26 && text[13] == '\"' && text[14] == 's' && text[15] == 'e' && text[16] == 'c'
    requires text[17] == 'o' && text[18] == 'n' && text[19] == 'd' && text[20] == '\"'
    requires Run(text, 13).cursor == Cursor(false, false, Some(','))
    ensures Run(text, 21) == Scan(Run(text, 13).sanitized + "\"second\"", Cursor(false, false, Some('"')))
  {
    assert Run(text, 14) == Scan(Run(text, 13).sanitized + "\"", Cursor(true, false, Some(',')));
    assert Run(text, 15) == Scan(Run(text, 14).sanitized + "s", Cursor(true, false, Some(',')));
    assert Run(text, 16) == Scan(Run(text, 15).sanitized + "e", Cursor(true, false, Some(',')));
    assert Run(text, 17) == Scan(Run(text, 16).sanitized + "c", Cursor(true, false, Some(',')));
    assert Run(text, 18) == Scan(Run(text, 17).sanitized + "o", Cursor(true, false, Some(',')));
    assert Run(text, 19) == Scan(Run(text, 18).sanitized + "n", Cursor(true, false, Some(',')));
    assert Run(text, 20) == Scan(Run(text, 19).sanitized + "d", Cursor(true, false, Some(',')));
    assert Run(text, 21) == Scan(Run(text, 20).sanitized + "\"", Cursor(false, false, Some('"')));
  }

  lemma PropertySeparatorsSteps21To23(text: string)
    requires |text| == 26 && text[21] == ':' && text[22] == ' '
    requires Run(text, 21).cursor == Cursor(false, false, Some('"'))
    ensures Run(text, 23) == Scan(Run(text, 21).sanitized + ": ", Cursor(false, false, Some(':')))
  {
    assert Run(text, 22) == Scan(Run(text, 21).sanitized + ":", Cursor(false, false, Some(':')));
    assert Run(text, 23) == Scan(Run(text, 22).sanitized + " ", Cursor(false, false, Some(':')));
  }

  lemma PropertySeparatorsSteps23To24(text: string)
    requires |text| == 26 && text[23] == '2'
    requires Run(text, 23).cursor == Cursor(false, false, Some(':'))
    ensures Run(text, 24) == Scan(Run(text, 23).sanitized + "2", Cursor(false, false, Some('2')))
  {
    assert Run(text, 24) == Scan(Run(text, 23).sanitized + "2", Cursor(false, false, Some('2')));
  }

  lemma PropertySeparatorsSteps24To26(text: string)
    requires |text| == 26 && text[24] == ';' && text[25] == '}'
    requires Run(text, 24).cursor == Cursor(false, false, Some('2'))
    ensures Run(text, 26) == Scan(Run(text, 24).sanitized + "}", Cursor(false, false, Some('}')))
  {
    assert NextNonWhitespace(text, 25) == Some(25);
    assert Run(text, 25) == Scan(Run(text, 24).sanitized + "", Cursor(false, false, Some('2')));
    assert Run(text, 26) == Scan(Run(text, 25).sanitized + "}", Cursor(false, false, Some('}')));
  }

  /** tests/safeJsonParse.test.js:5-10: a semicolon between two members becomes a comma; the one before the closing brace is dropped. */
  lemma PropertySeparators(text: string)
    requires text == "{\"first\": 1; " + "\"second\": 2;}"
    ensures Sanitize(text) == "{" + "\"first\"" + ": " + "1" + ", " + "\"second\"" + ": " + "2" + "}"
  {
    PropertySeparatorsSpelling1(text);
    PropertySeparatorsSpelling2(text);
    PropertySeparatorsSteps0To1(text);
    PropertySeparatorsSteps1To8(text);
    PropertySeparatorsSteps8To10(text);
    PropertySeparatorsSteps10To11(text);
    PropertySeparatorsSteps11To13(text);
    PropertySeparatorsSteps13To21(text);
    PropertySeparatorsSteps21To23(text);
    PropertySeparatorsSteps23To24(text);
    PropertySeparatorsSteps24To26(text);
  }

  // ---------------------------------------------------------------------------
  // "{\"note\": \"Line one; line two\"; \"count\": 2; }"
  // ---------------------------------------------------------------------------

  lemma SemicolonInsideStringSpelling1(text: string)
    requires text == "{\"note\": " + "\"Line one;" + " line two\"; " + "\"count\": 2; }"
    ensures |text| == 44
    ensures text[0] == '{' && text[1] == '\"' && text[2] == 'n' && text[3] == 'o' && text[4] == 't' && text[5] == 'e'
    ensures text[6] == '\"' && text[7] == ':' && text[8] == ' '
  {
  }

  lemma SemicolonInsideStringSpelling2(text: string)
    requires text == "{\"note\": " + "\"Line one;" + " line two\"; " + "\"count\": 2; }"
    ensures |text| == 44
    ensures text[9] == '\"' && text[10] == 'L' && text[11] == 'i' && text[12] == 'n' && text[13] == 'e' && text[14] == ' '
    ensures text[15] == 'o' && text[16] == 'n' && text[17] == 'e' && text[18] == ';'
  {
  }

  lemma SemicolonInsideStringSpelling3(text: string)
    requires text == "{\"note\": " + "\"Line one;" + " line two\"; " + "\"count\": 2; }"
    ensures |text| == 44
    ensures text[19] == ' ' && text[20] == 'l' && text[21] == 'i' && text[22] == 'n' && text[23] == 'e' && text[24] == ' '
    ensures text[25] == 't' && text[26] == 'w' && text[27] == 'o' && text[28] == '\"' && text[29] == ';' && text[30] == ' '
  {
  }

  lemma SemicolonInsideStringSpelling4(text: string)
    requires text == "{\"note\": " + "\"Line one;" + " line two\"; " + "\"count\": 2; }"
    ensures |text| == 44
    ensures text[31] == '\"' && text[32] == 'c' && text[33] == 'o' && text[34] == 'u' && text[35] == 'n' && text[36] == 't'
    ensures text[37] == '\"' && text[38] == ':' && text[39] == ' ' && text[40] == '2' && text[41] == ';' && text[42] == ' '
    ensures text[43] == '}'
  {
  }

  lemma SemicolonInsideStringSteps0To1(text: string)
    requires |text| == 44 && text[0] == '{'
    ensures Run(text, 1) == Scan("{", Cursor(false, false, Some('{')))
  {
    assert Run(text, 1) == Scan("{", Cursor(false, false, Some('{')));
  }

  lemma SemicolonInsideStringSteps1To7(text: string)
    requires |text| == 44 && text[1] == '\"' && text[2] == 'n' && text[3] == 'o' && text[4] == 't'
    requires text[5] == 'e' && text[6] == '\"'
    requires Run(text, 1).cursor == Cursor(false, false, Some('{'))
    ensures Run(text, 7) == Scan(Run(text, 1).sanitized + "\"note\"", Cursor(false, false, Some('"')))
  {
    assert Run(text, 2) == Scan(Run(text, 1).sanitized + "\"", Cursor(true, false, Some('{')));
    assert Run(text, 3) == Scan(Run(text, 2).sanitized + "n", Cursor(true, false, Some('{')));
    assert Run(text, 4) == Scan(Run(text, 3).sanitized + "o", Cursor(true, false, Some('{')));
    assert Run(text, 5) == Scan(Run(text, 4).sanitized + "t", Cursor(true, false, Some('{')));
    assert Run(text, 6) == Scan(Run(text, 5).sanitized + "e", Cursor(true, false, Some('{')));
    assert Run(text, 7) == Scan(Run(text, 6).sanitized + "\"", Cursor(false, false, Some('"')));
  }

  lemma SemicolonInsideStringSteps7To9(text: string)
    requires |text| == 44 && text[7] == ':' && text[8] == ' '
    requires Run(text, 7).cursor == Cursor(false, false, Some('"'))
    ensures Run(text, 9) == Scan(Run(text, 7).sanitized + ": ", Cursor(false, false, Some(':')))
  {
    assert Run(text, 8) == Scan(Run(text, 7).sanitized + ":", Cursor(false, false, Some(':')));
    assert Run(text, 9) == Scan(Run(text, 8).sanitized + " ", Cursor(false, false, Some(':')));
  }

  lemma SemicolonInsideStringSteps9To14(text: string)
    requires |text| == 44 && text[9] == '\"' && text[10] == 'L' && text[11] == 'i' && text[12] == 'n'
    requires text[13] == 'e'
    requires Run(text, 9).cursor == Cursor(false, false, Some(':'))
    ensures Run(text, 14) == Scan(Run(text, 9).sanitized + "\"Line", Cursor(true, false, Some(':')))
  {
    assert Run(text, 10) == Scan(Run(text, 9).sanitized + "\"", Cursor(true, false, Some(':')));
    assert Run(text, 11) == Scan(Run(text, 10).sanitized + "L", Cursor(true, false, Some(':')));
    assert Run(text, 12) == Scan(Run(text, 11).sanitized + "i", Cursor(true, false, Some(':')));
    assert Run(text, 13) == Scan(Run(text, 12).sanitized + "n", Cursor(true, false, Some(':')));
    assert Run(text, 14) == Scan(Run(text, 13).sanitized + "e", Cursor(true, false, Some(':')));
  }

  lemma SemicolonInsideStringSteps14To19(text: string)
    requires |text| == 44 && text[14] == ' ' && text[15] == 'o' && text[16] == 'n' && text[17] == 'e'
    requires text[18] == ';' && text[19] == ' ' && text[20] == 'l'
    requires Run(text, 14).cursor == Cursor(true, false, Some(':'))
    ensures Run(text, 19) == Scan(Run(text, 14).sanitized + " one;", Cursor(true, false, Some(':')))
  {
    assert Run(text, 15) == Scan(Run(text, 14).sanitized + " ", Cursor(true, false, Some(':')));
    assert Run(text, 16) == Scan(Run(text, 15).sanitized + "o", Cursor(true, false, Some(':')));
    assert Run(text, 17) == Scan(Run(text, 16).sanitized + "n", Cursor(true, false, Some(':')));
    assert Run(text, 18) == Scan(Run(text, 17).sanitized + "e", Cursor(true, false, Some(':')));
    assert Run(text, 19) == Scan(Run(text, 18).sanitized + ";", Cursor(true, false, Some(':')));
  }

  lemma SemicolonInsideStringSteps19To24(text: string)
    requires |text| == 44 && text[19] == ' ' && text[20] == 'l' && text[21] == 'i' && text[22] == 'n'
    requires text[23] == 'e'
    requires Run(text, 19).cursor == Cursor(true, false, Some(':'))
    ensures Run(text, 24) == Scan(Run(text, 19).sanitized + " line", Cursor(true, false, Some(':')))
  {
    assert Run(text, 20) == Scan(Run(text, 19).sanitized + " ", Cursor(true, false, Some(':')));
    assert Run(text, 21) == Scan(Run(text, 20).sanitized + "l", Cursor(true, false, Some(':')));
    assert Run(text, 22) == Scan(Run(text, 21).sanitized + "i", Cursor(true, false, Some(':')));
    assert Run(text, 23) == Scan(Run(text, 22).sanitized + "n", Cursor(true, false, Some(':')));
    assert Run(text, 24) == Scan(Run(text, 23).sanitized + "e", Cursor(true, false, Some(':')));
  }

  lemma SemicolonInsideStringSteps24To29(text: string)
    requires |text| == 44 && text[24] == ' ' && text[25] == 't' && text[26] == 'w' && text[27] == 'o'
    requires text[28] == '\"'
    requires Run(text, 24).cursor == Cursor(true, false, Some(':'))
    ensures Run(text, 29) == Scan(Run(text, 24).sanitized + " two\"", Cursor(false, false, Some('"')))
  {
    assert Run(text, 25) == Scan(Run(text, 24).sanitized + " ", Cursor(true, false, Some(':')));
    assert Run(text, 26) == Scan(Run(text, 25).sanitized + "t", Cursor(true, false, Some(':')));
    assert Run(text, 27) == Scan(Run(text, 26).sanitized + "w", Cursor(true, false, Some(':')));
    assert Run(text, 28) == Scan(Run(text, 27).sanitized + "o", Cursor(true, false, Some(':')));
    assert Run(text, 29) == Scan(Run(text, 28).sanitized + "\"", Cursor(false, false, Some('"')));
  }

  lemma SemicolonInsideStringSteps29To31(text: string)
    requires |text| == 44 && text[29] == ';' && text[30] == ' ' && text[31] == '\"'
    requires Run(text, 29).cursor == Cursor(false, false, Some('"'))
    ensures Run(text, 31) == Scan(Run(text, 29).sanitized + ", ", Cursor(false, false, Some(',')))
  {
    assert NextNonWhitespace(text, 31) == Some(31);
    assert NextNonWhitespace(text, 30) == Some(31);
    assert Run(text, 30) == Scan(Run(text, 29).sanitized + ",", Cursor(false, false, Some(',')));
    assert Run(text, 31) == Scan(Run(text, 30).sanitized + " ", Cursor(false, false, Some(',')));
  }

  lemma SemicolonInsideStringSteps31To38(text: string)
    requires |text| == 44 && text[31] == '\"' && text[32] == 'c' && text[33] == 'o' && text[34] == 'u'
    requires text[35] == 'n' && text[36] == 't' && text[37] == '\"'
    requires Run(text, 31).cursor == Cursor(false, false, Some(','))
    ensures Run(text, 38) == Scan(Run(text, 31).sanitized + "\"count\"", Cursor(false, false, Some('"')))
  {
    assert Run(text, 32) == Scan(Run(text, 31).sanitized + "\"", Cursor(true, false, Some(',')));
    assert Run(text, 33) == Scan(Run(text, 32).sanitized + "c", Cursor(true, false, Some(',')));
    assert Run(text, 34) == Scan(Run(text, 33).sanitized + "o", Cursor(true, false, Some(',')));
    assert Run(text, 35) == Scan(Run(text, 34).sanitized + "u", Cursor(true, false, Some(',')));
    assert Run(text, 36) == Scan(Run(text, 35).sanitized + "n", Cursor(true, false, Some(',')));
    assert Run(text, 37) == Scan(Run(text, 36).sanitized + "t", Cursor(true, false, Some(',')));
    assert Run(text, 38) == Scan(Run(text, 37).sanitized + "\"", Cursor(false, false, Some('"')));
  }

  lemma SemicolonInsideStringSteps38To40(text: string)
    requires |text| == 44 && text[38] == ':' && text[39] == ' '
    requires Run(text, 38).cursor == Cursor(false, false, Some('"'))
    ensures Run(text, 40) == Scan(Run(text, 38).sanitized + ": ", Cursor(false, false, Some(':')))
  {
    assert Run(text, 39) == Scan(Run(text, 38).sanitized + ":", Cursor(false, false, Some(':')));
    assert Run(text, 40) == Scan(Run(text, 39).sanitized + " ", Cursor(false, false, Some(':')));
  }

  lemma SemicolonInsideStringSteps40To41(text: string)
    requires |text| == 44 && text[40] == '2'
    requires Run(text, 40).cursor == Cursor(false, false, Some(':'))
    ensures Run(text, 41) == Scan(Run(text, 40).sanitized + "2", Cursor(false, false, Some('2')))
  {
    assert Run(text, 41) == Scan(Run(text, 40).sanitized + "2", Cursor(false, false, Some('2')));
  }

  lemma SemicolonInsideStringSteps41To44(text: string)
    requires |text| == 44 && text[41] == ';' && text[42] == ' ' && text[43] == '}'
    requires Run(text, 41).cursor == Cursor(false, false, Some('2'))
    ensures Run(text, 44) == Scan(Run(text, 41).sanitized + " }", Cursor(false, false, Some('}')))
  {
    assert NextNonWhitespace(text, 43) == Some(43);
    assert NextNonWhitespace(text, 42) == Some(43);
    assert Run(text, 42) == Scan(Run(text, 41).sanitized + "", Cursor(false, false, Some('2')));
    assert Run(text, 43) == Scan(Run(text, 42).sanitized + " ", Cursor(false, false, Some('2')));
    assert Run(text, 44) == Scan(Run(text, 43).sanitized + "}", Cursor(false, false, Some('}')));
  }

  /** tests/safeJsonParse.test.js:12-17: the semicolon inside the string literal is copied; the two outside it become a comma and nothing. */
  lemma SemicolonInsideString(text: string)
    requires text == "{\"note\": " + "\"Line one;" + " line two\"; " + "\"count\": 2; }"
    ensures Sanitize(text) == "{" + "\"note\"" + ": " + "\"Line" + " one;" + " line" + " two\"" + ", " + "\"count\"" + ": " + "2" + " }"
  {
    SemicolonInsideStringSpelling1(text);
    SemicolonInsideStringSpelling2(text);
    SemicolonInsideStringSpelling3(text);
    SemicolonInsideStringSpelling4(text);
    SemicolonInsideStringSteps0To1(text);
    SemicolonInsideStringSteps1To7(text);
    SemicolonInsideStringSteps7To9(text);
    SemicolonInsideStringSteps9To14(text);
    SemicolonInsideStringSteps14To19(text);
    SemicolonInsideStringSteps19To24(text);
    SemicolonInsideStringSteps24To29(text);
    SemicolonInsideStringSteps29To31(text);
    SemicolonInsideStringSteps31To38(text);
    SemicolonInsideStringSteps38To40(text);
    SemicolonInsideStringSteps40To41(text);
    SemicolonInsideStringSteps41To44(text);
  }

  // ---------------------------------------------------------------------------
  // "{\"flag\": true; \"values\": [1; 2; 3]; \"title\": \"Hello\";}"
  // ---------------------------------------------------------------------------

  lemma MixedSeparatorsSpelling1(text: string)
    requires text == "{\"flag\": true; " + "\"values\": " + "[1; 2; 3]; " + "\"title\": \"Hello\";}"
    ensures |text| == 54
    ensures text[0] == '{' && text[1] == '\"' && text[2] == 'f' && text[3] == 'l' && text[4] == 'a' && text[5] == 'g'
    ensures text[6] == '\"' && text[7] == ':' && text[8] == ' ' && text[9] == 't' && text[10] == 'r' && text[11] == 'u'
    ensures text[12] == 'e' && text[13] == ';' && text[14] == ' '
  {
  }

  lemma MixedSeparatorsSpelling2(text: string)
    requires text == "{\"flag\": true; " + "\"values\": " + "[1; 2; 3]; " + "\"title\": \"Hello\";}"
    ensures |text| == 54
    ensures text[15] == '\"' && text[16] == 'v' && text[17] == 'a' && text[18] == 'l' && text[19] == 'u' && text[20] == 'e'
    ensures text[21] == 's' && text[22] == '\"' && text[23] == ':' && text[24] == ' '
  {
  }

  lemma MixedSeparatorsSpelling3(text: string)
    requires text == "{\"flag\": true; " + "\"values\": " + "[1; 2; 3]; " + "\"title\": \"Hello\";}"
    ensures |text| == 54
    ensures text[25] == '[' && text[26] == '1' && text[27] == ';' && text[28] == ' ' && text[29] == '2' && text[30] == ';'
    ensures text[31] == ' ' && text[32] == '3' && text[33] == ']' && text[34] == ';' && text[35] == ' '
  {
  }

  lemma MixedSeparatorsSpelling4(text: string)
    requires text == "{\"flag\": true; " + "\"values\": " + "[1; 2; 3]; " + "\"title\": \"Hello\";}"
    ensures |text| == 54
    ensures text[36] == '\"' && text[37] == 't' && text[38] == 'i' && text[39] == 't' && text[40] == 'l' && text[41] == 'e'
    ensures text[42] == '\"' && text[43] == ':' && text[44] == ' ' && text[45] == '\"' && text[46] == 'H' && text[47] == 'e'
    ensures text[48] == 'l' && text[49] == 'l' && text[50] == 'o' && text[51] == '\"' && text[52] == ';' && text[53] == '}'
  {
  }

  lemma MixedSeparatorsSteps0To1(text: string)
    requires |text| == 54 && text[0] == '{'
    ensures Run(text, 1) == Scan("{", Cursor(false, false, Some('{')))
  {
    assert Run(text, 1) == Scan("{", Cursor(false, false, Some('{')));
  }

  lemma MixedSeparatorsSteps1To7(text: string)
    requires |text| == 54 && text[1] == '\"' && text[2] == 'f' && text[3] == 'l' && text[4] == 'a'
    requires text[5] == 'g' && text[6] == '\"'
    requires Run(text, 1).cursor == Cursor(false, false, Some('{'))
    ensures Run(text, 7) == Scan(Run(text, 1).sanitized + "\"flag\"", Cursor(false, false, Some('"')))
  {
    assert Run(text, 2) == Scan(Run(text, 1).sanitized + "\"", Cursor(true, false, Some('{')));
    assert Run(text, 3) == Scan(Run(text, 2).sanitized + "f", Cursor(true, false, Some('{')));
    assert Run(text, 4) == Scan(Run(text, 3).sanitized + "l", Cursor(true, false, Some('{')));
    assert Run(text, 5) == Scan(Run(text, 4).sanitized + "a", Cursor(true, false, Some('{')));
    assert Run(text, 6) == Scan(Run(text, 5).sanitized + "g", Cursor(true, false, Some('{')));
    assert Run(text, 7) == Scan(Run(text, 6).sanitized + "\"", Cursor(false, false, Some('"')));
  }

  lemma MixedSeparatorsSteps7To9(text: string)
    requires |text| == 54 && text[7] == ':' && text[8] == ' '
    requires Run(text, 7).cursor == Cursor(false, false, Some('"'))
    ensures Run(text, 9) == Scan(Run(text, 7).sanitized + ": ", Cursor(false, false, Some(':')))
  {
    assert Run(text, 8) == Scan(Run(text, 7).sanitized + ":", Cursor(false, false, Some(':')));
    assert Run(text, 9) == Scan(Run(text, 8).sanitized + " ", Cursor(false, false, Some(':')));
  }

  lemma MixedSeparatorsSteps9To13(text: string)
    requires |text| == 54 && text[9] == 't' && text[10] == 'r' && text[11] == 'u' && text[12] == 'e'
    requires Run(text, 9).cursor == Cursor(false, false, Some(':'))
    ensures Run(text, 13) == Scan(Run(text, 9).sanitized + "true", Cursor(false, false, Some('e')))
  {
    assert Run(text, 10) == Scan(Run(text, 9).sanitized + "t", Cursor(false, false, Some('t')));
    assert Run(text, 11) == Scan(Run(text, 10).sanitized + "r", Cursor(false, false, Some('r')));
    assert Run(text, 12) == Scan(Run(text, 11).sanitized + "u", Cursor(false, false, Some('u')));
    assert Run(text, 13) == Scan(Run(text, 12).sanitized + "e", Cursor(false, false, Some('e')));
  }

  lemma MixedSeparatorsSteps13To15(text: string)
    requires |text| == 54 && text[13] == ';' && text[14] == ' ' && text[15] == '\"'
    requires Run(text, 13).cursor == Cursor(false, false, Some('e'))
    ensures Run(text, 15) == Scan(Run(text, 13).sanitized + ", ", Cursor(false, false, Some(',')))
  {
    assert NextNonWhitespace(text, 15) == Some(15);
    assert NextNonWhitespace(text, 14) == Some(15);
    assert Run(text, 14) == Scan(Run(text, 13).sanitized + ",", Cursor(false, false, Some(',')));
    assert Run(text, 15) == Scan(Run(text, 14).sanitized + " ", Cursor(false, false, Some(',')));
  }

  lemma MixedSeparatorsSteps15To23(text: string)
    requires |text| == 54 && text[15] == '\"' && text[16] == 'v' && text[17] == 'a' && text[18] == 'l'
    requires text[19] == 'u' && text[20] == 'e' && text[21] == 's' && text[22] == '\"'
    requires Run(text, 15).cursor == Cursor(false, false, Some(','))
    ensures Run(text, 23) == Scan(Run(text, 15).sanitized + "\"values\"", Cursor(false, false, Some('"')))
  {
    assert Run(text, 16) == Scan(Run(text, 15).sanitized + "\"", Cursor(true, false, Some(',')));
    assert Run(text, 17) == Scan(Run(text, 16).sanitized + "v", Cursor(true, false, Some(',')));
    assert Run(text, 18) == Scan(Run(text, 17).sanitized + "a", Cursor(true, false, Some(',')));
    assert Run(text, 19) == Scan(Run(text, 18).sanitized + "l", Cursor(true, false, Some(',')));
    assert Run(text, 20) == Scan(Run(text, 19).sanitized + "u", Cursor(true, false, Some(',')));
    assert Run(text, 21) == Scan(Run(text, 20).sanitized + "e", Cursor(true, false, Some(',')));
    assert Run(text, 22) == Scan(Run(text, 21).sanitized + "s", Cursor(true, false, Some(',')));
    assert Run(text, 23) == Scan(Run(text, 22).sanitized + "\"", Cursor(false, false, Some('"')));
  }

  lemma MixedSeparatorsSteps23To26(text: string)
    requires |text| == 54 && text[23] == ':' && text[24] == ' ' && text[25] == '['
    requires Run(text, 23).cursor == Cursor(false, false, Some('"'))
    ensures Run(text, 26) == Scan(Run(text, 23).sanitized + ": [", Cursor(false, false, Some('[')))
  {
    assert Run(text, 24) == Scan(Run(text, 23).sanitized + ":", Cursor(false, false, Some(':')));
    assert Run(text, 25) == Scan(Run(text, 24).sanitized + " ", Cursor(false, false, Some(':')));
    assert Run(text, 26) == Scan(Run(text, 25).sanitized + "[", Cursor(false, false, Some('[')));
  }

  lemma MixedSeparatorsSteps26To28(text: string)
    requires |text| == 54 && text[26] == '1' && text[27] == ';' && text[28] == ' ' && text[29] == '2'
    requires Run(text, 26).cursor == Cursor(false, false, Some('['))
    ensures Run(text, 28) == Scan(Run(text, 26).sanitized + "1,", Cursor(false, false, Some(',')))
  {
    assert Run(text, 27) == Scan(Run(text, 26).sanitized + "1", Cursor(false, false, Some('1')));
    assert NextNonWhitespace(text, 29) == Some(29);
    assert NextNonWhitespace(text, 28) == Some(29);
    assert Run(text, 28) == Scan(Run(text, 27).sanitized + ",", Cursor(false, false, Some(',')));
  }

  lemma MixedSeparatorsSteps28To30(text: string)
    requires |text| == 54 && text[28] == ' ' && text[29] == '2'
    requires Run(text, 28).cursor == Cursor(false, false, Some(','))
    ensures Run(text, 30) == Scan(Run(text, 28).sanitized + " 2", Cursor(false, false, Some('2')))
  {
    assert Run(text, 29) == Scan(Run(text, 28).sanitized + " ", Cursor(false, false, Some(',')));
    assert Run(text, 30) == Scan(Run(text, 29).sanitized + "2", Cursor(false, false, Some('2')));
  }

  lemma MixedSeparatorsSteps30To32(text: string)
    requires |text| == 54 && text[30] == ';' && text[31] == ' ' && text[32] == '3'
    requires Run(text, 30).cursor == Cursor(false, false, Some('2'))
    ensures Run(text, 32) == Scan(Run(text, 30).sanitized + ", ", Cursor(false, false, Some(',')))
  {
    assert NextNonWhitespace(text, 32) == Some(32);
    assert NextNonWhitespace(text, 31) == Some(32);
    assert Run(text, 31) == Scan(Run(text, 30).sanitized + ",", Cursor(false, false, Some(',')));
    assert Run(text, 32) == Scan(Run(text, 31).sanitized + " ", Cursor(false, false, Some(',')));
  }

  lemma MixedSeparatorsSteps32To34(text: string)
    requires |text| == 54 && text[32] == '3' && text[33] == ']'
    requires Run(text, 32).cursor == Cursor(false, false, Some(','))
    ensures Run(text, 34) == Scan(Run(text, 32).sanitized + "3]", Cursor(false, false, Some(']')))
  {
    assert Run(text, 33) == Scan(Run(text, 32).sanitized + "3", Cursor(false, false, Some('3')));
    assert Run(text, 34) == Scan(Run(text, 33).sanitized + "]", Cursor(false, false, Some(']')));
  }

  lemma MixedSeparatorsSteps34To36(text: string)
    requires |text| == 54 && text[34] == ';' && text[35] == ' ' && text[36] == '\"'
    requires Run(text, 34).cursor == Cursor(false, false, Some(']'))
    ensures Run(text, 36) == Scan(Run(text, 34).sanitized + ", ", Cursor(false, false, Some(',')))
  {
    assert NextNonWhitespace(text, 36) == Some(36);
    assert NextNonWhitespace(text, 35) == Some(36);
    assert Run(text, 35) == Scan(Run(text, 34).sanitized + ",", Cursor(false, false, Some(',')));
    assert Run(text, 36) == Scan(Run(text, 35).sanitized + " ", Cursor(false, false, Some(',')));
  }

  lemma MixedSeparatorsSteps36To43(text: string)
    requires |text| == 54 && text[36] == '\"' && text[37] == 't' && text[38] == 'i' && text[39] == 't'
    requires text[40] == 'l' && text[41] == 'e' && text[42] == '\"'
    requires Run(text, 36).cursor == Cursor(false, false, Some(','))
    ensures Run(text, 43) == Scan(Run(text, 36).sanitized + "\"title\"", Cursor(false, false, Some('"')))
  {
    assert Run(text, 37) == Scan(Run(text, 36).sanitized + "\"", Cursor(true, false, Some(',')));
    assert Run(text, 38) == Scan(Run(text, 37).sanitized + "t", Cursor(true, false, Some(',')));
    assert Run(text, 39) == Scan(Run(text, 38).sanitized + "i", Cursor(true, false, Some(',')));
    assert Run(text, 40) == Scan(Run(text, 39).sanitized + "t", Cursor(true, false, Some(',')));
    assert Run(text, 41) == Scan(Run(text, 40).sanitized + "l", Cursor(true, false, Some(',')));
    assert Run(text, 42) == Scan(Run(text, 41).sanitized + "e", Cursor(true, false, Some(',')));
    assert Run(text, 43) == Scan(Run(text, 42).sanitized + "\"", Cursor(false, false, Some('"')));
  }

  lemma MixedSeparatorsSteps43To45(text: string)
    requires |text| == 54 && text[43] == ':' && text[44] == ' '
    requires Run(text, 43).cursor == Cursor(false, false, Some('"'))
    ensures Run(text, 45) == Scan(Run(text, 43).sanitized + ": ", Cursor(false, false, Some(':')))
  {
    assert Run(text, 44) == Scan(Run(text, 43).sanitized + ":", Cursor(false, false, Some(':')));
    assert Run(text, 45) == Scan(Run(text, 44).sanitized + " ", Cursor(false, false, Some(':')));
  }

  lemma MixedSeparatorsSteps45To52(text: string)
    requires |text| == 54 && text[45] == '\"' && text[46] == 'H' && text[47] == 'e' && text[48] == 'l'
    requires text[49] == 'l' && text[50] == 'o' && text[51] == '\"'
    requires Run(text, 45).cursor == Cursor(false, false, Some(':'))
    ensures Run(text, 52) == Scan(Run(text, 45).sanitized + "\"Hello\"", Cursor(false, false, Some('"')))
  {
    assert Run(text, 46) == Scan(Run(text, 45).sanitized + "\"", Cursor(true, false, Some(':')));
    assert Run(text, 47) == Scan(Run(text, 46).sanitized + "H", Cursor(true, false, Some(':')));
    assert Run(text, 48) == Scan(Run(text, 47).sanitized + "e", Cursor(true, false, Some(':')));
    assert Run(text, 49) == Scan(Run(text, 48).sanitized + "l", Cursor(true, false, Some(':')));
    assert Run(text, 50) == Scan(Run(text, 49).sanitized + "l", Cursor(true, false, Some(':')));
    assert Run(text, 51) == Scan(Run(text, 50).sanitized + "o", Cursor(true, false, Some(':')));
    assert Run(text, 52) == Scan(Run(text, 51).sanitized + "\"", Cursor(false, false, Some('"')));
  }

  lemma MixedSeparatorsSteps52To54(text: string)
    requires |text| == 54 && text[52] == ';' && text[53] == '}'
    requires Run(text, 52).cursor == Cursor(false, false, Some('"'))
    ensures Run(text, 54) == Scan(Run(text, 52).sanitized + "}", Cursor(false, false, Some('}')))
  {
    assert NextNonWhitespace(text, 53) == Some(53);
    assert Run(text, 53) == Scan(Run(text, 52).sanitized + "", Cursor(false, false, Some('"')));
    assert Run(text, 54) == Scan(Run(text, 53).sanitized + "}", Cursor(false, false, Some('}')));
  }

  /** tests/safeJsonParse.test.js:19-25: separators between members and between array elements become commas; the ones before `]` and `}` are dropped. */
  lemma MixedSeparators(text: string)
    requires text == "{\"flag\": true; " + "\"values\": " + "[1; 2; 3]; " + "\"title\": \"Hello\";}"
    ensures Sanitize(text) == "{" + "\"flag\"" + ": " + "true" + ", " + "\"values\"" + ": [" + "1," + " 2" + ", " + "3]" + ", " + "\"title\"" + ": " + "\"Hello\"" + "}"
  {
    MixedSeparatorsSpelling1(text);
    MixedSeparatorsSpelling2(text);
    MixedSeparatorsSpelling3(text);
    MixedSeparatorsSpelling4(text);
    MixedSeparatorsSteps0To1(text);
    MixedSeparatorsSteps1To7(text);
    MixedSeparatorsSteps7To9(text);
    MixedSeparatorsSteps9To13(text);
    MixedSeparatorsSteps13To15(text);
    MixedSeparatorsSteps15To23(text);
    MixedSeparatorsSteps23To26(text);
    MixedSeparatorsSteps26To28(text);
    MixedSeparatorsSteps28To30(text);
    MixedSeparatorsSteps30To32(text);
    MixedSeparatorsSteps32To34(text);
    MixedSeparatorsSteps34To36(text);
    MixedSeparatorsSteps36To43(text);
    MixedSeparatorsSteps43To45(text);
    MixedSeparatorsSteps45To52(text);
    MixedSeparatorsSteps52To54(text);
  }

  // ---------------------------------------------------------------------------
  // "{\"a\": 1;; }"
  // ---------------------------------------------------------------------------

  lemma DoubleSemicolonSpelling(text: string)
    requires text == "{\"a\": 1;; }"
    ensures |text| == 11
    ensures text[0] == '{' && text[1] == '\"' && text[2] == 'a' && text[3] == '\"' && text[4] == ':' && text[5] == ' '
    ensures text[6] == '1' && text[7] == ';' && text[8] == ';' && text[9] == ' ' && text[10] == '}'
  {
  }

  lemma DoubleSemicolonSteps0To1(text: string)
    requires |text| == 11 && text[0] == '{'
    ensures Run(text, 1) == Scan("{", Cursor(false, false, Some('{')))
  {
    assert Run(text, 1) == Scan("{", Cursor(false, false, Some('{')));
  }

  lemma DoubleSemicolonSteps1To4(text: string)
    requires |text| == 11 && text[1] == '\"' && text[2] == 'a' && text[3] == '\"'
    requires Run(text, 1).cursor == Cursor(false, false, Some('{'))
    ensures Run(text, 4) == Scan(Run(text, 1).sanitized + "\"a\"", Cursor(false, false, Some('"')))
  {
    assert Run(text, 2) == Scan(Run(text, 1).sanitized + "\"", Cursor(true, false, Some('{')));
    assert Run(text, 3) == Scan(Run(text, 2).sanitized + "a", Cursor(true, false, Some('{')));
    assert Run(text, 4) == Scan(Run(text, 3).sanitized + "\"", Cursor(false, false, Some('"')));
  }

  lemma DoubleSemicolonSteps4To6(text: string)
    requires |text| == 11 && text[4] == ':' && text[5] == ' '
    requires Run(text, 4).cursor == Cursor(false, false, Some('"'))
    ensures Run(text, 6) == Scan(Run(text, 4).sanitized + ": ", Cursor(false, false, Some(':')))
  {
    assert Run(text, 5) == Scan(Run(text, 4).sanitized + ":", Cursor(false, false, Some(':')));
    assert Run(text, 6) == Scan(Run(text, 5).sanitized + " ", Cursor(false, false, Some(':')));
  }

  lemma DoubleSemicolonSteps6To7(text: string)
    requires |text| == 11 && text[6] == '1'
    requires Run(text, 6).cursor == Cursor(false, false, Some(':'))
    ensures Run(text, 7) == Scan(Run(text, 6).sanitized + "1", Cursor(false, false, Some('1')))
  {
    assert Run(text, 7) == Scan(Run(text, 6).sanitized + "1", Cursor(false, false, Some('1')));
  }

  lemma DoubleSemicolonSteps7To9(text: string)
    requires |text| == 11 && text[7] == ';' && text[8] == ';' && text[9] == ' ' && text[10] == '}'
    requires Run(text, 7).cursor == Cursor(false, false, Some('1'))
    ensures Run(text, 9) == Scan(Run(text, 7).sanitized + ",", Cursor(false, false, Some(',')))
  {
    assert NextNonWhitespace(text, 8) == Some(8);
    assert Run(text, 8) == Scan(Run(text, 7).sanitized + ",", Cursor(false, false, Some(',')));
    assert NextNonWhitespace(text, 10) == Some(10);
    assert NextNonWhitespace(text, 9) == Some(10);
    assert Run(text, 9) == Scan(Run(text, 8).sanitized + "", Cursor(false, false, Some(',')));
  }

  lemma DoubleSemicolonSteps9To11(text: string)
    requires |text| == 11 && text[9] == ' ' && text[10] == '}'
    requires Run(text, 9).cursor == Cursor(false, false, Some(','))
    ensures Run(text, 11) == Scan(Run(text, 9).sanitized + " }", Cursor(false, false, Some('}')))
  {
    assert Run(text, 10) == Scan(Run(text, 9).sanitized + " ", Cursor(false, false, Some(',')));
    assert Run(text, 11) == Scan(Run(text, 10).sanitized + "}", Cursor(false, false, Some('}')));
  }

  /** tests/safeJsonParse.test.js:27-39: the first of two semicolons becomes a comma; the second follows that comma and is dropped, which leaves a trailing comma the decoder rejects. */
  lemma DoubleSemicolon(text: string)
    requires text == "{\"a\": 1;; }"
    ensures Sanitize(text) == "{" + "\"a\"" + ": " + "1" + "," + " }"
  {
    DoubleSemicolonSpelling(text);
    DoubleSemicolonSteps0To1(text);
    DoubleSemicolonSteps1To4(text);
    DoubleSemicolonSteps4To6(text);
    DoubleSemicolonSteps6To7(text);
    DoubleSemicolonSteps7To9(text);
    DoubleSemicolonSteps9To11(text);
  }

  // ---------------------------------------------------------------------------
  // The parse wrapper
  // ---------------------------------------------------------------------------

  /** `{"flag": true, "values": [1, 2, 3], "title": "Hello"}`, stretch by stretch. */
  const MixedSanitized := "{" + "\"flag\"" + ": " + "true" + ", " + "\"values\"" + ": [" + "1," + " 2" + ", " + "3]" + ", " + "\"title\"" + ": " + "\"Hello\"" + "}"

  /**
   * tests/safeJsonParse.test.js:19-25: with `includeSanitized`, a successful
   * parse returns the decoded value together with the sanitized text.
   */
  lemma ParseReturnsSanitizedText<V>(text: string, decode: string -> Result<V, DecodeError>)
    requires text == "{\"flag\": true; " + "\"values\": " + "[1; 2; 3]; " + "\"title\": \"Hello\";}"
    requires decode(MixedSanitized).Success?
    ensures ParseOutcome(text, Options(sanitize := true, includeSanitized := true), decode)
            == Success(WithSanitized(decode(MixedSanitized).value, MixedSanitized))
  {
    MixedSeparators(text);
  }

  /**
   * tests/safeJsonParse.test.js:27-39: with the default options, a text the
   * decoder still rejects after sanitizing raises an error whose message has
   * the sanitizing prefix and which carries the decoder's error and the
   * sanitized text.
   */
  lemma ParseReportsSanitizedText<V>(text: string, decode: string -> Result<V, DecodeError>)
    requires text == "{\"a\": 1;; }"
    requires decode("{\"a\": 1, }").Failure?
    ensures var e := decode("{\"a\": 1, }").error;
            ParseOutcome(text, Defaults, decode)
            == Failure(SyntaxError(SanitizeFailurePrefix + e.message, e, Some("{\"a\": 1, }")))
  {
    DoubleSemicolon(text);
    assert "{" + "\"a\"" + ": " + "1" + "," + " }" == "{\"a\": 1, }";
  }

  /**
   * tests/safeJsonParse.test.js:41-44: with `sanitize` off, the raw text goes
   * to the decoder and its value is returned alone.
   */
  lemma ParseWithoutSanitizing<V>(decode: string -> Result<V, DecodeError>)
    requires decode("{\"value\": 1}").Success?
    ensures ParseOutcome("{\"value\": 1}", Options(sanitize := false, includeSanitized := false), decode)
            == Success(Plain(decode("{\"value\": 1}").value))
  {
  }
}
