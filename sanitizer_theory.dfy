/**
 * What the sanitizer of src/safeJsonParse.js promises, proved about its
 * specification `SafeJsonParse.Sanitize`.
 *
 * Two reference definitions, independent of the scan, carry the statements:
 *  - `ModeAfter` is a plain lexer that says, after any text, whether one is
 *    outside string literals, inside one, or just after a backslash inside one;
 *    a semicolon at a position where it says "outside" is a loose semicolon;
 *  - `Rewrite` replaces every loose semicolon either by nothing or by one comma
 *    (per a sequence of choices) and copies every other character.
 * The main theorem says that sanitizing is such a rewrite; the rest follows
 * from it: the output is never longer, clean text is left alone, string
 * contents are copied verbatim, the output has no loose semicolons and the
 * same string boundaries, and sanitizing twice is sanitizing once.
 */
module SanitizerTheory {

  import opened SafeJsonParse

  // ---------------------------------------------------------------------------
  // A reference lexer for string literals
  // ---------------------------------------------------------------------------

  datatype Lexical = Outside | InLiteral | AfterBackslash

  /** A `"` opens and closes literals; inside one, a backslash shields the next character. */
  function LexNext(m: Lexical, ch: char): Lexical {
    match m
    case Outside => if ch == '"' then InLiteral else Outside
    case InLiteral => if ch == '\\' then AfterBackslash else if ch == '"' then Outside else InLiteral
    case AfterBackslash => InLiteral
  }

  /** The lexical position after reading all of `s`. */
  function ModeAfter(s: string): Lexical
    decreases |s|
  {
    if s == [] then Outside else LexNext(ModeAfter(s[..|s| - 1]), s[|s| - 1])
  }

  /** A semicolon that is not part of any string literal. */
  predicate Loose(text: string, i: nat)
    requires i < |text|
  {
    text[i] == ';' && ModeAfter(text[..i]) == Outside
  }

  predicate NoLooseSemicolons(text: string) {
    forall i :: 0 <= i < |text| ==> !Loose(text, i)
  }

  // ---------------------------------------------------------------------------
  // A reference rewrite: loose semicolons become nothing or one comma
  // ---------------------------------------------------------------------------

  /** What the character at `i` becomes; `comma[i]` picks for a loose semicolon. */
  function Replacement(text: string, comma: seq<bool>, i: nat): string
    requires |comma| == |text| && i < |text|
  {
    if Loose(text, i) then (if comma[i] then "," else "") else [text[i]]
  }

  /** The rewrite of the first `n` characters. */
  function Rewrite(text: string, comma: seq<bool>, n: nat): string
    requires |comma| == |text| && n <= |text|
  {
    if n == 0 then [] else Rewrite(text, comma, n - 1) + Replacement(text, comma, n - 1)
  }

  /** The choices the scan makes: a loose semicolon is kept as a comma unless dropped. */
  function Commas(text: string): seq<bool> {
    seq(|text|, i requires 0 <= i < |text| => !DropsSemicolon(text, i, Run(text, i).cursor.lastSignificant))
  }

  /** The last non-whitespace character of `s`, if any. */
  function LastNonWhitespace(s: string): Option<char>
    decreases |s|
  {
    if s == [] then None
    else if !IsWhitespace(s[|s| - 1]) then Some(s[|s| - 1])
    else LastNonWhitespace(s[..|s| - 1])
  }

  // ---------------------------------------------------------------------------
  // The scan follows the lexer and performs the rewrite
  // ---------------------------------------------------------------------------

  lemma PrefixOfPrefix(s: string, n: nat)
    requires n < |s|
    ensures s[..n + 1][..n] == s[..n] && s[..n + 1][n] == s[n]
    ensures ModeAfter(s[..n + 1]) == LexNext(ModeAfter(s[..n]), s[n])
  {
    assert s[..n + 1][..n] == s[..n];
  }

  /**
   * After any prefix, the scan's `inString` and `escaping` are exactly what the
   * lexer says, and its output is the rewrite with the scan's own choices.
   */
  lemma {:induction false} RunFollowsLexer(text: string, n: nat)
    requires n <= |text|
    ensures Run(text, n).cursor.inString <==> ModeAfter(text[..n]) != Outside
    ensures Run(text, n).cursor.escaping <==> ModeAfter(text[..n]) == AfterBackslash
    ensures Run(text, n).sanitized == Rewrite(text, Commas(text), n)
  {
    if n > 0 {
      RunFollowsLexer(text, n - 1);
      PrefixOfPrefix(text, n - 1);
      StepFollowsLexer(text, n - 1, Run(text, n - 1).cursor, Commas(text));
    }
  }

  /** One step of the scan, from a cursor that agrees with the lexer. */
  lemma StepFollowsLexer(text: string, i: nat, c: Cursor, comma: seq<bool>)
    requires i < |text| && |comma| == |text|
    requires c.inString <==> ModeAfter(text[..i]) != Outside
    requires c.escaping <==> ModeAfter(text[..i]) == AfterBackslash
    requires comma[i] == !DropsSemicolon(text, i, c.lastSignificant)
    ensures Step(text, i, c).piece == Replacement(text, comma, i)
    ensures Step(text, i, c).next.inString <==> LexNext(ModeAfter(text[..i]), text[i]) != Outside
    ensures Step(text, i, c).next.escaping <==> LexNext(ModeAfter(text[..i]), text[i]) == AfterBackslash
  {
  }

  /** Sanitizing replaces each loose semicolon by nothing or a comma, and changes nothing else. */
  lemma SanitizeIsRewrite(text: string)
    ensures Sanitize(text) == Rewrite(text, Commas(text), |text|)
  {
    RunFollowsLexer(text, |text|);
  }

  // ---------------------------------------------------------------------------
  // Properties of every rewrite
  // ---------------------------------------------------------------------------

  lemma {:induction false} RewriteNotLonger(text: string, comma: seq<bool>, n: nat)
    requires |comma| == |text| && n <= |text|
    ensures |Rewrite(text, comma, n)| <= n
  {
    if n > 0 {
      RewriteNotLonger(text, comma, n - 1);
    }
  }

  /** A stretch of text without loose semicolons is copied as one block. */
  lemma {:induction false} RewriteCopiesStretch(text: string, comma: seq<bool>, i: nat, j: nat)
    requires |comma| == |text| && i <= j <= |text|
    requires forall k :: i <= k < j ==> !Loose(text, k)
    ensures Rewrite(text, comma, j) == Rewrite(text, comma, i) + text[i..j]
  {
    if i < j {
      RewriteCopiesStretch(text, comma, i, j - 1);
      assert text[i..j] == text[i..j - 1] + [text[j - 1]];
    }
  }

  lemma {:induction false} RewriteIsPrefix(text: string, comma: seq<bool>, i: nat, j: nat)
    requires |comma| == |text| && i <= j <= |text|
    ensures Rewrite(text, comma, i) <= Rewrite(text, comma, j)
  {
    if i < j {
      RewriteIsPrefix(text, comma, i, j - 1);
    }
  }

  lemma ModeAfterAppend(s: string, ch: char)
    ensures ModeAfter(s + [ch]) == LexNext(ModeAfter(s), ch)
  {
    assert (s + [ch])[..|s|] == s;
  }

  /** A rewrite leaves the lexer where the input leaves it, so string literals open and close at the same characters. */
  lemma {:induction false} RewriteKeepsMode(text: string, comma: seq<bool>, n: nat)
    requires |comma| == |text| && n <= |text|
    ensures ModeAfter(Rewrite(text, comma, n)) == ModeAfter(text[..n])
  {
    if n == 0 {
      assert text[..0] == [];
    } else {
      RewriteKeepsMode(text, comma, n - 1);
      RewriteStepKeepsMode(text, comma, n - 1);
    }
  }

  lemma RewriteStepKeepsMode(text: string, comma: seq<bool>, i: nat)
    requires |comma| == |text| && i < |text|
    requires ModeAfter(Rewrite(text, comma, i)) == ModeAfter(text[..i])
    ensures ModeAfter(Rewrite(text, comma, i + 1)) == ModeAfter(text[..i + 1])
  {
    ReplacementKeepsMode(text, comma, i, Rewrite(text, comma, i));
  }

  /** One replacement moves the lexer over the output as the original character moves it over the input. */
  lemma ReplacementKeepsMode(text: string, comma: seq<bool>, i: nat, before: string)
    requires |comma| == |text| && i < |text|
    requires ModeAfter(before) == ModeAfter(text[..i])
    ensures ModeAfter(before + Replacement(text, comma, i)) == ModeAfter(text[..i + 1])
  {
    PrefixOfPrefix(text, i);
    var piece := Replacement(text, comma, i);
    if Loose(text, i) {
      // A loose semicolon is read outside literals and leaves the lexer there;
      // so does the comma that may replace it.
      assert LexNext(ModeAfter(text[..i]), text[i]) == Outside;
      if piece == [] {
        assert before + piece == before;
      } else {
        assert piece == [','];
        ModeAfterAppend(before, ',');
      }
    } else {
      assert piece == [text[i]];
      ModeAfterAppend(before, text[i]);
    }
  }

  /** Appending nothing, or one character that is not a loose semicolon there, keeps a text clean. */
  lemma AppendKeepsClean(before: string, piece: string)
    requires NoLooseSemicolons(before)
    requires piece == [] || (|piece| == 1 && (piece[0] == ';' ==> ModeAfter(before) != Outside))
    ensures NoLooseSemicolons(before + piece)
  {
    var after := before + piece;
    forall k | 0 <= k < |after|
      ensures !Loose(after, k)
    {
      if k < |before| {
        assert after[..k] == before[..k];
        assert !Loose(before, k);
      } else {
        assert after[..k] == before;
      }
    }
  }

  /** A rewrite contains no loose semicolon. */
  lemma {:induction false} RewriteKeepsLiterals(text: string, comma: seq<bool>, n: nat)
    requires |comma| == |text| && n <= |text|
    ensures NoLooseSemicolons(Rewrite(text, comma, n))
  {
    if n > 0 {
      RewriteKeepsLiterals(text, comma, n - 1);
      RewriteStepKeepsClean(text, comma, n - 1);
    }
  }

  lemma RewriteStepKeepsClean(text: string, comma: seq<bool>, i: nat)
    requires |comma| == |text| && i < |text|
    requires NoLooseSemicolons(Rewrite(text, comma, i))
    ensures NoLooseSemicolons(Rewrite(text, comma, i + 1))
  {
    RewriteKeepsMode(text, comma, i);
    AppendKeepsClean(Rewrite(text, comma, i), Replacement(text, comma, i));
  }

  // ---------------------------------------------------------------------------
  // Properties of the sanitizer
  // ---------------------------------------------------------------------------

  /** Only semicolons are removed or replaced one for one, so the output is never longer. */
  lemma SanitizeNotLonger(text: string)
    ensures |Sanitize(text)| <= |text|
  {
    SanitizeIsRewrite(text);
    RewriteNotLonger(text, Commas(text), |text|);
  }

  /** Text whose semicolons all sit inside string literals comes back unchanged. */
  lemma SanitizeLeavesCleanTextAlone(text: string)
    requires NoLooseSemicolons(text)
    ensures Sanitize(text) == text
  {
    SanitizeIsRewrite(text);
    RewriteCopiesStretch(text, Commas(text), 0, |text|);
  }

  /** The output has no semicolon outside strings, and its literals end where the input's do. */
  lemma SanitizeRemovesLooseSemicolons(text: string)
    ensures NoLooseSemicolons(Sanitize(text))
    ensures ModeAfter(Sanitize(text)) == ModeAfter(text)
  {
    SanitizeIsRewrite(text);
    RewriteKeepsLiterals(text, Commas(text), |text|);
    RewriteKeepsMode(text, Commas(text), |text|);
    assert text[..|text|] == text;
  }

  /** Sanitizing already-sanitized text changes nothing. */
  lemma SanitizeIdempotent(text: string)
    ensures Sanitize(Sanitize(text)) == Sanitize(text)
  {
    SanitizeRemovesLooseSemicolons(text);
    SanitizeLeavesCleanTextAlone(Sanitize(text));
  }

  /** Where the output of the first `i` characters ends. */
  function OutputPosition(text: string, i: nat): nat
    requires i <= |text|
  {
    |Run(text, i).sanitized|
  }

  /**
   * A stretch of input without loose semicolons appears in the output as one
   * block, starting where the output of the characters before it ends.
   */
  lemma SanitizeCopiesStretch(text: string, i: nat, j: nat)
    requires i <= j <= |text|
    requires forall k :: i <= k < j ==> !Loose(text, k)
    ensures OutputPosition(text, i) + (j - i) <= |Sanitize(text)|
    ensures Sanitize(text)[OutputPosition(text, i)..OutputPosition(text, i) + (j - i)] == text[i..j]
  {
    var comma := Commas(text);
    RunFollowsLexer(text, i);
    SanitizeIsRewrite(text);
    RewriteCopiesStretch(text, comma, i, j);
    RewriteIsPrefix(text, comma, j, |text|);
    BlockOfPrefix(Rewrite(text, comma, i), text[i..j], Sanitize(text));
  }

  lemma BlockOfPrefix(a: string, b: string, c: string)
    requires a + b <= c
    ensures |a| + |b| <= |c| && c[|a|..|a| + |b|] == b
  {
    assert c[|a|..|a| + |b|] == (a + b)[|a|..];
  }

  /**
   * A string literal, from its opening quote at `open` to the unescaped quote
   * at `close` that ends it, is copied verbatim, semicolons included.
   */
  lemma SanitizeCopiesStringLiteral(text: string, open: nat, close: nat)
    requires open < close < |text|
    requires text[open] == '"' && ModeAfter(text[..open]) == Outside
    requires forall k :: open < k <= close ==> ModeAfter(text[..k]) != Outside
    requires ModeAfter(text[..close + 1]) == Outside
    ensures OutputPosition(text, open) + (close + 1 - open) <= |Sanitize(text)|
    ensures Sanitize(text)[OutputPosition(text, open)..OutputPosition(text, open) + (close + 1 - open)]
            == text[open..close + 1]
  {
    SanitizeCopiesStretch(text, open, close + 1);
  }

  /** A character after a backslash inside a string is copied and never ends the string. */
  lemma EscapedCharacterIsInert(text: string, i: nat)
    requires i < |text|
    requires ModeAfter(text[..i]) == AfterBackslash
    ensures Run(text, i + 1).sanitized == Run(text, i).sanitized + [text[i]]
    ensures Run(text, i + 1).cursor.inString && !Run(text, i + 1).cursor.escaping
  {
    RunFollowsLexer(text, i);
    RunFollowsLexer(text, i + 1);
    PrefixOfPrefix(text, i);
  }

  // ---------------------------------------------------------------------------
  // The disposal rule for a loose semicolon
  // ---------------------------------------------------------------------------

  lemma LastNonWhitespaceAppend(s: string, ch: char)
    ensures LastNonWhitespace(s + [ch]) == if IsWhitespace(ch) then LastNonWhitespace(s) else Some(ch)
  {
    assert (s + [ch])[..|s|] == s;
  }

  /**
   * Outside strings, the last significant character the scan remembers is the
   * last non-whitespace character it has written.
   */
  lemma {:induction false} LastSignificantIsLastWritten(text: string, n: nat)
    requires n <= |text|
    requires !Run(text, n).cursor.inString
    ensures Run(text, n).cursor.lastSignificant == LastNonWhitespace(Run(text, n).sanitized)
  {
    if n > 0 {
      var before := Run(text, n - 1);
      if !before.cursor.inString {
        LastSignificantIsLastWritten(text, n - 1);
      }
      StepKeepsLastWritten(text, n - 1, before.cursor, before.sanitized);
    }
  }

  /** One step keeps the cursor's last character equal to the last one written, outside strings. */
  lemma StepKeepsLastWritten(text: string, i: nat, c: Cursor, written: string)
    requires i < |text|
    requires !c.inString ==> c.lastSignificant == LastNonWhitespace(written)
    ensures var m := Step(text, i, c);
            !m.next.inString ==> m.next.lastSignificant == LastNonWhitespace(written + m.piece)
  {
    var m := Step(text, i, c);
    if c.inString {
      // Only the closing quote leaves a string; it is written and remembered.
      if !m.next.inString {
        assert text[i] == '"' && m.piece == ['"'];
        LastNonWhitespaceAppend(written, '"');
      }
    } else if m.piece == [] {
      assert written + m.piece == written;
    } else {
      LastNonWhitespaceAppend(written, m.piece[0]);
      assert m.piece == [m.piece[0]];
    }
  }

  /**
   * A loose semicolon is dropped exactly when nothing but whitespace follows
   * it, or the next non-whitespace character closes an object or array, or
   * the output written so far is empty of significant characters or ends in
   * `{`, `[`, `:` or `,`.  Otherwise it becomes one comma, and the comma is
   * the new last significant character.
   */
  lemma LooseSemicolonDisposal(text: string, i: nat)
    requires i < |text| && Loose(text, i)
    ensures var written := Run(text, i).sanitized;
            var dropped := match NextNonWhitespace(text, i + 1)
                           case None => true
                           case Some(j) => text[j] == '}' || text[j] == ']'
                                           || ExpectsValue(LastNonWhitespace(written));
            Run(text, i + 1).sanitized == written + (if dropped then "" else ",")
            && (!dropped ==> Run(text, i + 1).cursor.lastSignificant == Some(','))
            && (dropped ==> Run(text, i + 1).cursor == Run(text, i).cursor)
  {
    RunFollowsLexer(text, i);
    LastSignificantIsLastWritten(text, i);
  }

  // ---------------------------------------------------------------------------
  // The parse wrapper
  // ---------------------------------------------------------------------------

  /**
   * On text without loose semicolons, sanitizing is invisible to a successful
   * parse: the decoder sees the same text and the result is the same as with
   * `sanitize` off.  Only the failure message and `sanitized` field differ.
   */
  lemma ParseOfCleanTextIgnoresSanitize<V>(text: string, options: Options, decode: string -> Result<V, DecodeError>)
    requires NoLooseSemicolons(text)
    ensures var r := ParseOutcome(text, options, decode);
            var raw := ParseOutcome(text, options.(sanitize := false), decode);
            (r.Success? <==> raw.Success?) && (r.Success? ==> r == raw)
            && (r.Failure? ==> r.error.cause == raw.error.cause)
  {
    SanitizeLeavesCleanTextAlone(text);
  }

  /** Parsing the sanitized text instead of the original gives the same outcome. */
  lemma ParseOfSanitizedText<V>(text: string, options: Options, decode: string -> Result<V, DecodeError>)
    requires options.sanitize
    ensures ParseOutcome(Sanitize(text), options, decode) == ParseOutcome(text, options, decode)
  {
    SanitizeIdempotent(text);
  }
}
