/**
 * The semicolon-tolerant JSON reader of src/safeJsonParse.js.
 *
 * The sanitizer is a single left-to-right scan over the text that keeps three
 * cursor variables (inside a string literal, just after a backslash, the last
 * significant character) and decides, for every semicolon outside a string,
 * whether to drop it or to turn it into a comma.  The scan is specified by the
 * functions `Step` and `Run` (one character, and the first n characters) and
 * implemented by the methods `FindNextNonWhitespaceIndex` and
 * `SanitizeLooseSemicolons`, which keep the loops of the source.  The parse
 * wrapper is specified by `ParseOutcome` and implemented by `SafeJsonParse`;
 * the JSON decoder itself is a parameter.
 */
module SafeJsonParse {

  datatype Option<T> = None | Some(value: T)

  datatype Result<T, E> = Success(value: T) | Failure(error: E)

  /**
   * JavaScript's `\s` class: the ECMAScript WhiteSpace and LineTerminator
   * code points.
   */
  predicate IsWhitespace(c: char) {
    c == '\t' || c == '\n' || c == '\U{B}' || c == '\U{C}' || c == '\r' || c == ' '
    || c == '\U{A0}' || c == '\U{1680}' || ('\U{2000}' <= c <= '\U{200A}')
    || c == '\U{2028}' || c == '\U{2029}' || c == '\U{202F}' || c == '\U{205F}'
    || c == '\U{3000}' || c == '\U{FEFF}'
  }

  // ---------------------------------------------------------------------------
  // Lookahead
  // ---------------------------------------------------------------------------

  /** The first index at or after `start` that holds a non-whitespace character. */
  function NextNonWhitespace(text: string, start: nat): (r: Option<nat>)
    ensures r.Some? ==> start <= r.value < |text| && !IsWhitespace(text[r.value])
    ensures r.Some? ==> forall j :: start <= j < r.value ==> IsWhitespace(text[j])
    ensures r.None? <==> forall j :: start <= j < |text| ==> IsWhitespace(text[j])
    decreases |text| - start
  {
    if start >= |text| then None
    else if !IsWhitespace(text[start]) then Some(start)
    else NextNonWhitespace(text, start + 1)
  }

  /** The index loop of the source, with -1 for "no such character". */
  method FindNextNonWhitespaceIndex(text: string, startIndex: nat) returns (index: int)
    ensures index == -1 <==> forall j :: startIndex <= j < |text| ==> IsWhitespace(text[j])
    ensures index != -1 ==> startIndex <= index < |text| && !IsWhitespace(text[index])
    ensures index != -1 ==> forall j :: startIndex <= j < index ==> IsWhitespace(text[j])
    ensures index == match NextNonWhitespace(text, startIndex) case None => -1 case Some(j) => j
  {
    index := startIndex;
    while index < |text|
      invariant startIndex <= index
      invariant index == startIndex || index <= |text|
      invariant forall j :: startIndex <= j < index ==> IsWhitespace(text[j])
      invariant NextNonWhitespace(text, startIndex) == NextNonWhitespace(text, index)
      decreases |text| - index
    {
      if !IsWhitespace(text[index]) {
        return;
      }
      index := index + 1;
    }
    return -1;
  }

  // ---------------------------------------------------------------------------
  // The sanitizer scan, as a specification
  // ---------------------------------------------------------------------------

  /**
   * The scan variables of the source.  `lastSignificant` is None where the
   * source holds the empty string.
   */
  datatype Cursor = Cursor(inString: bool, escaping: bool, lastSignificant: Option<char>)

  const Initial := Cursor(false, false, None)

  /** What one character contributes to the output, and the cursor after it. */
  datatype Move = Move(piece: string, next: Cursor)

  /** The output so far and the cursor, after a prefix of the text. */
  datatype Scan = Scan(sanitized: string, cursor: Cursor)

  /** A separator makes no sense right after nothing, `{`, `[`, `:` or `,`. */
  predicate ExpectsValue(last: Option<char>) {
    last.None? || last.value == '{' || last.value == '[' || last.value == ':' || last.value == ','
  }

  /**
   * Whether the semicolon at `i` (outside a string) is dropped: nothing but
   * whitespace follows it, or a closing `}` / `]` follows it, or it comes
   * where a value is expected.
   */
  predicate DropsSemicolon(text: string, i: nat, last: Option<char>)
    requires i < |text|
  {
    match NextNonWhitespace(text, i + 1)
    case None => true
    case Some(j) => text[j] == '}' || text[j] == ']' || ExpectsValue(last)
  }

  /** The loop body of the source for the character at index `i`. */
  function Step(text: string, i: nat, c: Cursor): Move
    requires i < |text|
  {
    var ch := text[i];
    if c.inString then
      if c.escaping then Move([ch], c.(escaping := false))
      else if ch == '\\' then Move([ch], c.(escaping := true))
      else if ch == '"' then Move([ch], c.(inString := false, lastSignificant := Some('"')))
      else Move([ch], c)
    else if ch == '"' then Move([ch], c.(inString := true))
    else if IsWhitespace(ch) then Move([ch], c)
    else if ch == ';' then
      if DropsSemicolon(text, i, c.lastSignificant) then Move([], c)
      else Move([','], c.(lastSignificant := Some(',')))
    // The source tests for whitespace once more here; whitespace was
    // handled above, so the character always becomes the last significant one.
    else Move([ch], c.(lastSignificant := Some(ch)))
  }

  /** The scan after the first `n` characters of `text`. */
  function Run(text: string, n: nat): Scan
    requires n <= |text|
  {
    if n == 0 then Scan([], Initial)
    else
      var before := Run(text, n - 1);
      var m := Step(text, n - 1, before.cursor);
      Scan(before.sanitized + m.piece, m.next)
  }

  /** The value `sanitizeLooseSemicolons` returns. */
  function Sanitize(text: string): string {
    Run(text, |text|).sanitized
  }

  // ---------------------------------------------------------------------------
  // The sanitizer scan, as the source writes it
  // ---------------------------------------------------------------------------

  method SanitizeLooseSemicolons(jsonLike: string) returns (sanitized: string)
    ensures sanitized == Sanitize(jsonLike)
  {
    sanitized := "";
    var inString := false;
    var escaping := false;
    var lastSignificantChar: Option<char> := None;

    for index := 0 to |jsonLike|
      invariant Scan(sanitized, Cursor(inString, escaping, lastSignificantChar)) == Run(jsonLike, index)
    {
      var ch := jsonLike[index];

      if inString {
        sanitized := sanitized + [ch];
        if escaping {
          escaping := false;
          continue;
        }
        if ch == '\\' {
          escaping := true;
          continue;
        }
        if ch == '"' {
          inString := false;
          lastSignificantChar := Some('"');
        }
        continue;
      }

      if ch == '"' {
        inString := true;
        sanitized := sanitized + [ch];
        continue;
      }

      if IsWhitespace(ch) {
        sanitized := sanitized + [ch];
        continue;
      }

      if ch == ';' {
        var nextIndex := FindNextNonWhitespaceIndex(jsonLike, index + 1);
        if nextIndex == -1 {
          continue;
        }
        var nextChar := jsonLike[nextIndex];
        if nextChar == '}' || nextChar == ']' {
          continue;
        }
        if ExpectsValue(lastSignificantChar) {
          continue;
        }
        sanitized := sanitized + [','];
        lastSignificantChar := Some(',');
        continue;
      }

      sanitized := sanitized + [ch];
      lastSignificantChar := Some(ch);
    }
  }

  // ---------------------------------------------------------------------------
  // The parse wrapper
  // ---------------------------------------------------------------------------

  /** The two recognised options; absent ones take the source's defaults. */
  datatype Options = Options(sanitize: bool, includeSanitized: bool)

  const Defaults := Options(sanitize := true, includeSanitized := false)

  /** What the JSON decoder reports when it rejects a text. */
  datatype DecodeError = DecodeError(message: string)

  /** A successful parse: the value alone, or with the text that was decoded. */
  datatype Parsed<V> = Plain(value: V) | WithSanitized(value: V, sanitized: string)

  /** The SyntaxError the wrapper raises; `sanitized` is the field set only when sanitizing. */
  datatype SyntaxError = SyntaxError(message: string, cause: DecodeError, sanitized: Option<string>)

  const SanitizeFailurePrefix := "Unable to parse JSON even after sanitizing loose semicolons: "

  /** The text handed to the decoder. */
  function Prepared(text: string, options: Options): string {
    if options.sanitize then Sanitize(text) else text
  }

  /** What `safeJsonParse` returns or raises, for a given decoder. */
  function ParseOutcome<V>(text: string, options: Options, decode: string -> Result<V, DecodeError>)
    : (r: Result<Parsed<V>, SyntaxError>)
    ensures r.Success? <==> decode(Prepared(text, options)).Success?
    ensures r.Success? ==> r.value.value == decode(Prepared(text, options)).value
    ensures r.Success? ==> (r.value.WithSanitized? <==> options.includeSanitized)
    ensures r.Success? && r.value.WithSanitized? ==> r.value.sanitized == Prepared(text, options)
    ensures r.Failure? ==> r.error.cause == decode(Prepared(text, options)).error
    ensures r.Failure? ==> (r.error.sanitized.Some? <==> options.sanitize)
    ensures r.Failure? && options.sanitize ==>
              r.error.sanitized == Some(Sanitize(text))
              && r.error.message == SanitizeFailurePrefix + r.error.cause.message
    ensures r.Failure? && !options.sanitize ==> r.error.message == r.error.cause.message
  {
    var prepared := Prepared(text, options);
    match decode(prepared)
    case Success(v) =>
      Success(if options.includeSanitized then WithSanitized(v, prepared) else Plain(v))
    case Failure(e) =>
      Failure(SyntaxError(
        if options.sanitize then SanitizeFailurePrefix + e.message else e.message,
        e,
        if options.sanitize then Some(prepared) else None))
  }

  /**
   * The wrapper as the source writes it: sanitize or not, decode, and on
   * failure build the error with its `cause` and, when sanitizing, attach
   * `sanitized`.
   */
  method SafeJsonParse<V>(jsonLike: string, options: Options, decode: string -> Result<V, DecodeError>)
    returns (r: Result<Parsed<V>, SyntaxError>)
    ensures r == ParseOutcome(jsonLike, options, decode)
  {
    var prepared := jsonLike;
    if options.sanitize {
      prepared := SanitizeLooseSemicolons(jsonLike);
    }

    var parsed := decode(prepared);
    if parsed.Success? {
      if options.includeSanitized {
        return Success(WithSanitized(parsed.value, prepared));
      }
      return Success(Plain(parsed.value));
    }

    // The source assigns `cause` right after constructing the error object;
    // nothing observes the object in between, so it is given at construction.
    var error := parsed.error;
    var syntaxError := SyntaxError(
      if options.sanitize then SanitizeFailurePrefix + error.message else error.message,
      error,
      None);
    if options.sanitize {
      syntaxError := syntaxError.(sanitized := Some(prepared));
    }
    return Failure(syntaxError);
  }
}
