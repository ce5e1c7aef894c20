# Semicolon-tolerant JSON parsing

A Dafny model of `src/safeJsonParse.js`. This module repairs JSON-like text in which
semicolons stand where commas (or nothing) should be, then hands the text to a JSON decoder.

- `sanitizeLooseSemicolons` reads the text once, from left to right. It keeps three scan
  variables: inside a string literal, just after a backslash inside one, and the last
  significant character it wrote.
  - It copies string literals verbatim.
  - It drops a semicolon outside a string in three cases: nothing but whitespace follows it,
    a `}` or `]` follows it, or it comes where a value is expected (first, or after `{`, `[`,
    `:` or `,`).
  - It turns every other semicolon outside a string into a comma.
- `findNextNonWhitespaceIndex` is the lookahead. It returns the first non-whitespace index
  at or after a position, or -1.
- `safeJsonParse` does the following:
  - it sanitizes the text unless `sanitize` is off, then decodes it;
  - it returns the value, or the value with the sanitized text when `includeSanitized` is on;
  - when decoding fails, it raises a `SyntaxError` carrying the decoder's error as `cause`;
  - when sanitizing was on, that error also carries the sanitized text, and its message gets
    a fixed prefix.

How the model is organised:

- `safe_json_parse.dfy` (module `SafeJsonParse`) holds the specification and the source's
  loops.
  - `Step` is one character of the scan and `Run` is the first n characters. `Sanitize` is
    the whole scan.
  - The methods `FindNextNonWhitespaceIndex` and `SanitizeLooseSemicolons` keep the source's
    loops, early returns and `continue` branches. Each is proved equal to its specification.
  - `ParseOutcome` specifies the wrapper. The method `SafeJsonParse` builds the result the
    way the source does.
- `sanitizer_theory.dfy` (module `SanitizerTheory`) proves what the sanitizer promises. It
  uses two reference definitions that are independent of the scan:
  - `ModeAfter` is a plain string-literal lexer. A semicolon where the lexer is outside
    literals is a *loose* semicolon.
  - `Rewrite` replaces each loose semicolon by nothing or by one comma, per a sequence of
    choices, and copies everything else.

  The main theorem is `SanitizeIsRewrite`. The other properties follow from it.
- `sanitizer_examples.dfy` (module `SanitizerExamples`) states the cases of
  `tests/safeJsonParse.test.js` about the specification.

## Model

| member | source | states |
|---|---|---|
| SafeJsonParse.NextNonWhitespace | src/safeJsonParse.js:96-104 | the result is the least index at or after `start` holding a non-whitespace character; it is None exactly when every character from `start` on is whitespace |
| SafeJsonParse.FindNextNonWhitespaceIndex | src/safeJsonParse.js:96-104 | the loop returns the least index at or after `startIndex` that is not whitespace, and -1 exactly when the rest of the text is all whitespace; this agrees with `NextNonWhitespace` |
| SafeJsonParse.SanitizeLooseSemicolons | src/safeJsonParse.js:10-94 | the loop over the text, with its three scan variables and its `continue` branches, returns `Sanitize(jsonLike)` |
| SafeJsonParse.ParseOutcome | src/safeJsonParse.js:119-151 | the parse succeeds exactly when the decoder accepts the prepared text, which is sanitized exactly when `sanitize` is on; success carries the decoded value, with the prepared text exactly when `includeSanitized` is on; failure carries the decoder's error as cause; `sanitized` is set exactly when sanitizing; the message is prefixed exactly when sanitizing |
| SafeJsonParse.SafeJsonParse | src/safeJsonParse.js:119-151 | the wrapper as written returns exactly `ParseOutcome`, including the error, whose `sanitized` field is set after it is built |
| SanitizerTheory.StepFollowsLexer | src/safeJsonParse.js:23-90 | from a cursor that agrees with the reference lexer, one character writes exactly its `Replacement` and leaves the cursor's string flags where the lexer goes |
| SanitizerTheory.RunFollowsLexer | src/safeJsonParse.js:20-91 | after every prefix, `inString` and `escaping` are exactly what the lexer says, and the output is the reference rewrite with the scan's choices |
| SanitizerTheory.SanitizeIsRewrite | src/safeJsonParse.js:20-93 | sanitizing replaces each semicolon outside strings by nothing or by one comma and copies every other character, in order |
| SanitizerTheory.SanitizeNotLonger | src/safeJsonParse.js:20-93 | the output is never longer than the input |
| SanitizerTheory.SanitizeLeavesCleanTextAlone | src/safeJsonParse.js:20-93 | text whose semicolons all lie inside string literals comes back unchanged |
| SanitizerTheory.SanitizeRemovesLooseSemicolons | src/safeJsonParse.js:23-84 | the output has no semicolon outside strings, and the lexer ends the output in the same state as the input |
| SanitizerTheory.SanitizeIdempotent | src/safeJsonParse.js:23-84 | sanitizing the output again returns it unchanged |
| SanitizerTheory.SanitizeCopiesStretch | src/safeJsonParse.js:20-91 | a stretch of input without loose semicolons appears in the output as one block, at the position where the output of the characters before it ends |
| SanitizerTheory.SanitizeCopiesStringLiteral | src/safeJsonParse.js:23-48 | a whole string literal, from its opening quote to the unescaped quote that closes it, is copied verbatim, semicolons included |
| SanitizerTheory.EscapedCharacterIsInert | src/safeJsonParse.js:26-34 | the character after a backslash inside a string is copied, clears `escaping` and never closes the string |
| SanitizerTheory.LastSignificantIsLastWritten | src/safeJsonParse.js:36-39 | outside strings, `lastSignificantChar` is the last non-whitespace character written so far, or empty when there is none |
| SanitizerTheory.LooseSemicolonDisposal | src/safeJsonParse.js:55-83 | a semicolon outside strings is dropped exactly when only whitespace follows it, or the next non-whitespace character is `}` or `]`, or the output so far is empty of significant characters or ends in `{`, `[`, `:` or `,`; otherwise it becomes one comma, which becomes the last significant character; a dropped semicolon leaves the scan variables as they were |
| SanitizerTheory.ParseOfCleanTextIgnoresSanitize | src/safeJsonParse.js:126-135 | on text without loose semicolons, the parse succeeds with or without sanitizing alike and returns the same result, and on failure the cause is the same |
| SanitizerTheory.ParseOfSanitizedText | src/safeJsonParse.js:126-151 | with sanitizing on, parsing the sanitized text gives the same outcome as parsing the original, success or failure |
| SanitizerExamples.PropertySeparators | tests/safeJsonParse.test.js:5-10 | `{"first": 1; "second": 2;}` sanitizes to `{"first": 1, "second": 2}` |
| SanitizerExamples.SemicolonInsideString | tests/safeJsonParse.test.js:12-17 | `{"note": "Line one; line two"; "count": 2; }` sanitizes to `{"note": "Line one; line two", "count": 2 }` |
| SanitizerExamples.MixedSeparators | tests/safeJsonParse.test.js:19-25 | `{"flag": true; "values": [1; 2; 3]; "title": "Hello";}` sanitizes to `{"flag": true, "values": [1, 2, 3], "title": "Hello"}` |
| SanitizerExamples.DoubleSemicolon | tests/safeJsonParse.test.js:27-39 | `{"a": 1;; }` sanitizes to `{"a": 1, }` |
| SanitizerExamples.ParseReturnsSanitizedText | tests/safeJsonParse.test.js:19-25 | with `includeSanitized`, when the decoder accepts the sanitized text, the parse returns its value together with `{"flag": true, "values": [1, 2, 3], "title": "Hello"}` |
| SanitizerExamples.ParseReportsSanitizedText | tests/safeJsonParse.test.js:27-39 | with the default options, when the decoder rejects `{"a": 1, }`, the parse raises an error with the prefixed message, the decoder's error as cause and `{"a": 1, }` as sanitized text |
| SanitizerExamples.ParseWithoutSanitizing | tests/safeJsonParse.test.js:41-44 | with `sanitize` off, the decoder sees the raw text and its value is returned alone |

## Left out

- The `TypeError` for non-string input (src/safeJsonParse.js:11-13, 122-124) is not modelled. Every input is a string under Dafny's typing, so that branch cannot happen.
- `JSON.parse` is a foreign call. It is the parameter `decode`, which returns a value or a `DecodeError` with a message. JSON values and the JSON grammar are not modelled.
  - So the decoded values that the tests compare (tests/safeJsonParse.test.js:23, 43) are not modelled. The example lemmas take the decoder's answer as a premise.
- Text is a sequence of Unicode scalar values, whereas JavaScript strings are UTF-16 code units. A lone surrogate cannot be represented. Every character the scan tests for lies in the Basic Multilingual Plane, so this does not change what the scan decides for representable text.
- The regular expression `/\s/` is written out as the fixed set of ECMAScript WhiteSpace and LineTerminator characters (`IsWhitespace`). An engine whose Unicode tables add space separators beyond that set would treat them differently.
- The options are two booleans; an absent option takes the source's default (`Defaults`). A non-boolean option value is not modelled; in the source it is tested by JavaScript truthiness.
- The error object is modelled as a value, `SyntaxError(message, cause, sanitized)`. That value is built by the wrapper, and its `sanitized` field is then updated. Object identity and the rest of the `SyntaxError` object, such as its stack, are not modelled.
- The tests import the module from `services/safeJsonParse.js`. That file is not part of this model. `src/safeJsonParse.js` is taken to be the module the tests exercise.
- The source's second whitespace test before updating `lastSignificantChar` (src/safeJsonParse.js:88) always holds at that point, because whitespace has already been handled a few lines earlier. `Step` leaves this test out, and `SanitizeLooseSemicolons` leaves it out too.
