# goyaccfmt, modelled in Dafny

goyaccfmt formats the Go code embedded in a goyacc grammar file. It reads the
grammar line by line. It counts the delimiter lines (a line whose text,
with surrounding whitespace trimmed, is `%{`, `%}` or `%%`) to know which
section it is in:

- 0 is the head;
- 1 is the preamble, between `%{` and `%}`;
- 2 is the declarations, up to the first `%%`;
- 3 is the rules, up to the second `%%`;
- 4 is the appendix, after the second `%%`.

The lines of the preamble and of the appendix are piped into a `gofmt`
process. Every other line is copied to the output unchanged. Each delimiter
is written as its trimmed token.

This project models that scanner and the `gofmt` wrapper it drives:

- `text.dfy` (module `Text`) models `strings.TrimSpace`. It proves that
  trimming yields the unpadded middle of a line, and that padding a token
  with whitespace does not change what it trims to.
- `gofmt.dfy` (module `Gofmt`) models the `gofmt` struct as class `Gofmt`:
  - `Write` appends to the pending input of the pipe.
  - `Close` waits for the process and writes its formatted text to the
    output `Sink`.
  - A second `Close` fails, because the process has already been waited
    for.

  What the `gofmt` program does with its whole input is a parameter
  `format: string -> Result<string, string>`: formatted text, or the
  diagnostics it prints on failure. `CloseFormatter` is the value-level
  view of `Close`.
- `goyaccfmt.dfy` (module `Goyaccfmt`) holds the scanner:
  - The imperative method `Goyaccfmt` has the loop over the lines, driving
    a `Gofmt` object and writing to a `Sink`. Its loop body is the method
    `ScanLine`.
  - The method is proved against the specification functions `Step` (one
    iteration), `Scan` (the loop) and `Processed` (the loop plus the final
    `Close`).
  - The lemmas state what the source promises about those functions.

The input is a sequence of already-split lines. The output is the text
written to the output writer, together with the error value the function
returns.

Behaviour of the code worth knowing:

- **Delimiters are written trimmed.** A delimiter line is written as its
  trimmed token and a newline, whatever whitespace surrounded it
  (goyaccfmt.go:103, 115).
- **Only entering section 2 closes a formatter during the loop.** That
  close flushes the preamble's formatted text before the delimiter, and its
  error is dropped (goyaccfmt.go:112-113). A delimiter after the appendix
  closes nothing: the appendix formatter stays open until the final Close
  (goyaccfmt.go:133), so its formatted text comes after the lines of
  section 5 and later.
- **Counter values 5 and above are not formatted.** Only the values 1 and
  4 send lines to the formatter (goyaccfmt.go:107, 119), so lines after a
  fifth delimiter are copied verbatim.
- **Sections 2 and 3 keep the closed preamble formatter.** Input that ends
  there (a grammar with a single `%%`) makes the final Close wait a second
  time for the same process (goyaccfmt.go:113, 133, 167), which returns an
  error (`WaitAlreadyCalled` in the model).
- **The repository's test does not match the code.** The expected string in
  goyaccfmt_test.go:50-58 leaves out the head, delimiter, declaration and
  rule lines that goyaccfmt.go:115 and 122-125 write. The model follows the
  code. It keeps the test's facts that the preamble and the trailing
  appendix come out formatted (`WellFormed`).

## Model

| member | source | states |
|---|---|---|
| Text.IsSpace | goyaccfmt.go:103 | The whitespace `strings.TrimSpace` removes: the code points Go's `unicode.IsSpace` accepts (tab to carriage return, space, NEL, NBSP, U+1680, U+2000 to U+200A, U+2028, U+2029, U+202F, U+205F, U+3000) |
| Text.Trim | goyaccfmt.go:103 | `strings.TrimSpace` of a line, never longer than the line; what it returns is pinned down by `LeadSpec`, `TrailSpec`, `TrimSpec` and `TrimPadded` |
| Goyaccfmt.IsDelimiter | goyaccfmt.go:103-104 | A line is a delimiter exactly when its trimmed text is `%{`, `%}` or `%%`; `DelimiterPadded` shows surrounding whitespace does not matter |
| Goyaccfmt.Marker | goyaccfmt.go:115 | What a delimiter line is written as: its trimmed text and a newline |
| Goyaccfmt.Formattable | goyaccfmt.go:106-119 | Only the literal section numbers 1 and 4 start a formatter and route lines to it |
| Goyaccfmt.Valid | goyaccfmt.go:97-113 | Which formatter goes with each section: none in section 0, the closed preamble formatter in 2 and 3, a running one in 1, 4 and above; `Step` and `Scan` keep it |
| Goyaccfmt.Step | goyaccfmt.go:103-126 | One loop iteration on the scanner's state (counter, formatter, output), keeping `Valid`; `ScanLine` is proved to do exactly this, and `PassThrough`, `Buffered`, `Segment` and `StepGrows` state what it does |
| Goyaccfmt.Delimiters | goyaccfmt.go:104-105 | The number of delimiter lines among the lines, counted independently of the scanner; `ScanCounter` ties the counter to it |
| Goyaccfmt.Lines | goyaccfmt.go:122-125 | The lines, each followed by a newline, as the copy and the formatter input receive them |
| Goyaccfmt.Scan | goyaccfmt.go:102-127 | The whole loop over the lines from a state, keeping `Valid`; `ScanConcat`, `ScanCounter`, `OutputGrows` and the stage lemmas state what it computes |
| Goyaccfmt.Processed | goyaccfmt.go:88-134 | A whole run: the loop, then the final Close of the current formatter, giving the output text and the returned error; `Goyaccfmt` is proved to produce it, and `WellFormed`, `BeyondAppendix`, `UnclosedPreamble`, `MissingAppendix`, `NoDelimiter` and `FinalClose` state what it is |
| Gofmt.Sink.constructor | goyaccfmt.go:88 | The `out` writer the scanner is given starts empty |
| Gofmt.Sink.Write | goyaccfmt.go:115-125 | Writing to `out` appends the bytes to what it holds and changes nothing else |
| Goyaccfmt.Goyaccfmt | goyaccfmt.go:88-134 | The loop over the lines, followed by the final `fmtr.Close()`, appends exactly `Processed(lines, format).text` to the output writer and returns `Processed(lines, format).outcome`; a nil formatter at the end gives the nil-formatter error |
| Goyaccfmt.ScanLine | goyaccfmt.go:103-126 | One loop iteration moves the counter, the formatter object and the output writer exactly as `Step` does: a delimiter bumps the counter, starts a fresh `Gofmt` on entering section 1 or 4, closes the preamble's on entering 2, and writes the trimmed token; any other line is written to the formatter in sections 1 and 4 and to the output otherwise, untrimmed and followed by a newline |
| Gofmt.Gofmt.constructor | goyaccfmt.go:143-156 | newGofmt gives a running formatter with empty input that prints to the given writer |
| Gofmt.Gofmt.Write | goyaccfmt.go:158-160 | Writing to the formatter appends to its pending input and writes nothing to the output |
| Gofmt.Gofmt.Close | goyaccfmt.go:162-171 | Close leaves the formatter waited for, appends the formatted text to its output only when formatting succeeds, and returns the formatting error; on a formatter already waited for it writes nothing and fails |
| Gofmt.CloseFormatter | goyaccfmt.go:162-171 | Closing succeeds exactly when the formatter is running and its input formats; on success the formatted text is written, otherwise nothing; the error is the formatter's diagnostics, the repeated-wait error, or the nil-formatter error |
| Text.LeadSpec | goyaccfmt.go:103 | The leading-whitespace count covers only whitespace and stops at the first non-space character |
| Text.TrailSpec | goyaccfmt.go:103 | The trailing-whitespace count covers only whitespace and stops at the last non-space character |
| Text.TrimSpec | goyaccfmt.go:103 | `TrimSpace` returns the slice of the line after its leading whitespace, only whitespace follows it in the line, and it neither starts nor ends with whitespace |
| Text.TrimPadded | goyaccfmt.go:103 | A text that neither starts nor ends with whitespace, padded on both sides with whitespace, trims back to itself |
| Goyaccfmt.DelimiterPadded | goyaccfmt.go:103-115 | The token `%{`, `%}` or `%%` with any whitespace around it is a delimiter line and is written as the bare token and a newline |
| Goyaccfmt.ScanCounter | goyaccfmt.go:99-105 | After any lines the counter equals its start plus the number of delimiter lines among them: one per delimiter, whichever token, none for other lines |
| Goyaccfmt.CounterNeverDecreases | goyaccfmt.go:105 | Scanning more lines never lowers the section counter |
| Goyaccfmt.ScanConcat | goyaccfmt.go:102-127 | Scanning a concatenation of lines is scanning the first part and then the second from where the first left off |
| Goyaccfmt.StepGrows | goyaccfmt.go:103-126 | One iteration only appends to the output: what was written before stays a prefix |
| Goyaccfmt.OutputGrows | goyaccfmt.go:102-127 | Over any lines the output so far is a prefix of the output afterwards |
| Goyaccfmt.PassThrough | goyaccfmt.go:106-125 | Non-delimiter lines in any section other than 1 and 4, including 5 and above, are appended to the output untrimmed, each with a newline, and the counter and the formatter stay unchanged |
| Goyaccfmt.Buffered | goyaccfmt.go:117-125 | Non-delimiter lines in section 1 or 4 are appended, each with a newline, to the formatter's input, and nothing is written to the output |
| Goyaccfmt.Segment | goyaccfmt.go:104-125 | After a delimiter and lines that are not delimiters: entering section 1 or 4 gives a fresh formatter holding exactly those lines and none from before; any other section copies them after the delimiter |
| Goyaccfmt.Opened | goyaccfmt.go:104-125 | After the head, `%{` and the preamble: the head is copied, the trimmed delimiter is written, and the formatter holds exactly the preamble |
| Goyaccfmt.Declared | goyaccfmt.go:112-115 | Entering section 2 writes the preamble's formatted text before the delimiter, or nothing when gofmt fails, and the error is dropped; the declarations are copied after it |
| Goyaccfmt.Ruled | goyaccfmt.go:104-125 | After the first `%%` the rules are copied verbatim after the trimmed delimiter |
| Goyaccfmt.ScanWellFormed | goyaccfmt.go:102-127 | After a whole well-formed grammar the counter is 4, the appendix formatter holds exactly the appendix's lines, and the output is head, delimiters, formatted preamble, declarations and rules, in source order |
| Goyaccfmt.Finish | goyaccfmt.go:133 | When the loop ends with a running formatter, the run's output gets that formatter's formatted text appended, and its formatting result is returned |
| Goyaccfmt.FinishWaited | goyaccfmt.go:113-133 | When the loop ends in section 2 or 3, the final Close writes nothing and returns the repeated-wait error |
| Goyaccfmt.WellFormed | goyaccfmt.go:88-134 | A well-formed grammar comes out with head, declarations and rules verbatim, the delimiters trimmed, the formatted preamble before the second delimiter, and the appendix, which no delimiter closes, formatted at the end from its own lines alone; the run's result is the appendix's formatting result whatever happened to the preamble |
| Goyaccfmt.BeyondAppendix | goyaccfmt.go:105-133 | A delimiter after the appendix (counter 5 and above) is written, the lines after it are copied verbatim rather than formatted, and the still-open appendix formatter writes its formatted text after them at the end |
| Goyaccfmt.UnclosedPreamble | goyaccfmt.go:104-133 | Input that ends inside the preamble still has the preamble formatted and written at the end, and its formatting result is the run's result |
| Goyaccfmt.MissingAppendix | goyaccfmt.go:112-133 | A grammar with a single `%%` and no appendix is written in full, but the final Close waits a second time for the preamble's gofmt, so the run fails |
| Goyaccfmt.NoDelimiter | goyaccfmt.go:97-133 | Input without any delimiter is copied verbatim, and the final Close finds no formatter, which is an error, not a success |
| Goyaccfmt.FinalClose | goyaccfmt.go:97-133 | The run's result depends only on the delimiter count and the last formatter: no delimiter is exactly the nil-formatter error; two or three (input ending in the declarations or the rules) is exactly the repeated-wait error; any other count is the result of formatting the running formatter's input |

## Left out

- `main`, flag parsing and usage (goyaccfmt.go:28-46): command-line glue.
- `goyaccfmtMain` and `cat` (goyaccfmt.go:48-86): opening files, the
  temporary file, the rename and the copy to standard output are operating
  system I/O.
- Gofmt.Gofmt.constructor: failure to start gofmt (goyaccfmt.go:109-111,
  152-154) is not modelled; the process always starts.
- Write errors on the output or the pipe (goyaccfmt.go:122-124): the
  writers of the model never fail.
- A pipe-writer Close error (goyaccfmt.go:163-165) cannot happen for
  `io.PipeWriter` and is not modelled.
- Scanner errors (goyaccfmt.go:129-131), and `bufio.Scanner`'s line
  splitting and length limit. The input is an already-split sequence of
  lines.
- The pipe and the concurrent gofmt process. gofmt reads its whole input
  before it prints anything, so a formatter is a buffer that is handed to
  the `format` parameter on Close. The text of the diagnostics is that
  parameter's, not the exact message goyaccfmt.go:168 composes.
- Goyaccfmt.Goyaccfmt: a final Close on a nil formatter is a nil-pointer
  panic in Go; the model returns this as the `NilFormatter` error instead
  of aborting.
- Text.IsSpace lists the whitespace characters of Go's `unicode.IsSpace`
  by code point but does not model UTF-8 decoding: lines are sequences of
  characters, not bytes.
