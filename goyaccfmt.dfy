/** The section-tracking line scanner of goyaccfmt. It walks the lines of a
    goyacc grammar, counts delimiter lines (`%{`, `%}`, `%%`) to know which
    section it is in, and sends the lines of the preamble (between `%{` and
    `%}`) and of the appendix (after the second `%%`) through gofmt while it
    copies every other line unchanged. */
module Goyaccfmt {
  import opened Text
  import opened Gofmt

  // The sections, numbered by how many delimiter lines precede them.
  const HEAD: nat := 0      // before %{
  const PREEMBLE: nat := 1  // between %{ and %}
  const TYPES: nat := 2     // between %} and the first %%
  const RULES: nat := 3     // between the first and the second %%
  const APPENDIX: nat := 4  // after the second %%

  /** A line is a delimiter when its trimmed text is one of the three tokens. */
  predicate IsDelimiter(line: string) {
    var l := Trim(line);
    l == "%{" || l == "%}" || l == "%%"
  }

  /** The delimiter line as it is written: trimmed, then a newline. */
  function Marker(line: string): string {
    Trim(line) + "\n"
  }

  /** Only the literal section numbers 1 and 4 are sent to gofmt. */
  predicate Formattable(current: nat) {
    current == PREEMBLE || current == APPENDIX
  }

  /** The scanner's variables: the section counter, the formatter, and
      what has been written to the output so far. */
  datatype State = State(current: nat, fmtr: Formatter, out: string)

  const Start: State := State(HEAD, Nil, "")

  /** Which formatter a section number comes with: none before the first
      delimiter, the closed preamble formatter in sections 2 and 3, and a
      running one in 1, 4 and every later section. */
  predicate Valid(s: State) {
    if s.current == HEAD then s.fmtr == Nil
    else if s.current == TYPES || s.current == RULES then s.fmtr == Waited
    else s.fmtr.Running?
  }

  /** One iteration of the scanning loop; it keeps the section number and
      the formatter in step. */
  function Step(s: State, line: string, format: Format): (r: State)
    requires Valid(s)
    ensures Valid(r)
  {
    if IsDelimiter(line) then
      var c := s.current + 1;
      if Formattable(c) then
        State(c, Running(""), s.out + Marker(line))
      else if c == TYPES then
        // The preamble formatter is closed; its error is discarded.
        State(c, Waited, s.out + CloseFormatter(s.fmtr, format).written + Marker(line))
      else
        State(c, s.fmtr, s.out + Marker(line))
    else if Formattable(s.current) then
      State(s.current, Running(s.fmtr.input + (line + "\n")), s.out)
    else
      State(s.current, s.fmtr, s.out + (line + "\n"))
  }

  /** The number of delimiter lines in lines. */
  function Delimiters(lines: seq<string>): nat {
    if lines == [] then 0
    else Delimiters(lines[..|lines| - 1]) + (if IsDelimiter(lines[|lines| - 1]) then 1 else 0)
  }

  /** No line of lines is a delimiter. */
  predicate NoDelimiters(lines: seq<string>) {
    forall k :: 0 <= k < |lines| ==> !IsDelimiter(lines[k])
  }

  /** The lines, each followed by a newline. */
  function Lines(lines: seq<string>): string {
    if lines == [] then "" else Lines(lines[..|lines| - 1]) + (lines[|lines| - 1] + "\n")
  }

  /** The scanning loop over lines, from state s. */
  function Scan(s: State, lines: seq<string>, format: Format): (r: State)
    requires Valid(s)
    ensures Valid(r)
  {
    if lines == [] then s
    else Step(Scan(s, lines[..|lines| - 1], format), lines[|lines| - 1], format)
  }

  /** The output text and the returned error of one whole run. */
  datatype Output = Output(text: string, outcome: Outcome)

  /** A whole run: the loop, then the final Close of whatever formatter
      is current. */
  function Processed(lines: seq<string>, format: Format): (o: Output)
  {
    var s := Scan(Start, lines, format);
    var c := CloseFormatter(s.fmtr, format);
    Output(s.out + c.written, c.outcome)
  }

  function FormatterOf(f: Gofmt?): Formatter
    reads f
  {
    if f == null then Nil else f.View()
  }

  /** goyaccfmt: copies lines into out, formatting the preamble and the
      appendix, and returns the error of the final Close. */
  method Goyaccfmt(lines: seq<string>, format: Format, out: Sink) returns (e: Outcome)
    modifies out
    ensures out.text == old(out.text) + Processed(lines, format).text
    ensures e == Processed(lines, format).outcome
  {
    var fmtr: Gofmt? := null;
    var current := HEAD;
    var i := 0;
    ghost var st := Start;
    while i < |lines|
      invariant 0 <= i <= |lines|
      invariant fmtr != null ==> fresh(fmtr) && fmtr.out == out
      invariant Valid(st) && st == Scan(Start, lines[..i], format)
      invariant st.current == current && st.fmtr == FormatterOf(fmtr)
      invariant out.text == old(out.text) + st.out
    {
      assert lines[..i + 1][..i] == lines[..i];
      current, fmtr := ScanLine(lines[i], format, out, current, fmtr, old(out.text), st);
      st := Step(st, lines[i], format);
      i := i + 1;
    }
    assert lines[..i] == lines;
    if fmtr == null {
      e := Fail(NilFormatter);
    } else {
      e := fmtr.Close(format);
    }
  }

  /** The body of the scanning loop: handles one line, given the scanner
      state st that current and fmtr stand for and whose output so far
      follows `before` in out. */
  method ScanLine(line: string, format: Format, out: Sink, current: nat, fmtr: Gofmt?,
                  ghost before: string, ghost st: State)
    returns (current': nat, fmtr': Gofmt?)
    requires Valid(st) && st.current == current && st.fmtr == FormatterOf(fmtr)
    requires fmtr != null ==> fmtr.out == out
    requires out.text == before + st.out
    modifies out, fmtr
    ensures fmtr' != null ==> fmtr'.out == out && (fmtr' == fmtr || fresh(fmtr'))
    ensures current' == Step(st, line, format).current
    ensures FormatterOf(fmtr') == Step(st, line, format).fmtr
    ensures out.text == before + Step(st, line, format).out
  {
    current', fmtr' := current, fmtr;
    if IsDelimiter(line) {
      var l := Trim(line);
      current' := current + 1;
      ghost var flushed := "";
      if Formattable(current') {
        fmtr' := new Gofmt(out);
      } else if current' == TYPES {
        var ignored := fmtr.Close(format);
        flushed := CloseFormatter(st.fmtr, format).written;
      }
      out.Write(l + "\n");
      AppendAssoc(before, st.out + flushed, l + "\n");
      AppendAssoc(before, st.out, flushed);
    } else if Formattable(current) {
      ghost var input := fmtr.input;
      fmtr.Write(line);
      fmtr.Write("\n");
      AppendAssoc(input, line, "\n");
    } else {
      out.Write(line);
      out.Write("\n");
      AppendAssoc(before + st.out, line, "\n");
      AppendAssoc(before, st.out, line + "\n");
    }
  }

  // String identities, stated for the specific terms a proof needs so the
  // solver does not have to discover them itself.
  lemma AppendAssoc(a: string, b: string, c: string)
    ensures a + b + c == a + (b + c)
  {
  }

  lemma EmptyAppend(a: string)
    ensures "" + a == a
  {
  }

  lemma AppendEmpty(a: string)
    ensures a + "" == a
  {
  }

  /** Scanning a concatenation is scanning its parts one after the other. */
  lemma {:induction false} ScanConcat(s: State, a: seq<string>, b: seq<string>, format: Format)
    requires Valid(s)
    ensures Scan(s, a + b, format) == Scan(Scan(s, a, format), b, format)
  {
    if b == [] {
      assert a + b == a;
    } else {
      var b' := b[..|b| - 1];
      assert (a + b)[..|a + b| - 1] == a + b';
      assert (a + b)[|a + b| - 1] == b[|b| - 1];
      ScanConcat(s, a, b', format);
    }
  }

  lemma ScanSnoc(s: State, p: seq<string>, d: string, format: Format)
    requires Valid(s)
    ensures Scan(s, p + [d], format) == Step(Scan(s, p, format), d, format)
  {
    assert (p + [d])[..|p|] == p;
  }

  /** The section counter goes up by exactly one for every delimiter line,
      whichever of the three tokens it is, and by nothing for other lines;
      so it never goes down. */
  lemma {:induction false} ScanCounter(s: State, lines: seq<string>, format: Format)
    requires Valid(s)
    ensures Scan(s, lines, format).current == s.current + Delimiters(lines)
  {
    if lines != [] {
      ScanCounter(s, lines[..|lines| - 1], format);
    }
  }

  /** Reading more lines never moves the section counter back. */
  lemma CounterNeverDecreases(s: State, a: seq<string>, b: seq<string>, format: Format)
    requires Valid(s)
    ensures Scan(s, a, format).current <= Scan(s, a + b, format).current
  {
    ScanConcat(s, a, b, format);
    ScanCounter(Scan(s, a, format), b, format);
  }

  /** One step only appends to the output. */
  lemma StepGrows(r: State, line: string, format: Format)
    requires Valid(r)
    ensures r.out <= Step(r, line, format).out
  {
  }

  /** The output is only ever appended to: what has been written stays at
      the front of the output. */
  lemma {:induction false} OutputGrows(s: State, lines: seq<string>, format: Format)
    requires Valid(s)
    ensures s.out <= Scan(s, lines, format).out
  {
    if lines != [] {
      var r := Scan(s, lines[..|lines| - 1], format);
      var t := Scan(s, lines, format);
      OutputGrows(s, lines[..|lines| - 1], format);
      StepGrows(r, lines[|lines| - 1], format);
      assert t.out[..|s.out|] == r.out[..|s.out|];
    }
  }

  /** Lines without delimiters, outside the preamble and the appendix, are
      copied to the output verbatim, each followed by a newline, and
      nothing else changes. This holds in sections 5 and above too. */
  lemma {:induction false} PassThrough(s: State, lines: seq<string>, format: Format)
    requires Valid(s) && !Formattable(s.current) && NoDelimiters(lines)
    ensures Scan(s, lines, format) == s.(out := s.out + Lines(lines))
  {
    if lines != [] {
      var init := lines[..|lines| - 1];
      PassThrough(s, init, format);
      AppendAssoc(s.out, Lines(init), lines[|lines| - 1] + "\n");
    } else {
      AppendEmpty(s.out);
    }
  }

  /** Lines without delimiters inside the preamble or the appendix go into
      the formatter's input, each followed by a newline; nothing is written
      to the output for them. */
  lemma {:induction false} Buffered(s: State, lines: seq<string>, format: Format)
    requires Valid(s) && Formattable(s.current) && NoDelimiters(lines)
    ensures Scan(s, lines, format) == s.(fmtr := Running(s.fmtr.input + Lines(lines)))
  {
    if lines != [] {
      var init := lines[..|lines| - 1];
      Buffered(s, init, format);
      AppendAssoc(s.fmtr.input, Lines(init), lines[|lines| - 1] + "\n");
    } else {
      AppendEmpty(s.fmtr.input);
    }
  }

  /** The text a formatter result puts into the output. */
  function Written(r: Result<string, string>): string {
    if r.Ok? then r.value else ""
  }

  /** The error a formatter result turns into. */
  function OutcomeOf(r: Result<string, string>): Outcome {
    if r.Ok? then Pass else Fail(FormatFailed(r.error))
  }

  /** A delimiter line followed by lines without delimiters. Entering the
      preamble or the appendix starts a fresh formatter, with none of the
      earlier sections' lines, that receives the section's lines; in any
      other section the lines are copied. */
  lemma Segment(s: State, p: seq<string>, d: string, body: seq<string>, format: Format)
    requires Valid(s) && IsDelimiter(d) && NoDelimiters(body)
    ensures var t := Step(Scan(s, p, format), d, format);
      Scan(s, p + [d] + body, format)
        == if Formattable(t.current) then t.(fmtr := Running(Lines(body)))
           else t.(out := t.out + Lines(body))
  {
    ScanConcat(s, p + [d], body, format);
    ScanSnoc(s, p, d, format);
    var t := Step(Scan(s, p, format), d, format);
    if Formattable(t.current) {
      assert t.fmtr == Running("");
      Buffered(t, body, format);
      EmptyAppend(Lines(body));
    } else {
      PassThrough(t, body, format);
    }
  }

  /** After `%{` and the preamble: the head copied, the delimiter written,
      and a fresh formatter holding exactly the preamble's lines. */
  lemma Opened(head: seq<string>, d1: string, preamble: seq<string>, format: Format)
    requires IsDelimiter(d1) && NoDelimiters(head) && NoDelimiters(preamble)
    ensures Scan(Start, head + [d1] + preamble, format)
         == State(PREEMBLE, Running(Lines(preamble)), Lines(head) + Marker(d1))
  {
    PassThrough(Start, head, format);
    EmptyAppend(Lines(head));
    Segment(Start, head, d1, preamble, format);
  }

  /** After `%}` and the declarations: the preamble's formatter has been
      closed, its formatted text written before the delimiter, and the
      declarations copied. */
  lemma Declared(head: seq<string>, d1: string, preamble: seq<string>, d2: string,
                 decls: seq<string>, format: Format)
    requires IsDelimiter(d1) && IsDelimiter(d2)
    requires NoDelimiters(head) && NoDelimiters(preamble) && NoDelimiters(decls)
    ensures Scan(Start, head + [d1] + preamble + [d2] + decls, format)
         == State(TYPES, Waited, Lines(head) + Marker(d1) + Written(format(Lines(preamble)))
                                 + Marker(d2) + Lines(decls))
  {
    Opened(head, d1, preamble, format);
    Segment(Start, head + [d1] + preamble, d2, decls, format);
  }

  /** After the first `%%` and the rules: the rules are copied too. */
  lemma Ruled(head: seq<string>, d1: string, preamble: seq<string>, d2: string,
              decls: seq<string>, d3: string, rules: seq<string>, format: Format)
    requires IsDelimiter(d1) && IsDelimiter(d2) && IsDelimiter(d3)
    requires NoDelimiters(head) && NoDelimiters(preamble) && NoDelimiters(decls)
    requires NoDelimiters(rules)
    ensures Scan(Start, head + [d1] + preamble + [d2] + decls + [d3] + rules, format)
         == State(RULES, Waited, Lines(head) + Marker(d1) + Written(format(Lines(preamble)))
                                 + Marker(d2) + Lines(decls) + Marker(d3) + Lines(rules))
  {
    Declared(head, d1, preamble, d2, decls, format);
    Segment(Start, head + [d1] + preamble + [d2] + decls, d3, rules, format);
  }

  /** The state after the last delimiter of a well-formed grammar: head,
      declarations and rules copied verbatim, every delimiter written
      trimmed, the formatted preamble written before the second delimiter
      whether or not formatting succeeded, and a formatter for the appendix
      holding exactly the appendix's lines. */
  lemma ScanWellFormed(head: seq<string>, d1: string, preamble: seq<string>, d2: string,
                       decls: seq<string>, d3: string, rules: seq<string>, d4: string,
                       appendix: seq<string>, format: Format)
    requires IsDelimiter(d1) && IsDelimiter(d2) && IsDelimiter(d3) && IsDelimiter(d4)
    requires NoDelimiters(head) && NoDelimiters(preamble) && NoDelimiters(decls)
    requires NoDelimiters(rules) && NoDelimiters(appendix)
    ensures Scan(Start, head + [d1] + preamble + [d2] + decls + [d3] + rules + [d4] + appendix, format)
         == State(APPENDIX, Running(Lines(appendix)),
                  Lines(head) + Marker(d1) + Written(format(Lines(preamble))) + Marker(d2)
                  + Lines(decls) + Marker(d3) + Lines(rules) + Marker(d4))
  {
    Ruled(head, d1, preamble, d2, decls, d3, rules, format);
    Segment(Start, head + [d1] + preamble + [d2] + decls + [d3] + rules, d4, appendix, format);
  }

  /** The end of a run whose scan leaves a running formatter: its
      formatting result is appended and becomes the result of the run. */
  lemma Finish(lines: seq<string>, q: State, format: Format)
    requires Scan(Start, lines, format) == q && q.fmtr.Running?
    ensures Processed(lines, format)
         == Output(q.out + Written(format(q.fmtr.input)), OutcomeOf(format(q.fmtr.input)))
  {
  }

  /** The end of a run whose scan leaves the preamble's formatter, already
      waited for: nothing more is written and the run fails. */
  lemma FinishWaited(lines: seq<string>, q: State, format: Format)
    requires Scan(Start, lines, format) == q && q.fmtr.Waited?
    ensures Processed(lines, format) == Output(q.out, Fail(WaitAlreadyCalled))
  {
    AppendEmpty(q.out);
  }

  /** A well-formed grammar: head, preamble, declarations, rules and
      appendix separated by four delimiter lines. Head, declarations and
      rules are copied verbatim; each delimiter is written trimmed; the
      preamble's formatted text comes before the second delimiter and a
      preamble formatting failure is ignored; the appendix, which no
      delimiter closes, is still formatted at the end, from its own lines
      alone, and its formatting result is the result of the run. */
  lemma WellFormed(head: seq<string>, d1: string, preamble: seq<string>, d2: string,
                   decls: seq<string>, d3: string, rules: seq<string>, d4: string,
                   appendix: seq<string>, format: Format)
    requires IsDelimiter(d1) && IsDelimiter(d2) && IsDelimiter(d3) && IsDelimiter(d4)
    requires NoDelimiters(head) && NoDelimiters(preamble) && NoDelimiters(decls)
    requires NoDelimiters(rules) && NoDelimiters(appendix)
    ensures Processed(head + [d1] + preamble + [d2] + decls + [d3] + rules + [d4] + appendix, format)
         == Output(Lines(head) + Marker(d1) + Written(format(Lines(preamble))) + Marker(d2)
                   + Lines(decls) + Marker(d3) + Lines(rules) + Marker(d4)
                   + Written(format(Lines(appendix))),
                   OutcomeOf(format(Lines(appendix))))
  {
    ScanWellFormed(head, d1, preamble, d2, decls, d3, rules, d4, appendix, format);
    Finish(head + [d1] + preamble + [d2] + decls + [d3] + rules + [d4] + appendix,
           State(APPENDIX, Running(Lines(appendix)),
                 Lines(head) + Marker(d1) + Written(format(Lines(preamble))) + Marker(d2)
                 + Lines(decls) + Marker(d3) + Lines(rules) + Marker(d4)), format);
  }

  /** A delimiter after the appendix moves the counter past 4, where lines
      are no longer formatted: they are copied verbatim, and the appendix
      formatter, still open, writes its formatted text after them at the
      end of input, its result being the result of the run. */
  lemma BeyondAppendix(lines: seq<string>, d: string, extra: seq<string>, format: Format)
    requires Scan(Start, lines, format).current >= APPENDIX
    requires IsDelimiter(d) && NoDelimiters(extra)
    ensures var q := Scan(Start, lines, format);
      Processed(lines + [d] + extra, format)
        == Output(q.out + Marker(d) + Lines(extra) + Written(format(q.fmtr.input)),
                  OutcomeOf(format(q.fmtr.input)))
  {
    var q := Scan(Start, lines, format);
    Segment(Start, lines, d, extra, format);
    Finish(lines + [d] + extra, State(q.current + 1, q.fmtr, q.out + Marker(d) + Lines(extra)), format);
  }

  /** Input that ends inside the preamble: the preamble is still formatted
      and its formatting result is the result of the run. */
  lemma UnclosedPreamble(head: seq<string>, d1: string, preamble: seq<string>, format: Format)
    requires IsDelimiter(d1) && NoDelimiters(head) && NoDelimiters(preamble)
    ensures Processed(head + [d1] + preamble, format)
         == Output(Lines(head) + Marker(d1) + Written(format(Lines(preamble))),
                   OutcomeOf(format(Lines(preamble))))
  {
    assert Scan(Start, head, format) == State(HEAD, Nil, Lines(head)) by {
      PassThrough(Start, head, format);
      EmptyAppend(Lines(head));
    }
    Segment(Start, head, d1, preamble, format);
  }

  /** A grammar with a single `%%` and no appendix: everything is written,
      but the final Close waits a second time for the preamble's gofmt,
      so the run fails. */
  lemma MissingAppendix(head: seq<string>, d1: string, preamble: seq<string>, d2: string,
                        decls: seq<string>, d3: string, rules: seq<string>, format: Format)
    requires IsDelimiter(d1) && IsDelimiter(d2) && IsDelimiter(d3)
    requires NoDelimiters(head) && NoDelimiters(preamble) && NoDelimiters(decls)
    requires NoDelimiters(rules)
    ensures Processed(head + [d1] + preamble + [d2] + decls + [d3] + rules, format)
         == Output(Lines(head) + Marker(d1) + Written(format(Lines(preamble))) + Marker(d2)
                   + Lines(decls) + Marker(d3) + Lines(rules),
                   Fail(WaitAlreadyCalled))
  {
    var input := head + [d1] + preamble + [d2] + decls + [d3] + rules;
    Ruled(head, d1, preamble, d2, decls, d3, rules, format);
    FinishWaited(input, Scan(Start, input, format), format);
  }

  /** Input without any delimiter is copied verbatim, and the final Close
      finds no formatter. */
  lemma NoDelimiter(lines: seq<string>, format: Format)
    requires NoDelimiters(lines)
    ensures Processed(lines, format) == Output(Lines(lines), Fail(NilFormatter))
  {
    PassThrough(Start, lines, format);
    EmptyAppend(Lines(lines));
    AppendEmpty(Lines(lines));
  }

  /** The result of a run depends on how many delimiters there were: none
      is the nil-formatter failure; two or three (input ending in the
      declarations or the rules) is the repeated-wait failure; any other
      number is the result of formatting the section left open. */
  lemma FinalClose(lines: seq<string>, format: Format)
    ensures var o := Processed(lines, format);
      && (Delimiters(lines) == 0 <==> o.outcome == Fail(NilFormatter))
      && (Delimiters(lines) == 2 || Delimiters(lines) == 3 <==> o.outcome == Fail(WaitAlreadyCalled))
      && (Delimiters(lines) !in {0, 2, 3} ==>
            var f := Scan(Start, lines, format).fmtr;
            f.Running? && o.outcome == OutcomeOf(format(f.input)))
  {
    ScanCounter(Start, lines, format);
  }

  /** A delimiter token with whitespace around it is still a delimiter, and
      is written as the bare token. */
  lemma DelimiterPadded(a: string, t: string, b: string)
    requires AllSpace(a) && AllSpace(b)
    requires t == "%{" || t == "%}" || t == "%%"
    ensures IsDelimiter(a + t + b)
    ensures Marker(a + t + b) == t + "\n"
  {
    TrimPadded(a, t, b);
  }
}
