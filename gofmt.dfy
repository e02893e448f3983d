/** The gofmt formatter that the scanner drives. The real one is a child
    process fed through a pipe; gofmt reads all of its input before it
    prints anything, so here it is a buffer of text that is handed to an
    abstract formatting function when the formatter is closed. */
module Gofmt {

  datatype Result<T, E> = Ok(value: T) | Err(error: E)

  /** What the gofmt program does with its whole standard input: the
      formatted text it prints on standard output, or the diagnostics it
      prints on standard error when it exits with a failure status. */
  type Format = string -> Result<string, string>

  datatype Error =
    | FormatFailed(diagnostics: string)  // gofmt exited with a failure status
    | WaitAlreadyCalled                  // Close on a formatter that was closed before
    | NilFormatter                       // Close with no formatter: a nil dereference in Go

  /** A Go error value: nil, or an error. */
  datatype Outcome = Pass | Fail(error: Error)

  /** The scanner's formatter variable: nil, a started gofmt whose input
      so far is `input`, or a gofmt that has been closed and waited for. */
  datatype Formatter = Nil | Running(input: string) | Waited

  /** What closing a formatter writes to the output and returns. */
  datatype Closing = Closing(written: string, outcome: Outcome)

  /** Closing a formatter: a running gofmt receives end of input and is
      waited for; on success its formatted text is written, on failure
      nothing is written and its diagnostics become the error. Waiting a
      second time and closing a nil formatter fail without writing. */
  function CloseFormatter(f: Formatter, format: Format): (c: Closing)
    ensures c.outcome == Pass <==> f.Running? && format(f.input).Ok?
    ensures c.outcome == Pass ==> c.written == format(f.input).value
    ensures c.outcome != Pass ==> c.written == ""
    ensures f.Running? && format(f.input).Err? ==> c.outcome == Fail(FormatFailed(format(f.input).error))
    ensures f.Waited? ==> c.outcome == Fail(WaitAlreadyCalled)
    ensures f.Nil? ==> c.outcome == Fail(NilFormatter)
  {
    match f
    case Nil => Closing("", Fail(NilFormatter))
    case Waited => Closing("", Fail(WaitAlreadyCalled))
    case Running(input) =>
      match format(input)
      case Ok(text) => Closing(text, Pass)
      case Err(diagnostics) => Closing("", Fail(FormatFailed(diagnostics)))
  }

  /** The io.Writer the scanner writes its output to. */
  class Sink {
    var text: string

    constructor ()
      ensures text == ""
    {
      text := "";
    }

    method Write(b: string)
      modifies this
      ensures text == old(text) + b
    {
      text := text + b;
    }
  }

  /** A started gofmt process: its standard output is `out`, `input` is
      what has been written into its standard-input pipe, and `waited`
      records that Close has already waited for the process. */
  class Gofmt {
    const out: Sink
    var input: string
    var waited: bool

    function View(): Formatter
      reads this
    {
      if waited then Waited else Running(input)
    }

    /** newGofmt: a fresh gofmt with nothing written to it yet, printing to out. */
    constructor (out: Sink)
      ensures this.out == out
      ensures View() == Running("")
    {
      this.out := out;
      input := "";
      waited := false;
    }

    /** Writing into the pipe appends to gofmt's pending input. */
    method Write(b: string)
      requires !waited
      modifies this
      ensures !waited
      ensures input == old(input) + b
    {
      input := input + b;
    }

    /** Closing the pipe writer and waiting for gofmt to exit. */
    method Close(format: Format) returns (e: Outcome)
      modifies this, out
      ensures View() == Waited
      ensures out.text == old(out.text) + CloseFormatter(old(View()), format).written
      ensures e == CloseFormatter(old(View()), format).outcome
    {
      if waited {
        e := Fail(WaitAlreadyCalled);
      } else {
        waited := true;
        match format(input)
        case Ok(text) =>
          out.Write(text);
          e := Pass;
        case Err(diagnostics) =>
          e := Fail(FormatFailed(diagnostics));
      }
    }
  }
}
