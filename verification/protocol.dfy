/** The records of the line-oriented drawing protocol, and the draw options
    every drawable reads. Text formatting of the numbers is not modelled: a
    record carries the exact values that would be printed. */
module Protocol {
  import opened Results

  /** One record of the output stream: a keyword line and its parameters. */
  datatype Record =
    | PointRecord(x: real, y: real, newline: bool)  // `point`, then `x y`; the newline is missing in perspective mode
    | LineRecord(x1: real, y1: real, x2: real, y2: real)  // `line`, then `x1 y1 x2 y2`
    | DelayRecord(param: DelayParam)  // `delay`, then its parameter
    | ClearRecord  // `clrscr`
    | EndRecord  // `end`

  /** The parameter line of a `delay` record: the printed text of some
      object, or a number of seconds. */
  datatype DelayParam = Printed(text: string) | Seconds(value: real)

  /** A record a drawable writes, as opposed to the frame-control records
      the writer itself emits. */
  predicate IsDrawing(r: Record) {
    r.PointRecord? || r.LineRecord?
  }

  /** An output sink: a file the writer opens by name, or a stream the
      caller already holds. */
  datatype Sink = FileSink(path: string) | CallerSink(id: nat)

  /** The draw options; `output` is the sink, or None before the writer
      has opened one and after it has closed its own. */
  datatype DrawConfig = DrawConfig(
    outputName: string,
    focus: real,
    transparent: bool,
    perspective: bool,
    output: Option<Sink>)
}
