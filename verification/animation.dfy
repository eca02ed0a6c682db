/** The frame writer: a buffer of drawables and an output sink, with the
    operations that fill the buffer and write frames to the sink. The sink
    is modelled by the records written to it and whether it is open. */
module Animation {
  import opened Results
  import opened Vectors
  import opened Protocol
  import opened Shapes
  import opened CubeModel

  // ---------------------------------------------------------------------
  // Drawables

  /** The drawable kinds: a closed set, each drawn by its own routine. */
  datatype Item = PointItem(p: Point) | EdgeItem(e: Edge) | PolygonItem(poly: Polygon) | CubeItem(cube: Cube)

  /** Drawing the item does not divide by zero. */
  predicate ItemDrawable(item: Item, cfg: DrawConfig) {
    match item
    case PointItem(_) => true
    case EdgeItem(e) => EdgeProjectable(e, cfg)
    case PolygonItem(poly) => PolygonDrawable(poly, cfg)
    case CubeItem(cube) => Valid(cube) && CubeDrawable(cube, cfg)
  }

  /** `item.draw(config)`: the records the item writes. An item writes only
      `point` and `line` records, never a frame-control record: at most one
      for a point, one for an edge, one per vertex for a polygon, and one
      per table edge for a transparent cube. */
  function ItemRecords(item: Item, cfg: DrawConfig): (rs: seq<Record>)
    requires ItemDrawable(item, cfg)
    ensures forall i | 0 <= i < |rs| :: IsDrawing(rs[i])
    ensures item.PointItem? ==> |rs| <= 1 && (rs == [] <==> item.p.z == cfg.focus)
    ensures item.EdgeItem? ==> |rs| == 1
    ensures item.PolygonItem? ==> |rs| == |item.poly.vertices|
    ensures item.CubeItem? && cfg.transparent ==> |rs| == 12
  {
    match item
    case PointItem(p) => PointRecords(p, cfg)
    case EdgeItem(e) => [EdgeRecord(e, cfg)]
    case PolygonItem(poly) => PolygonRecords(poly, cfg)
    case CubeItem(cube) => CubeRecords(cube, cfg)
  }

  predicate AllDrawable(items: seq<Item>, cfg: DrawConfig) {
    forall i | 0 <= i < |items| :: ItemDrawable(items[i], cfg)
  }

  /** The records of the items, drawn one after another in order. */
  function ItemsRecords(items: seq<Item>, cfg: DrawConfig): (rs: seq<Record>)
    requires AllDrawable(items, cfg)
    ensures forall i | 0 <= i < |rs| :: IsDrawing(rs[i])
  {
    if items == [] then []
    else ItemsRecords(items[..|items| - 1], cfg) + ItemRecords(items[|items| - 1], cfg)
  }

  /** Drawing the buffer with one more item draws that item last. */
  lemma FrameOfAppended(items: seq<Item>, item: Item, cfg: DrawConfig)
    requires AllDrawable(items, cfg) && ItemDrawable(item, cfg)
    ensures AllDrawable(items + [item], cfg)
    ensures ItemsRecords(items + [item], cfg) == ItemsRecords(items, cfg) + ItemRecords(item, cfg)
  {
    var all := items + [item];
    assert all[..|items|] == items;
    forall i | 0 <= i < |all|
      ensures ItemDrawable(all[i], cfg)
    {
      if i < |items| {
        assert all[i] == items[i];
      }
    }
  }

  /** Splitting off the last element of the second part of a concatenation. */
  lemma SplitLast<T>(a: seq<T>, b: seq<T>)
    requires |b| > 0
    ensures b == b[..|b| - 1] + [b[|b| - 1]]
    ensures a + b == (a + b[..|b| - 1]) + [b[|b| - 1]]
  {
  }

  lemma ConcatAssociative<T>(x: seq<T>, y: seq<T>, z: seq<T>)
    ensures (x + y) + z == x + (y + z)
  {
  }

  lemma AllDrawableAppend(a: seq<Item>, b: seq<Item>, cfg: DrawConfig)
    requires AllDrawable(a, cfg) && AllDrawable(b, cfg)
    ensures AllDrawable(a + b, cfg)
  {
    forall i | 0 <= i < |a + b|
      ensures ItemDrawable((a + b)[i], cfg)
    {
      if i < |a| {
        assert (a + b)[i] == a[i];
      } else {
        assert (a + b)[i] == b[i - |a|];
      }
    }
  }

  /** A frame writes nothing exactly when every item in it draws nothing
      (a buffer of points in the plane of the eye, say). */
  lemma {:induction false} ItemsRecordsEmpty(items: seq<Item>, cfg: DrawConfig)
    requires AllDrawable(items, cfg)
    ensures ItemsRecords(items, cfg) == [] <==> forall i | 0 <= i < |items| :: ItemRecords(items[i], cfg) == []
    decreases |items|
  {
    if items != [] {
      var n := |items| - 1;
      var init := items[..n];
      assert AllDrawable(init, cfg) by {
        forall i | 0 <= i < n
          ensures ItemDrawable(init[i], cfg)
        {
          assert init[i] == items[i];
        }
      }
      ItemsRecordsEmpty(init, cfg);
      var front, last := ItemsRecords(init, cfg), ItemRecords(items[n], cfg);
      assert ItemsRecords(items, cfg) == front + last;
      assert |front + last| == |front| + |last|;
      if forall i | 0 <= i < |items| :: ItemRecords(items[i], cfg) == [] {
        assert forall i | 0 <= i < n :: ItemRecords(init[i], cfg) == [] by {
          forall i | 0 <= i < n
            ensures ItemRecords(init[i], cfg) == []
          {
            assert init[i] == items[i];
          }
        }
      } else if front == [] && last == [] {
        forall i | 0 <= i < |items|
          ensures ItemRecords(items[i], cfg) == []
        {
          if i < n {
            assert init[i] == items[i];
          } else {
            assert i == n;
          }
        }
      }
    }
  }

  /** Drawing a concatenation draws the parts in turn. */
  lemma {:induction false} ItemsRecordsAppend(a: seq<Item>, b: seq<Item>, cfg: DrawConfig)
    requires AllDrawable(a, cfg) && AllDrawable(b, cfg)
    ensures AllDrawable(a + b, cfg)
    ensures ItemsRecords(a + b, cfg) == ItemsRecords(a, cfg) + ItemsRecords(b, cfg)
    decreases |b|
  {
    AllDrawableAppend(a, b, cfg);
    if b == [] {
      assert a + b == a;
    } else {
      var n := |b| - 1;
      var init, x := b[..n], b[n];
      SplitLast(a, b);
      AllDrawableAppend(a, init, cfg) by {
        assert AllDrawable(init, cfg) by {
          forall i | 0 <= i < n
            ensures ItemDrawable(init[i], cfg)
          {
            assert init[i] == b[i];
          }
        }
      }
      assert ItemDrawable(x, cfg);
      calc {
        ItemsRecords(a + b, cfg);
        ItemsRecords((a + init) + [x], cfg);
        { FrameOfAppended(a + init, x, cfg); }
        ItemsRecords(a + init, cfg) + ItemRecords(x, cfg);
        { ItemsRecordsAppend(a, init, cfg); }
        (ItemsRecords(a, cfg) + ItemsRecords(init, cfg)) + ItemRecords(x, cfg);
        { ConcatAssociative(ItemsRecords(a, cfg), ItemsRecords(init, cfg), ItemRecords(x, cfg)); }
        ItemsRecords(a, cfg) + (ItemsRecords(init, cfg) + ItemRecords(x, cfg));
        { FrameOfAppended(init, x, cfg); }
        ItemsRecords(a, cfg) + ItemsRecords(init + [x], cfg);
      }
    }
  }

  // ---------------------------------------------------------------------
  // The writer

  /** Frame timing and the draw options; a passive record. */
  datatype AnimationConfig = AnimationConfig(delay: real, iterations: int, draw: DrawConfig)

  /** Why a write fails: the sink was closed, or the draw options no
      longer name a sink at all. */
  datatype WriteError = SinkClosed | NoSink

  /** The writer's state. `sink` is the stream it writes its own records
      to, `open` whether that stream is still open, `out` every record
      written to it, and `delayText` the printed form of the writer's own
      `delay` method, which is what each `delay` record carries. */
  datatype Writer = Writer(
    config: AnimationConfig,
    ownsOutput: bool,
    sink: Sink,
    open: bool,
    buffer: seq<Item>,
    out: seq<Record>,
    delayText: string)

  /** The draw options name the writer's sink exactly while it is open,
      and a sink the writer does not own is never closed by it. */
  predicate Consistent(w: Writer) {
    && (w.open <==> w.config.draw.output == Some(w.sink))
    && (!w.ownsOutput ==> w.open)
  }

  /** `AnimationMaker(config)`: opens the named file when the options name
      no sink, and owns it exactly then. */
  function New(config: AnimationConfig, delayText: string): (w: Writer)
    ensures w.ownsOutput <==> config.draw.output.None?
    ensures config.draw.output.Some? ==> w.sink == config.draw.output.value
    ensures config.draw.output.None? ==> w.sink == FileSink(config.draw.outputName)
    ensures w.config == config.(draw := config.draw.(output := Some(w.sink)))
    ensures w.open && w.buffer == [] && w.out == [] && Consistent(w)
    ensures w.delayText == delayText
  {
    var sink := if config.draw.output.None? then FileSink(config.draw.outputName) else config.draw.output.value;
    Writer(config.(draw := config.draw.(output := Some(sink))), config.draw.output.None?, sink, true, [], [],
           delayText)
  }

  /** `add`: the item goes to the end of the buffer; nothing is written. */
  function Add(w: Writer, item: Item): (w': Writer)
    ensures |w'.buffer| == |w.buffer| + 1 && w'.buffer[|w.buffer|] == item
    ensures w'.buffer[..|w.buffer|] == w.buffer
    ensures w' == w.(buffer := w'.buffer)
  {
    w.(buffer := w.buffer + [item])
  }

  /** Appending records to the writer's own sink, which fails once the
      sink is closed. */
  function Write(w: Writer, rs: seq<Record>): (r: Result<Writer, WriteError>)
    ensures r.Success? <==> w.open
    ensures r.Failure? ==> r.error == SinkClosed
    ensures r.Success? ==> r.value == w.(out := w.out + rs)
  {
    if w.open then Success(w.(out := w.out + rs)) else Failure(SinkClosed)
  }

  /** `delay`: a `delay` record whose parameter is the printed writer
      method, not the configured delay. */
  function Delay(w: Writer): (r: Result<Writer, WriteError>)
    ensures r.Success? <==> w.open
    ensures r.Success? ==> |r.value.out| == |w.out| + 1 && r.value.out[|w.out|].DelayRecord?
    ensures r.Success? ==> r.value.out[..|w.out|] == w.out && r.value.buffer == w.buffer && r.value.open
    ensures r.Success? ==> r.value == w.(out := w.out + [DelayRecord(Printed(w.delayText))])
  {
    Write(w, [DelayRecord(Printed(w.delayText))])
  }

  /** `clear`: a `clrscr` record. */
  function Clear(w: Writer): (r: Result<Writer, WriteError>)
    ensures r.Success? <==> w.open
    ensures r.Success? ==> r.value == w.(out := w.out + [ClearRecord])
  {
    Write(w, [ClearRecord])
  }

  /** `commit`: every buffered item's records through the draw options'
      sink, in buffer order, then `delay` and `clear`. The buffer is kept. */
  function Commit(w: Writer): (r: Result<Writer, WriteError>)
    requires Consistent(w) && AllDrawable(w.buffer, w.config.draw)
    ensures r.Success? <==> w.open
    ensures r.Success? ==> r.value == w.(out := w.out + ItemsRecords(w.buffer, w.config.draw)
                                                   + [DelayRecord(Printed(w.delayText)), ClearRecord])
  {
    var frame := ItemsRecords(w.buffer, w.config.draw);
    if frame != [] && w.config.draw.output.None? then Failure(NoSink)
    else
      var w1 := w.(out := w.out + frame);
      var r1 := Delay(w1);
      if r1.Failure? then Failure(r1.error)
      else Clear(r1.value)
  }

  /** `end`: an `end` record; a sink the writer opened is then closed and
      removed from the draw options, a caller's sink is left alone. */
  function End(w: Writer): (r: Result<Writer, WriteError>)
    ensures r.Success? <==> w.open
    ensures r.Success? ==>
      && r.value.out == w.out + [EndRecord]
      && r.value.open == !w.ownsOutput
      && r.value.config.draw.output == (if w.ownsOutput then None else w.config.draw.output)
      && r.value.buffer == w.buffer && r.value.sink == w.sink && r.value.ownsOutput == w.ownsOutput
    ensures r.Success? ==>
      r.value == w.(out := w.out + [EndRecord], open := !w.ownsOutput,
                    config := if w.ownsOutput then w.config.(draw := w.config.draw.(output := None)) else w.config)
  {
    var r := Write(w, [EndRecord]);
    if r.Failure? || !w.ownsOutput then r
    else Success(r.value.(open := false, config := w.config.(draw := w.config.draw.(output := None))))
  }

  // ---------------------------------------------------------------------
  // Properties of the writer

  /** Drawing reads the view options only: the records of an item do not
      depend on which sink the options name. */
  lemma {:induction false} RecordsIgnoreSink(item: Item, cfg: DrawConfig, o: Option<Sink>)
    requires ItemDrawable(item, cfg)
    ensures ItemDrawable(item, cfg.(output := o))
    ensures ItemRecords(item, cfg.(output := o)) == ItemRecords(item, cfg)
  {
    var cfg' := cfg.(output := o);
    if item.CubeItem? {
      var cube := item.cube;
      var faces := Faces(cube);
      assert forall f | 0 <= f < 6 :: FaceVisible(faces[f], cube.c, cfg') == FaceVisible(faces[f], cube.c, cfg);
      assert Visibility(faces, cube.c, cfg') == Visibility(faces, cube.c, cfg);
      assert OpaqueEdges(cube, cfg') == OpaqueEdges(cube, cfg);
      assert CubeDrawable(cube, cfg');
      RecordsOfUnique(CubeRecords(cube, cfg'), CubeRecords(cube, cfg), if cfg.transparent then Edges(cube) else OpaqueEdges(cube, cfg), cfg);
    }
  }

  lemma {:induction false} FrameIgnoresSink(items: seq<Item>, cfg: DrawConfig, o: Option<Sink>)
    requires AllDrawable(items, cfg)
    ensures AllDrawable(items, cfg.(output := o))
    ensures ItemsRecords(items, cfg.(output := o)) == ItemsRecords(items, cfg)
    decreases |items|
  {
    forall i | 0 <= i < |items|
      ensures ItemDrawable(items[i], cfg.(output := o))
    {
      RecordsIgnoreSink(items[i], cfg, o);
    }
    if items != [] {
      var n := |items| - 1;
      assert AllDrawable(items[..n], cfg);
      FrameIgnoresSink(items[..n], cfg, o);
      RecordsIgnoreSink(items[n], cfg, o);
    }
  }

  /** Every operation that succeeds keeps the writer consistent. */
  lemma OperationsKeepConsistent(w: Writer, item: Item)
    requires Consistent(w)
    ensures Consistent(Add(w, item))
    ensures Delay(w).Success? ==> Consistent(Delay(w).value)
    ensures Clear(w).Success? ==> Consistent(Clear(w).value)
    ensures End(w).Success? ==> Consistent(End(w).value)
    ensures AllDrawable(w.buffer, w.config.draw) && Commit(w).Success? ==> Consistent(Commit(w).value)
  {
  }

  /** Once `end` has closed a sink the writer opened, every later write
      fails: the writer's own records meet a closed stream, and a non-empty
      frame first meets draw options that name no sink at all. */
  lemma EndOwnedThenEverythingFails(w: Writer)
    requires Consistent(w) && w.open && w.ownsOutput
    requires AllDrawable(w.buffer, w.config.draw)
    ensures End(w).Success?
    ensures var w' := End(w).value;
      && !w'.open && w'.config.draw.output == None && Consistent(w')
      && Delay(w') == Failure(SinkClosed) && Clear(w') == Failure(SinkClosed) && End(w') == Failure(SinkClosed)
      && AllDrawable(w'.buffer, w'.config.draw)
      && Commit(w') == Failure(if ItemsRecords(w.buffer, w.config.draw) == [] then SinkClosed else NoSink)
  {
    var w' := End(w).value;
    FrameIgnoresSink(w.buffer, w.config.draw, None);
    assert w'.config.draw == w.config.draw.(output := None);
  }

  /** A sink the caller passed in stays open after `end`: the writer
      keeps writing to it. */
  lemma EndCallerSinkStaysOpen(w: Writer)
    requires Consistent(w) && !w.ownsOutput
    ensures End(w).Success?
    ensures var w' := End(w).value;
      && w'.open && w'.config == w.config && Consistent(w')
      && Delay(w').Success? && Clear(w').Success? && End(w').Success?
  {
  }

  /** `add` called for each item in turn. */
  function AddAll(w: Writer, items: seq<Item>): (w': Writer)
    ensures w' == w.(buffer := w.buffer + items)
    decreases |items|
  {
    if items == [] then
      assert w.buffer + items == w.buffer;
      w
    else
      var n := |items| - 1;
      SplitLast(w.buffer, items);
      Add(AddAll(w, items[..n]), items[n])
  }

  /** A fresh writer, given items one `add` at a time, writes exactly their
      frame, `delay` and `clrscr` at its first commit. */
  lemma FirstFrame(config: AnimationConfig, delayText: string, items: seq<Item>)
    requires AllDrawable(items, config.draw)
    ensures var full := AddAll(New(config, delayText), items);
      && Consistent(full) && AllDrawable(items, full.config.draw)
      && Commit(full).Success?
      && Commit(full).value.out
         == ItemsRecords(items, config.draw) + [DelayRecord(Printed(delayText)), ClearRecord]
  {
    var w := New(config, delayText);
    var full := AddAll(w, items);
    assert [] + items == items;
    assert full.buffer == items && full.out == [] && full.config == w.config;
    var o := w.config.draw.output;
    FrameIgnoresSink(items, config.draw, o);
    assert full.config.draw == config.draw.(output := o);
    CommittedWriter(full);
    assert [] + ItemsRecords(items, config.draw) == ItemsRecords(items, config.draw);
  }

  // ---------------------------------------------------------------------
  // The delay parameter and the kept buffer, as written and as intended

  /** As written, the `delay` record ignores the configured delay: two
      writers that differ only in their delay write the same records. */
  lemma DelayIgnoresConfiguredDelay(w: Writer, d: real)
    requires w.open
    ensures var w2 := w.(config := w.config.(delay := d));
      && Delay(w).Success? && Delay(w2).Success?
      && Delay(w2).value.out == Delay(w).value.out
  {
  }

  /** The intended `delay`: the parameter is the configured delay in
      seconds. */
  function DelayFrame(w: Writer): (r: Result<Writer, WriteError>)
    ensures r.Success? <==> w.open
    ensures r.Success? ==> r.value.buffer == w.buffer && r.value.config == w.config
    ensures r.Success? ==> r.value == w.(out := w.out + [DelayRecord(Seconds(w.config.delay))])
  {
    Write(w, [DelayRecord(Seconds(w.config.delay))])
  }

  /** With the intended `delay`, writers with different delays write
      different records, and the record carries the delay itself. */
  lemma DelayFrameCarriesConfiguredDelay(w: Writer, d: real)
    requires w.open
    ensures var w2 := w.(config := w.config.(delay := d));
      && DelayFrame(w).Success? && DelayFrame(w2).Success?
      && DelayFrame(w).value.out[|w.out|] == DelayRecord(Seconds(w.config.delay))
      && (d != w.config.delay <==> DelayFrame(w2).value.out != DelayFrame(w).value.out)
  {
    var w2 := w.(config := w.config.(delay := d));
    if d != w.config.delay {
      assert DelayFrame(w2).value.out[|w.out|] != DelayFrame(w).value.out[|w.out|];
    }
  }

  /** As written, `commit` keeps the buffer, so a frame redraws every item
      of the earlier frames before the ones added since. */
  lemma CommitRedrawsEarlierItems(w: Writer, item: Item)
    requires Consistent(w) && w.open
    requires AllDrawable(w.buffer, w.config.draw) && ItemDrawable(item, w.config.draw)
    ensures Commit(w).Success?
    ensures var w1 := Add(Commit(w).value, item);
      && AllDrawable(w1.buffer, w1.config.draw) && Commit(w1).Success?
      && Commit(w1).value.out
         == Commit(w).value.out + ItemsRecords(w.buffer, w.config.draw) + ItemRecords(item, w.config.draw)
            + [DelayRecord(Printed(w.delayText)), ClearRecord]
  {
    var w0 := Commit(w).value;
    CommittedWriter(w);
    var w1 := Add(w0, item);
    FrameOfAppended(w.buffer, item, w.config.draw);
    CommittedWriter(w1);
    ConcatAssociative(w0.out, ItemsRecords(w.buffer, w.config.draw), ItemRecords(item, w.config.draw));
  }

  /** What a successful `commit` leaves: the same writer, with the frame,
      `delay` and `clear` written. */
  lemma CommittedWriter(w: Writer)
    requires Consistent(w) && w.open && AllDrawable(w.buffer, w.config.draw)
    ensures Commit(w).Success?
    ensures Commit(w).value
         == w.(out := w.out + ItemsRecords(w.buffer, w.config.draw) + [DelayRecord(Printed(w.delayText)), ClearRecord])
    ensures Consistent(Commit(w).value)
  {
  }

  /** The intended `commit`: the frame of the buffered items, then the
      intended `delay` and `clear`, leaving the buffer empty for the next
      frame. */
  function CommitFrame(w: Writer): (r: Result<Writer, WriteError>)
    requires Consistent(w) && AllDrawable(w.buffer, w.config.draw)
    ensures r.Success? <==> w.open
    ensures r.Success? ==> r.value.buffer == [] && Consistent(r.value)
    ensures r.Success? ==>
      r.value.out == w.out + ItemsRecords(w.buffer, w.config.draw)
                     + [DelayRecord(Seconds(w.config.delay)), ClearRecord]
    ensures r.Success? ==>
      r.value == w.(out := w.out + ItemsRecords(w.buffer, w.config.draw)
                            + [DelayRecord(Seconds(w.config.delay)), ClearRecord],
                    buffer := [])
  {
    var frame := ItemsRecords(w.buffer, w.config.draw);
    if frame != [] && w.config.draw.output.None? then Failure(NoSink)
    else
      var w1 := w.(out := w.out + frame);
      var r1 := DelayFrame(w1);
      if r1.Failure? then Failure(r1.error)
      else
        var r2 := Clear(r1.value);
        if r2.Failure? then r2 else Success(r2.value.(buffer := []))
  }

  /** With the intended `commit`, each frame draws exactly the items added
      since the previous one. */
  lemma FramesDrawOnlyNewItems(w: Writer, items: seq<Item>)
    requires Consistent(w) && w.open
    requires AllDrawable(w.buffer, w.config.draw) && AllDrawable(items, w.config.draw)
    ensures CommitFrame(w).Success?
    ensures var w1 := AddAll(CommitFrame(w).value, items);
      && Consistent(w1) && AllDrawable(w1.buffer, w1.config.draw) && CommitFrame(w1).Success?
      && CommitFrame(w1).value.out
         == CommitFrame(w).value.out + ItemsRecords(items, w.config.draw)
            + [DelayRecord(Seconds(w.config.delay)), ClearRecord]
  {
    var w0 := CommitFrame(w).value;
    var w1 := AddAll(w0, items);
    assert [] + items == items;
    assert w1 == w0.(buffer := items);
  }
}
