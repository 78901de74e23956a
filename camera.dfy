/** pysentech/camera.py, `SentechCamera`: a camera opened through the
    library, with the synthesized low-level methods, the property setters that
    reconfigure the device and rebuild the frame, capture into the frame, and
    release. Each operation is stated as what it does after the calls `h` the
    library has seen: its result and the calls it adds. */
module Camera {
  import opened Wrappers
  import opened Native
  import opened Synth
  import opened Frames
  import opened Binding

  // ---------------------------------------------------------------------------
  // `PIXEL_FORMATS`

  /** `PIXEL_FORMATS`, as its items are visited. */
  const PixelFormats: seq<(int, string)> := [(1, "Mono8"), (4, "BGR24"), (8, "BGR32")]

  /** `PIXEL_FORMATS[code]`, when it does not raise. */
  function NameOf(items: seq<(int, string)>, code: int): Option<string>
  {
    if items == [] then None
    else if items[0].0 == code then Some(items[0].1)
    else NameOf(items[1..], code)
  }

  /** The key of the item whose value is `name`, if any. */
  function CodeOf(items: seq<(int, string)>, name: string): Option<int>
  {
    if items == [] then None
    else if items[0].1 == name then Some(items[0].0)
    else CodeOf(items[1..], name)
  }

  /** `PIXEL_FORMATS[code]` in closed form. */
  lemma NameOfTable(code: int)
    ensures NameOf(PixelFormats, code)
         == if code == 1 then Some("Mono8") else if code == 4 then Some("BGR24") else if code == 8 then Some("BGR32") else None
  {
    var t1, t2 := PixelFormats[1..], PixelFormats[2..];
    assert t1 == [(4, "BGR24"), (8, "BGR32")] && t1[1..] == t2;
    assert t2 == [(8, "BGR32")] && t2[1..] == [];
    assert NameOf(t2, code) == if code == 8 then Some("BGR32") else None;
    assert NameOf(t1, code) == if code == 4 then Some("BGR24") else NameOf(t2, code);
  }

  /** The key of a pixel format name in closed form. */
  lemma CodeOfTable(name: string)
    ensures CodeOf(PixelFormats, name)
         == if name == "Mono8" then Some(1) else if name == "BGR24" then Some(4) else if name == "BGR32" then Some(8) else None
  {
    var t1, t2 := PixelFormats[1..], PixelFormats[2..];
    assert t1 == [(4, "BGR24"), (8, "BGR32")] && t1[1..] == t2;
    assert t2 == [(8, "BGR32")] && t2[1..] == [];
    assert CodeOf(t2, name) == if name == "BGR32" then Some(8) else None;
    assert CodeOf(t1, name) == if name == "BGR24" then Some(4) else CodeOf(t2, name);
  }

  /** Names and codes translate into each other both ways, the only codes
      are 1, 4 and 8, and every name the table gives has an entry in `BPP`. */
  lemma PixelFormatRoundTrip(code: int, name: string)
    ensures NameOf(PixelFormats, code) == Some(name) <==> CodeOf(PixelFormats, name) == Some(code)
    ensures NameOf(PixelFormats, code).Some? <==> code == 1 || code == 4 || code == 8
    ensures NameOf(PixelFormats, code).Some? ==> NameOf(PixelFormats, code).value in Bpp
  {
    NameOfTable(code);
    CodeOfTable(name);
  }

  // ---------------------------------------------------------------------------
  // The property getters

  /** `image_shape`: the width and height cells of `StCam_GetImageSize`,
      both `c_ulong`, so `.value` reads their low 32 bits. */
  function ShapeQuery(s: Session, h: seq<NativeCall>): (q: (Result<(int, int), CamError>, seq<NativeCall>))
    ensures h <= q.1
  {
    var (r, h1) := Invocation(s, h, "StCam_GetImageSize", [0, 0, 0, 0, 0, 0]);
    if r.Err? then (Err(r.error), h1) else (Ok((ULong(r.value.cells[4]), ULong(r.value.cells[5]))), h1)
  }

  /** `image_offsets`: the offset cells of the same call. */
  function OffsetsQuery(s: Session, h: seq<NativeCall>): (q: (Result<(int, int), CamError>, seq<NativeCall>))
    ensures h <= q.1
  {
    var (r, h1) := Invocation(s, h, "StCam_GetImageSize", [0, 0, 0, 0, 0, 0]);
    if r.Err? then (Err(r.error), h1) else (Ok((ULong(r.value.cells[2]), ULong(r.value.cells[3]))), h1)
  }

  /** `image_size`: the payload size `StCam_GetRawDataSize` reports in a
      `c_ulong`. */
  function SizeQuery(s: Session, h: seq<NativeCall>): (q: (Result<int, CamError>, seq<NativeCall>))
    ensures h <= q.1
  {
    var (r, h1) := Invocation(s, h, "StCam_GetRawDataSize", [0]);
    if r.Err? then (Err(r.error), h1) else (Ok(ULong(r.value.cells[0])), h1)
  }

  /** `pixel_format`: the name of the code `StCam_GetPreviewPixelFormat`
      reports, or KeyError for a code the table lacks. */
  function FormatQuery(s: Session, h: seq<NativeCall>): (q: (Result<string, CamError>, seq<NativeCall>))
    ensures h <= q.1
  {
    var (r, h1) := Invocation(s, h, "StCam_GetPreviewPixelFormat", [0]);
    if r.Err? then (Err(r.error), h1)
    else match NameOf(PixelFormats, ULong(r.value.cells[0]))
      case None => (Err(UnknownFormatCode(ULong(r.value.cells[0]))), h1)
      case Some(name) => (Ok(name), h1)
  }

  /** The getter answers the name of the reported code, and KeyError
      exactly for codes other than 1, 4 and 8. */
  lemma FormatQueryDecodes(s: Session, h: seq<NativeCall>)
    requires Invocation(s, h, "StCam_GetPreviewPixelFormat", [0]).0.Ok?
    ensures var code := ULong(Invocation(s, h, "StCam_GetPreviewPixelFormat", [0]).0.value.cells[0]);
      var r := FormatQuery(s, h).0;
      && (r.Ok? ==> CodeOf(PixelFormats, r.value) == Some(code))
      && (r == Err(UnknownFormatCode(code)) <==> !(code == 1 || code == 4 || code == 8))
  {
    var code := ULong(Invocation(s, h, "StCam_GetPreviewPixelFormat", [0]).0.value.cells[0]);
    PixelFormatRoundTrip(code, "");
    var r := FormatQuery(s, h).0;
    if r.Ok? {
      PixelFormatRoundTrip(code, r.value);
    }
  }

  /** What `.value` reads of the zero `c_ulong` a getter passes as argument
      `i` of `m`, after the library answered `reply`: the low 32 bits of what
      it wrote there when the declared type passes it by reference, 0 when
      it wrote nothing or the cell went by value. */
  function ULongCell(m: BoundMethod, reply: Reply, i: nat): int
    requires i < |ParamTypes(m)|
  {
    if ParamTypes(m)[i] in PointerArgs then CellAfter(reply.written, i + 1, 0) else 0
  }

  /** The cells a successful zero-argument-cell getter reads back. */
  lemma GetterCells(s: Session, h: seq<NativeCall>, name: string, args: seq<int>, i: nat)
    requires Invocation(s, h, name, args).0.Ok? && i < |args|
    requires forall k :: 0 <= k < |args| ==> args[k] == 0
    ensures name in s.methods && |args| <= |ParamTypes(s.methods[name])|
    ensures ULong(Invocation(s, h, name, args).0.value.cells[i])
         == ULongCell(s.methods[name], s.respond(h, CallOf(s, s.methods[name], args)), i)
  {
    CellsReadBack(s, h, name, args, i);
  }

  /** `image_shape` answers what the library wrote into the width and height
      cells, native positions 5 and 6 of `StCam_GetImageSize`. */
  lemma ShapeReadsCells(s: Session, h: seq<NativeCall>)
    requires ShapeQuery(s, h).0.Ok?
    ensures "StCam_GetImageSize" in s.methods && 6 <= |ParamTypes(s.methods["StCam_GetImageSize"])|
    ensures var m := s.methods["StCam_GetImageSize"];
      var reply := s.respond(h, CallOf(s, m, [0, 0, 0, 0, 0, 0]));
      ShapeQuery(s, h).0.value == (ULongCell(m, reply, 4), ULongCell(m, reply, 5))
  {
    GetterCells(s, h, "StCam_GetImageSize", [0, 0, 0, 0, 0, 0], 4);
    GetterCells(s, h, "StCam_GetImageSize", [0, 0, 0, 0, 0, 0], 5);
  }

  /** `image_offsets` answers what the library wrote into the offset cells,
      native positions 3 and 4 of the same call. */
  lemma OffsetsReadCells(s: Session, h: seq<NativeCall>)
    requires OffsetsQuery(s, h).0.Ok?
    ensures "StCam_GetImageSize" in s.methods && 6 <= |ParamTypes(s.methods["StCam_GetImageSize"])|
    ensures var m := s.methods["StCam_GetImageSize"];
      var reply := s.respond(h, CallOf(s, m, [0, 0, 0, 0, 0, 0]));
      OffsetsQuery(s, h).0.value == (ULongCell(m, reply, 2), ULongCell(m, reply, 3))
  {
    GetterCells(s, h, "StCam_GetImageSize", [0, 0, 0, 0, 0, 0], 2);
    GetterCells(s, h, "StCam_GetImageSize", [0, 0, 0, 0, 0, 0], 3);
  }

  /** `image_size` answers what the library wrote into its one cell, native
      position 1 of `StCam_GetRawDataSize`, and is never negative. */
  lemma SizeReadsCell(s: Session, h: seq<NativeCall>)
    requires SizeQuery(s, h).0.Ok?
    ensures "StCam_GetRawDataSize" in s.methods && 1 <= |ParamTypes(s.methods["StCam_GetRawDataSize"])|
    ensures var m := s.methods["StCam_GetRawDataSize"];
      SizeQuery(s, h).0.value == ULongCell(m, s.respond(h, CallOf(s, m, [0])), 0)
    ensures 0 <= SizeQuery(s, h).0.value < 0x1_0000_0000
  {
    GetterCells(s, h, "StCam_GetRawDataSize", [0], 0);
  }

  // ---------------------------------------------------------------------------
  // `_setup_frame`

  /** The size and format a frame is built with. */
  datatype Geometry = Geometry(width: int, height: int, bpi: int, pixelFormat: string)

  /** `_setup_frame`: read the shape, the payload size and the format, in
      that order, then build the frame, whose constructor looks the format up
      in `BPP` and allocates the buffer (a `c_ulong` size is never negative). */
  function FrameSetup(s: Session, h: seq<NativeCall>): (q: (Result<Geometry, CamError>, seq<NativeCall>))
    ensures h <= q.1
  {
    var (shape, h1) := ShapeQuery(s, h);
    if shape.Err? then (Err(shape.error), h1)
    else
      var (size, h2) := SizeQuery(s, h1);
      if size.Err? then (Err(size.error), h2)
      else
        var (format, h3) := FormatQuery(s, h2);
        if format.Err? then (Err(format.error), h3)
        else if format.value !in Bpp then (Err(UnknownFormatName(format.value)), h3)
        else (Ok(Geometry(shape.value.0, shape.value.1, size.value, format.value)), h3)
  }

  /** `_setup_frame` builds its frame from the three getters' answers: it
      succeeds exactly when all three do, with the width and height
      `image_shape` reports, the size `image_size` reports and the format
      `pixel_format` names, and the frame's own KeyError and a negative size
      can never be what it raises. */
  lemma FrameFollowsDevice(s: Session, h: seq<NativeCall>)
    ensures var (shape, h1) := ShapeQuery(s, h);
      var (size, h2) := SizeQuery(s, h1);
      var (format, h3) := FormatQuery(s, h2);
      var g := FrameSetup(s, h).0;
      && (g.Ok? <==> shape.Ok? && size.Ok? && format.Ok?)
      && (g.Err? ==> !g.error.UnknownFormatName? && !g.error.NegativeSize?)
      && (g.Ok? ==>
            && g.value == Geometry(shape.value.0, shape.value.1, size.value, format.value)
            && g.value.pixelFormat in Bpp && CodeOf(PixelFormats, g.value.pixelFormat).Some? && g.value.bpi >= 0)
  {
    var (shape, h1) := ShapeQuery(s, h);
    var (size, h2) := SizeQuery(s, h1);
    var (r, _) := Invocation(s, h2, "StCam_GetPreviewPixelFormat", [0]);
    if r.Ok? && NameOf(PixelFormats, ULong(r.value.cells[0])).Some? {
      PixelFormatRoundTrip(ULong(r.value.cells[0]), NameOf(PixelFormats, ULong(r.value.cells[0])).value);
    }
  }

  // ---------------------------------------------------------------------------
  // The property setters

  /** What a setter did: the exception it raised, the calls after it, and the
      geometry of the frame it built, if it rebuilt the frame. */
  datatype Change = Change(raised: Option<CamError>, history: seq<NativeCall>, frame: Option<Geometry>)

  /** Call a device setter, then `_setup_frame()` for the new payload size. */
  function Reconfiguring(s: Session, h: seq<NativeCall>, name: string, args: seq<int>): (c: Change)
    ensures h <= c.history
  {
    var (r, h1) := Invocation(s, h, name, args);
    if r.Err? then Change(Some(r.error), h1, None)
    else
      var (g, h2) := FrameSetup(s, h1);
      if g.Err? then Change(Some(g.error), h2, None) else Change(None, h2, Some(g.value))
  }

  /** `image_shape = (width, height)`: keep the current offsets. */
  function ShapeUpdate(s: Session, h: seq<NativeCall>, width: int, height: int): (c: Change)
    ensures h <= c.history
  {
    var (off, h1) := OffsetsQuery(s, h);
    if off.Err? then Change(Some(off.error), h1, None)
    else Reconfiguring(s, h1, "StCam_SetImageSize", [0, 8, off.value.0, off.value.1, width, height])
  }

  /** `image_offsets = (x, y)`: keep the current shape; no new frame. */
  function OffsetsUpdate(s: Session, h: seq<NativeCall>, x: int, y: int): (Option<CamError>, seq<NativeCall>)
  {
    var (shape, h1) := ShapeQuery(s, h);
    if shape.Err? then (Some(shape.error), h1)
    else
      var (r, h2) := Invocation(s, h1, "StCam_SetImageSize", [0, 8, x, y, shape.value.0, shape.value.1]);
      (if r.Err? then Some(r.error) else None, h2)
  }

  /** `image_height = v`: the shape setter with the current width. */
  function HeightUpdate(s: Session, h: seq<NativeCall>, v: int): Change
  {
    var (shape, h1) := ShapeQuery(s, h);
    if shape.Err? then Change(Some(shape.error), h1, None) else ShapeUpdate(s, h1, shape.value.0, v)
  }

  /** `image_width = v`: the shape setter with the current height. */
  function WidthUpdate(s: Session, h: seq<NativeCall>, v: int): Change
  {
    var (shape, h1) := ShapeQuery(s, h);
    if shape.Err? then Change(Some(shape.error), h1, None) else ShapeUpdate(s, h1, v, shape.value.1)
  }

  /** The loop of the pixel format setter over the items still to visit,
      after the change `c` so far; an exception ends it. */
  function FormatLoop(s: Session, c: Change, items: seq<(int, string)>, value: string): Change
    decreases |items|
  {
    if c.raised.Some? || items == [] then c
    else if items[0].1 == value then
      var step := Reconfiguring(s, c.history, "StCam_SetPreviewPixelFormat", [items[0].0]);
      FormatLoop(s, Change(step.raised, step.history, if step.frame.Some? then step.frame else c.frame), items[1..], value)
    else FormatLoop(s, c, items[1..], value)
  }

  /** `pixel_format = value`. */
  function FormatUpdate(s: Session, h: seq<NativeCall>, value: string): Change
  {
    if CodeOf(PixelFormats, value).None? then Change(Some(UnknownFormatName(value)), h, None)
    else FormatLoop(s, Change(None, h, None), PixelFormats, value)
  }

  /** An unknown name raises KeyError before any call; a known one sets its
      own code once and rebuilds the frame, as a single reconfiguration. */
  lemma FormatSetterSetsOneCode(s: Session, h: seq<NativeCall>, value: string)
    ensures CodeOf(PixelFormats, value).None? ==> FormatUpdate(s, h, value) == Change(Some(UnknownFormatName(value)), h, None)
    ensures CodeOf(PixelFormats, value).Some? ==>
      FormatUpdate(s, h, value) == Reconfiguring(s, h, "StCam_SetPreviewPixelFormat", [CodeOf(PixelFormats, value).value])
  {
    CodeOfTable(value);
    if CodeOf(PixelFormats, value).Some? {
      var c0 := Change(None, h, None);
      var step := Reconfiguring(s, h, "StCam_SetPreviewPixelFormat", [CodeOf(PixelFormats, value).value]);
      var c1 := Change(step.raised, step.history, step.frame);
      assert c1 == step;
      if value == "Mono8" {
        assert FormatLoop(s, c0, PixelFormats, value) == FormatLoop(s, c1, PixelFormats[1..], value);
        SkipsOthers(s, c1, PixelFormats[1..], value);
      } else if value == "BGR24" {
        assert FormatLoop(s, c0, PixelFormats, value) == FormatLoop(s, c0, PixelFormats[1..], value);
        assert FormatLoop(s, c0, PixelFormats[1..], value) == FormatLoop(s, c1, PixelFormats[2..], value);
        SkipsOthers(s, c1, PixelFormats[2..], value);
      } else {
        assert FormatLoop(s, c0, PixelFormats, value) == FormatLoop(s, c0, PixelFormats[1..], value);
        assert FormatLoop(s, c0, PixelFormats[1..], value) == FormatLoop(s, c0, PixelFormats[2..], value);
        assert FormatLoop(s, c0, PixelFormats[2..], value) == FormatLoop(s, c1, PixelFormats[3..], value);
      }
    }
  }

  /** Items of other names leave the change as it is. */
  lemma {:induction false} SkipsOthers(s: Session, c: Change, items: seq<(int, string)>, value: string)
    requires forall i :: 0 <= i < |items| ==> items[i].1 != value
    ensures FormatLoop(s, c, items, value) == c
    decreases |items|
  {
    if c.raised.None? && items != [] {
      SkipsOthers(s, c, items[1..], value);
    }
  }

  /** The shape setter hands `StCam_SetImageSize` the reserved 0, the scan
      mode 8, the offsets the device just reported, and the new width and
      height, in that order. */
  lemma ShapeSetterKeepsOffsets(s: Session, h: seq<NativeCall>, width: int, height: int)
    requires OffsetsQuery(s, h).0.Ok?
    requires "StCam_SetImageSize" in s.methods && |ParamTypes(s.methods["StCam_SetImageSize"])| >= 6
    ensures var (off, h1) := OffsetsQuery(s, h);
      var args := [0, 8, off.value.0, off.value.1, width, height];
      var c := CallOf(s, s.methods["StCam_SetImageSize"], args);
      h1 + [c] <= ShapeUpdate(s, h, width, height).history
  {
    var (off, h1) := OffsetsQuery(s, h);
    var args := [0, 8, off.value.0, off.value.1, width, height];
    InvocationCalls(s, h1, "StCam_SetImageSize", args);
    var (r, h2) := Invocation(s, h1, "StCam_SetImageSize", args);
    var h3 := ShapeUpdate(s, h, width, height).history;
    if r.Ok? {
      assert h3 == FrameSetup(s, h2).1;
    } else {
      assert h3 == h2;
    }
    PrefixChain(h1 + [CallOf(s, s.methods["StCam_SetImageSize"], args)], h2, h3);
  }

  /** A prefix of a prefix. */
  lemma PrefixChain(a: seq<NativeCall>, b: seq<NativeCall>, c: seq<NativeCall>)
    requires |b| >= |a| && b[..|a|] == a && b <= c
    ensures a <= c
  {
  }

  /** The offsets setter hands `StCam_SetImageSize` the new offsets with the
      width and height the device just reported. */
  lemma OffsetsSetterKeepsShape(s: Session, h: seq<NativeCall>, x: int, y: int)
    requires ShapeQuery(s, h).0.Ok?
    requires "StCam_SetImageSize" in s.methods && |ParamTypes(s.methods["StCam_SetImageSize"])| >= 6
    ensures var (shape, h1) := ShapeQuery(s, h);
      var args := [0, 8, x, y, shape.value.0, shape.value.1];
      var c := CallOf(s, s.methods["StCam_SetImageSize"], args);
      h1 + [c] <= OffsetsUpdate(s, h, x, y).1
  {
    var (shape, h1) := ShapeQuery(s, h);
    InvocationCalls(s, h1, "StCam_SetImageSize", [0, 8, x, y, shape.value.0, shape.value.1]);
  }

  /** The height setter asks for the shape, then the offsets, then sets the
      reported offsets and width with the new height. */
  lemma HeightSetterKeepsWidth(s: Session, h: seq<NativeCall>, v: int)
    requires ShapeQuery(s, h).0.Ok? && OffsetsQuery(s, ShapeQuery(s, h).1).0.Ok?
    requires "StCam_SetImageSize" in s.methods && |ParamTypes(s.methods["StCam_SetImageSize"])| >= 6
    ensures var (shape, h1) := ShapeQuery(s, h);
      var (off, h2) := OffsetsQuery(s, h1);
      var c := CallOf(s, s.methods["StCam_SetImageSize"], [0, 8, off.value.0, off.value.1, shape.value.0, v]);
      h2 + [c] <= HeightUpdate(s, h, v).history
  {
    var (shape, h1) := ShapeQuery(s, h);
    ShapeSetterKeepsOffsets(s, h1, shape.value.0, v);
  }

  /** The width setter likewise keeps the reported height. */
  lemma WidthSetterKeepsHeight(s: Session, h: seq<NativeCall>, v: int)
    requires ShapeQuery(s, h).0.Ok? && OffsetsQuery(s, ShapeQuery(s, h).1).0.Ok?
    requires "StCam_SetImageSize" in s.methods && |ParamTypes(s.methods["StCam_SetImageSize"])| >= 6
    ensures var (shape, h1) := ShapeQuery(s, h);
      var (off, h2) := OffsetsQuery(s, h1);
      var c := CallOf(s, s.methods["StCam_SetImageSize"], [0, 8, off.value.0, off.value.1, v, shape.value.1]);
      h2 + [c] <= WidthUpdate(s, h, v).history
  {
    var (shape, h1) := ShapeQuery(s, h);
    ShapeSetterKeepsOffsets(s, h1, v, shape.value.1);
  }

  // ---------------------------------------------------------------------------
  // `gain`, `_snapshot`, `release`

  /** The gain setter's argument: a negative gain becomes 0. */
  function ClampGain(value: int): (g: int)
    ensures g >= 0 && (value >= 0 ==> g == value)
  {
    if value < 0 then 0 else value
  }

  /** `gain = value` hands `StCam_SetGain` a non-negative value: the
      requested gain, or 0 for a negative one. */
  lemma GainNeverNegative(s: Session, h: seq<NativeCall>, value: int)
    requires "StCam_SetGain" in s.methods && |ParamTypes(s.methods["StCam_SetGain"])| >= 1
    ensures var c := CallOf(s, s.methods["StCam_SetGain"], [ClampGain(value)]);
      var h' := Invocation(s, h, "StCam_SetGain", [ClampGain(value)]).1;
      && h'[..|h| + 1] == h + [c]
      && c.args[1].value >= 0
      && (value >= 0 ==> c.args[1].value == value)
      && (value < 0 ==> c.args[1].value == 0)
  {
    InvocationCalls(s, h, "StCam_SetGain", [ClampGain(value)]);
  }

  /** What `_snapshot` reads of the frame: whether it still has a buffer,
      and of what length, and its `bpi`. */
  datatype FrameView = FrameView(buffer: Option<nat>, bpi: int)

  /** The call `_snapshot(timeout_ms)` makes. */
  function SnapshotCall(s: Session, length: nat, bpi: int, transferred: int, frameNo: int, timeout: int): NativeCall
  {
    NativeCall("StCam_TakeRawSnapShot",
      [ByVal(s.handle), Buffer(length), ByVal(bpi), ByRef(transferred), ByRef(frameNo), ByVal(ULong(timeout))])
  }

  /** `_snapshot(timeout_ms)`, for the frame the camera holds, if any. The
      library's answer is not inspected. */
  function Snapshotting(s: Session, h: seq<NativeCall>, frame: Option<FrameView>, transferred: int, frameNo: int, timeout: int)
    : (Result<Reply, CamError>, seq<NativeCall>)
  {
    if "StCam_TakeRawSnapShot" !in s.dll then (Err(NoAttribute("StCam_TakeRawSnapShot")), h)
    else if frame.None? then (Err(NoAttribute("frame")), h)
    else if frame.value.buffer.None? then (Err(NoAttribute("buffer")), h)
    else DllCall(s, h, "StCam_TakeRawSnapShot", SnapshotCall(s, frame.value.buffer.value, frame.value.bpi, transferred, frameNo, timeout).args)
  }

  /** A capture reports no error whatever the library answers, a 0 of a
      timed-out transfer included, once the function, the frame and its
      buffer are there. */
  lemma SnapshotIgnoresResult(s: Session, h: seq<NativeCall>, length: nat, bpi: int, transferred: int, frameNo: int, timeout: int)
    requires "StCam_TakeRawSnapShot" in s.dll && s.dll["StCam_TakeRawSnapShot"].FuncAttr?
    ensures var c := SnapshotCall(s, length, bpi, transferred, frameNo, timeout);
      Snapshotting(s, h, Some(FrameView(Some(length), bpi)), transferred, frameNo, timeout) == (Ok(s.respond(h, c)), h + [c])
  {
  }

  /** A `c_ulong` cell passed by reference, after a call: the low 32 bits of
      what the function wrote at that position, or its old value. */
  function CellAfter(written: map<nat, int>, position: nat, before: int): (r: int)
    ensures position in written ==> 0 <= r < 0x1_0000_0000 && (r - written[position]) % 0x1_0000_0000 == 0
    ensures position !in written ==> r == before
  {
    if position in written then ULong(written[position]) else before
  }

  /** `release()`: with a frame, drop it and close the camera; an
      AttributeError, a missing frame or a missing `StCam_Close` among them,
      is swallowed. */
  function Releasing(s: Session, h: seq<NativeCall>, hasFrame: bool): (Option<CamError>, seq<NativeCall>)
  {
    if !hasFrame then (None, h)
    else
      var (r, h1) := Invocation(s, h, "StCam_Close", []);
      if r.Err? && !r.error.NoAttribute? then (Some(r.error), h1) else (None, h1)
  }

  /** Releasing a camera without a frame is silent and calls nothing, so a
      second release never reaches `StCam_Close`; the first one calls it
      with the handle alone, and only a failed close can raise. */
  lemma ReleaseClosesOnce(s: Session, h: seq<NativeCall>)
    ensures Releasing(s, h, false) == (None, h)
    ensures "StCam_Close" in s.methods ==>
      var c := CallOf(s, s.methods["StCam_Close"], []);
      var (e, h1) := Releasing(s, h, true);
      && h1[..|h| + 1] == h + [c] && c.args == [ByVal(s.handle)]
      && (e.Some? ==> s.methods["StCam_Close"].retType == "BOOL" && s.respond(h, c).result == 0)
    ensures "StCam_Close" !in s.methods ==> Releasing(s, h, true) == (None, h)
  {
    if "StCam_Close" in s.methods {
      InvocationCalls(s, h, "StCam_Close", []);
    }
  }

  // ---------------------------------------------------------------------------
  // The camera object

  /** `SentechCamera`. */
  class SentechCamera {
    /** `self.dll`: its behaviour, its attributes and its `functions` registry. */
    const driver: Driver
    const dll: map<string, Attr>
    const functions: map<string, RegEntry>
    /** `self.handle`, what `StCam_Open` answered. */
    const handle: int
    /** The methods `_setup_low_level` attached. */
    var methods: map<string, BoundMethod>
    /** `self.frame`: null once `release` has deleted it. */
    var frame: SentechFrame?
    /** `self._cbytesxferred` and `self._cframeno`. */
    var bytesTransferred: int
    var frameNumber: int

    constructor (driver: Driver, dll: map<string, Attr>, functions: map<string, RegEntry>, handle: int)
      ensures this.driver == driver && this.dll == dll && this.functions == functions && this.handle == handle
      ensures methods == map[] && frame == null && bytesTransferred == 0 && frameNumber == 0
    {
      this.driver := driver;
      this.dll := dll;
      this.functions := functions;
      this.handle := handle;
      methods := map[];
      frame := null;
      bytesTransferred := 0;
      frameNumber := 0;
    }

    /** What the camera's methods see of it. */
    function AsSession(): Session
      reads this
    {
      Session(methods, dll, handle, driver.respond)
    }

    /** The frame, if any, belongs to this camera. */
    ghost predicate Valid()
      reads this, frame
    {
      frame != null ==> frame.session == AsSession() && frame.driver == driver
    }

    /** The frame is one `_setup_frame` just built with geometry `g`: its
        buffer holds `bpi` zero bytes. */
    ghost predicate FrameIs(g: Geometry)
      reads this, frame, if frame != null then {frame.buffer} else {}
    {
      && frame != null && frame.buffer != null
      && frame.width == g.width && frame.height == g.height && frame.bpi == g.bpi && frame.pixelFormat == g.pixelFormat
      && frame.session == AsSession() && frame.driver == driver
      && g.bpi >= 0 && frame.buffer[..] == Zeros(g.bpi)
    }

    /** The frame after a setter: a new one of geometry `g` if the setter
        rebuilt it, the old one otherwise. */
    twostate predicate Rebuilt(g: Option<Geometry>)
      reads this, frame, if frame != null then {frame.buffer} else {}
    {
      match g
      case None => frame == old(frame)
      case Some(geometry) => FrameIs(geometry) && fresh(frame) && fresh(frame.buffer)
    }

    /** What `_snapshot` reads of the frame. */
    function View(): Option<FrameView>
      reads this, frame
    {
      if frame == null then None
      else Some(FrameView(if frame.buffer == null then None else Some(frame.buffer.Length), frame.bpi))
    }

    /** `_setup_low_level`: attach a method for every registry entry whose
        first parameter is `hCamera`, in whatever order the dict yields. */
    method SetupLowLevel()
      modifies this
      ensures methods == old(methods) + CameraMethods(functions)
      ensures frame == old(frame) && bytesTransferred == old(bytesTransferred) && frameNumber == old(frameNumber)
    {
      var m := methods;
      var pending := functions.Keys;
      while pending != {}
        invariant pending <= functions.Keys
        invariant m == old(methods) + CameraMethodsAmong(functions, functions.Keys - pending)
        modifies {}
        decreases |pending|
      {
        var k :| k in pending;
        var v := functions[k];
        AmongStep(old(methods), functions, functions.Keys - pending, k);
        if |v.decl.argNames| > 0 && v.decl.argNames[0] == "hCamera" {
          m := m[k := MethodOf(v)];
        }
        assert functions.Keys - (pending - {k}) == (functions.Keys - pending) + {k};
        pending := pending - {k};
      }
      assert functions.Keys - pending == functions.Keys;
      methods := m;
    }

    /** `image_shape`. */
    method ImageShape() returns (r: Result<(int, int), CamError>)
      modifies driver
      ensures (r, driver.history) == ShapeQuery(AsSession(), old(driver.history))
    {
      var o := Invoke(AsSession(), driver, "StCam_GetImageSize", [0, 0, 0, 0, 0, 0]);
      if o.Err? {
        return Err(o.error);
      }
      return Ok((ULong(o.value.cells[4]), ULong(o.value.cells[5])));
    }

    /** `image_offsets`. */
    method ImageOffsets() returns (r: Result<(int, int), CamError>)
      modifies driver
      ensures (r, driver.history) == OffsetsQuery(AsSession(), old(driver.history))
    {
      var o := Invoke(AsSession(), driver, "StCam_GetImageSize", [0, 0, 0, 0, 0, 0]);
      if o.Err? {
        return Err(o.error);
      }
      return Ok((ULong(o.value.cells[2]), ULong(o.value.cells[3])));
    }

    /** `image_size`. */
    method ImageSize() returns (r: Result<int, CamError>)
      modifies driver
      ensures (r, driver.history) == SizeQuery(AsSession(), old(driver.history))
    {
      var o := Invoke(AsSession(), driver, "StCam_GetRawDataSize", [0]);
      if o.Err? {
        return Err(o.error);
      }
      return Ok(ULong(o.value.cells[0]));
    }

    /** `pixel_format`. */
    method PixelFormat() returns (r: Result<string, CamError>)
      modifies driver
      ensures (r, driver.history) == FormatQuery(AsSession(), old(driver.history))
    {
      var o := Invoke(AsSession(), driver, "StCam_GetPreviewPixelFormat", [0]);
      if o.Err? {
        return Err(o.error);
      }
      var name := NameOf(PixelFormats, ULong(o.value.cells[0]));
      if name.None? {
        return Err(UnknownFormatCode(ULong(o.value.cells[0])));
      }
      return Ok(name.value);
    }

    /** `_setup_frame`: a new frame of the device's current geometry, with a
        fresh zeroed buffer of the payload size. */
    method SetupFrame() returns (e: Option<CamError>)
      requires Valid()
      modifies this, driver
      ensures Valid() && methods == old(methods)
      ensures bytesTransferred == old(bytesTransferred) && frameNumber == old(frameNumber)
      ensures var (g, h) := FrameSetup(old(AsSession()), old(driver.history));
        && driver.history == h
        && e == (if g.Err? then Some(g.error) else None)
        && Rebuilt(if g.Ok? then Some(g.value) else None)
    {
      var q := ReadGeometry();
      if q.Err? {
        return Some(q.error);
      }
      var f := NewFrame(q.value.0, q.value.1, q.value.2, AsSession(), driver, q.value.3);
      if f.Err? {
        return Some(f.error);
      }
      frame := f.value;
      return None;
    }

    /** The getters `_setup_frame` calls: `image_shape`, `image_size` and
        `pixel_format`, in that order. */
    method ReadGeometry() returns (r: Result<(int, int, int, string), CamError>)
      modifies driver
      ensures var (g, h) := FrameSetup(AsSession(), old(driver.history));
        && driver.history == h
        && (r.Err? ==> g == Err(r.error))
        && (r.Ok? ==> r.value.2 >= 0)
        && (r.Ok? ==> g == if r.value.3 !in Bpp then Err(UnknownFormatName(r.value.3))
                           else Ok(Geometry(r.value.0, r.value.1, r.value.2, r.value.3)))
    {
      ghost var s, h0 := AsSession(), driver.history;
      var shape := ImageShape();
      if shape.Err? {
        return Err(shape.error);
      }
      ghost var h1 := driver.history;
      var size := ImageSize();
      if size.Err? {
        return Err(size.error);
      }
      ghost var h2 := driver.history;
      var format := PixelFormat();
      if format.Err? {
        return Err(format.error);
      }
      assert (shape, h1) == ShapeQuery(s, h0) && (size, h2) == SizeQuery(s, h1);
      assert (format, driver.history) == FormatQuery(s, h2);
      return Ok((shape.value.0, shape.value.1, size.value, format.value));
    }

    /** A device setter followed by `_setup_frame()`. */
    method Reconfigure(name: string, args: seq<int>) returns (e: Option<CamError>)
      requires Valid()
      modifies this, driver
      ensures Valid() && methods == old(methods)
      ensures bytesTransferred == old(bytesTransferred) && frameNumber == old(frameNumber)
      ensures var c := Reconfiguring(old(AsSession()), old(driver.history), name, args);
        && driver.history == c.history && e == c.raised
        && Rebuilt(c.frame)
    {
      var r := Invoke(AsSession(), driver, name, args);
      if r.Err? {
        return Some(r.error);
      }
      e := SetupFrame();
    }

    /** The `pixel_format` setter. */
    method SetPixelFormat(value: string) returns (e: Option<CamError>)
      requires Valid()
      modifies this, driver
      ensures Valid() && methods == old(methods)
      ensures bytesTransferred == old(bytesTransferred) && frameNumber == old(frameNumber)
      ensures var c := FormatUpdate(old(AsSession()), old(driver.history), value);
        && driver.history == c.history && e == c.raised
        && Rebuilt(c.frame)
    {
      if CodeOf(PixelFormats, value).None? {
        return Some(UnknownFormatName(value));
      }
      ghost var s := AsSession();
      ghost var rebuilt: Option<Geometry> := None;
      var i := 0;
      while i < |PixelFormats|
        invariant 0 <= i <= |PixelFormats|
        invariant Valid() && AsSession() == s
        invariant bytesTransferred == old(bytesTransferred) && frameNumber == old(frameNumber)
        invariant FormatLoop(s, Change(None, driver.history, rebuilt), PixelFormats[i..], value)
               == FormatLoop(s, Change(None, old(driver.history), None), PixelFormats, value)
        invariant Rebuilt(rebuilt)
      {
        var (code, name) := PixelFormats[i];
        if name == value {
          ghost var step := Reconfiguring(s, driver.history, "StCam_SetPreviewPixelFormat", [code]);
          e := Reconfigure("StCam_SetPreviewPixelFormat", [code]);
          if e.Some? {
            return;
          }
          if step.frame.Some? {
            rebuilt := step.frame;
          }
        }
        i := i + 1;
      }
      return None;
    }

    /** The `image_shape` setter. */
    method SetImageShape(width: int, height: int) returns (e: Option<CamError>)
      requires Valid()
      modifies this, driver
      ensures Valid() && methods == old(methods)
      ensures bytesTransferred == old(bytesTransferred) && frameNumber == old(frameNumber)
      ensures var c := ShapeUpdate(old(AsSession()), old(driver.history), width, height);
        && driver.history == c.history && e == c.raised
        && Rebuilt(c.frame)
    {
      var off := ImageOffsets();
      if off.Err? {
        return Some(off.error);
      }
      e := Reconfigure("StCam_SetImageSize", [0, 8, off.value.0, off.value.1, width, height]);
    }

    /** The `image_offsets` setter: the frame stays as it is. */
    method SetImageOffsets(x: int, y: int) returns (e: Option<CamError>)
      modifies driver
      ensures (e, driver.history) == OffsetsUpdate(AsSession(), old(driver.history), x, y)
    {
      var shape := ImageShape();
      if shape.Err? {
        return Some(shape.error);
      }
      var r := Invoke(AsSession(), driver, "StCam_SetImageSize", [0, 8, x, y, shape.value.0, shape.value.1]);
      if r.Err? {
        return Some(r.error);
      }
      return None;
    }

    /** The `image_height` setter. */
    method SetImageHeight(v: int) returns (e: Option<CamError>)
      requires Valid()
      modifies this, driver
      ensures Valid() && methods == old(methods)
      ensures bytesTransferred == old(bytesTransferred) && frameNumber == old(frameNumber)
      ensures var c := HeightUpdate(old(AsSession()), old(driver.history), v);
        && driver.history == c.history && e == c.raised
        && Rebuilt(c.frame)
    {
      var shape := ImageShape();
      if shape.Err? {
        return Some(shape.error);
      }
      e := SetImageShape(shape.value.0, v);
    }

    /** The `image_width` setter. */
    method SetImageWidth(v: int) returns (e: Option<CamError>)
      requires Valid()
      modifies this, driver
      ensures Valid() && methods == old(methods)
      ensures bytesTransferred == old(bytesTransferred) && frameNumber == old(frameNumber)
      ensures var c := WidthUpdate(old(AsSession()), old(driver.history), v);
        && driver.history == c.history && e == c.raised
        && Rebuilt(c.frame)
    {
      var shape := ImageShape();
      if shape.Err? {
        return Some(shape.error);
      }
      e := SetImageShape(v, shape.value.1);
    }

    /** The `gain` setter. */
    method SetGain(value: int) returns (e: Option<CamError>)
      modifies driver
      ensures var (r, h) := Invocation(AsSession(), old(driver.history), "StCam_SetGain", [ClampGain(value)]);
        driver.history == h && e == (if r.Err? then Some(r.error) else None)
    {
      var v := value;
      if v < 0 {
        v := 0;
      }
      var r := Invoke(AsSession(), driver, "StCam_SetGain", [v]);
      if r.Err? {
        return Some(r.error);
      }
      return None;
    }

    /** `_snapshot(timeout_ms)`: the library transfers the image into the
        frame's buffer and writes the byte and frame counters. */
    method Snapshot(timeout: int) returns (e: Option<CamError>)
      requires Valid()
      modifies this, driver, if frame != null && frame.buffer != null then {frame.buffer} else {}
      ensures Valid() && methods == old(methods) && frame == old(frame)
      ensures frame != null ==> frame.buffer == old(frame.buffer)
      ensures var (r, h) := Snapshotting(old(AsSession()), old(driver.history), old(View()), old(bytesTransferred), old(frameNumber), timeout);
        && driver.history == h
        && e == (if r.Err? then Some(r.error) else None)
        && (r.Err? ==> bytesTransferred == old(bytesTransferred) && frameNumber == old(frameNumber))
        && (r.Ok? ==>
              && frame != null && frame.buffer != null
              && frame.buffer[..] == Overlay(old(frame.buffer[..]), r.value.data)
              && bytesTransferred == CellAfter(r.value.written, 3, old(bytesTransferred))
              && frameNumber == CellAfter(r.value.written, 4, old(frameNumber)))
    {
      var name := "StCam_TakeRawSnapShot";
      if name !in dll {
        return Some(NoAttribute(name));
      }
      if frame == null {
        return Some(NoAttribute("frame"));
      }
      if frame.buffer == null {
        return Some(NoAttribute("buffer"));
      }
      if dll[name].ConstAttr? {
        return Some(NotCallable(name));
      }
      var c := SnapshotCall(AsSession(), frame.buffer.Length, frame.bpi, bytesTransferred, frameNumber, timeout);
      var reply := driver.CallInto(c, frame.buffer);
      bytesTransferred := CellAfter(reply.written, 3, bytesTransferred);
      frameNumber := CellAfter(reply.written, 4, frameNumber);
      return None;
    }

    /** `grab_frame(timeout_ms=1000)`: capture, then hand out the frame. */
    method GrabFrame(timeout: int := 1000) returns (r: Result<SentechFrame, CamError>)
      requires Valid()
      modifies this, driver, if frame != null && frame.buffer != null then {frame.buffer} else {}
      ensures Valid() && methods == old(methods) && frame == old(frame)
      ensures var (s, h) := Snapshotting(old(AsSession()), old(driver.history), old(View()), old(bytesTransferred), old(frameNumber), timeout);
        && driver.history == h
        && (s.Err? ==> r == Err(s.error))
        && (s.Err? ==> bytesTransferred == old(bytesTransferred) && frameNumber == old(frameNumber))
        && (s.Ok? ==>
              && r == Ok(frame) && frame != null && frame.buffer[..] == Overlay(old(frame.buffer[..]), s.value.data)
              && bytesTransferred == CellAfter(s.value.written, 3, old(bytesTransferred))
              && frameNumber == CellAfter(s.value.written, 4, old(frameNumber)))
    {
      var e := Snapshot(timeout);
      if e.Some? {
        return Err(e.value);
      }
      return Ok(frame);
    }

    /** `release()`: the frame is gone afterwards, whatever happens. */
    method Release() returns (e: Option<CamError>)
      requires Valid()
      modifies this, driver
      ensures Valid() && frame == null && methods == old(methods)
      ensures (e, driver.history) == Releasing(old(AsSession()), old(driver.history), old(frame) != null)
      ensures bytesTransferred == old(bytesTransferred) && frameNumber == old(frameNumber)
    {
      if frame == null {
        return None;
      }
      frame := null;
      var r := Invoke(AsSession(), driver, "StCam_Close", []);
      if r.Err? && !r.error.NoAttribute? {
        return Some(r.error);
      }
      return None;
    }
  }

  /** One more registry key visited by `_setup_low_level`. */
  lemma AmongStep(m0: map<string, BoundMethod>, functions: map<string, RegEntry>, done: set<string>, k: string)
    requires k in functions && k !in done
    ensures m0 + CameraMethodsAmong(functions, done + {k})
         == if IsCameraFunction(functions[k].decl) then (m0 + CameraMethodsAmong(functions, done))[k := MethodOf(functions[k])]
            else m0 + CameraMethodsAmong(functions, done)
  {
  }

  /** The session a camera opened with `handle` has. */
  function OpenedSession(driver: Driver, dll: map<string, Attr>, functions: map<string, RegEntry>, handle: int): Session
  {
    Session(CameraMethods(functions), dll, handle, driver.respond)
  }

  /** `SentechCamera(index, dll)`: open the device, attach the low-level
      methods, then set up the first frame. */
  method Open(index: int, driver: Driver, dll: map<string, Attr>, functions: map<string, RegEntry>)
    returns (r: Result<SentechCamera, CamError>)
    modifies driver
    ensures var (o, h1) := DllCall(Session(map[], dll, 0, driver.respond), old(driver.history), "StCam_Open", [ByVal(index)]);
      && (o.Err? ==> r == Err(o.error) && driver.history == h1)
      && (o.Ok? ==>
            var (g, h2) := FrameSetup(OpenedSession(driver, dll, functions, o.value.result), h1);
            && driver.history == h2
            && (g.Err? ==> r == Err(g.error))
            && (g.Ok? ==>
                  && r.Ok? && fresh(r.value) && r.value.driver == driver
                  && r.value.AsSession() == OpenedSession(driver, dll, functions, o.value.result)
                  && r.value.FrameIs(g.value) && fresh(r.value.frame) && r.value.Valid()
                  && r.value.bytesTransferred == 0 && r.value.frameNumber == 0))
  {
    var device := CallDll(Session(map[], dll, 0, driver.respond), driver, "StCam_Open", [ByVal(index)]);
    if device.Err? {
      return Err(device.error);
    }
    var cam := new SentechCamera(driver, dll, functions, device.value.result);
    cam.SetupLowLevel();
    assert map[] + CameraMethods(functions) == CameraMethods(functions);
    var e := cam.SetupFrame();
    if e.Some? {
      return Err(e.value);
    }
    return Ok(cam);
  }
}
