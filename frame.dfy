/** pysentech/frame.py: the per-format tables and `_SentechFrame`, the image
    buffer a camera captures into. The frame's `camera` reference is modelled
    by what the frame uses of it: the camera's session (handle, methods,
    library) and its driver, neither of which the camera changes once open. */
module Frames {
  import opened Wrappers
  import opened Native
  import opened Synth
  import opened Binding

  /** `BPP`: bytes per pixel of each pixel format name. */
  const Bpp: map<string, nat> := map["Mono8" := 1, "BGR24" := 3, "BGR32" := 4]

  /** `PIL_FORMATS`: the PIL mode each pixel format is converted with. */
  const PilFormats: map<string, string> := map["Mono8" := "L", "BGR24" := "RGB", "BGR32" := "RGBA"]

  /** The two tables know the same formats, each PIL mode names as many
      channels as the format has bytes per pixel, and distinct formats get
      distinct modes. */
  lemma TablesAgree()
    ensures Bpp.Keys == PilFormats.Keys
    ensures forall f :: f in Bpp ==> Bpp[f] == |PilFormats[f]|
    ensures forall f, g :: f in PilFormats && g in PilFormats && f != g ==> PilFormats[f] != PilFormats[g]
  {
    assert PilFormats["BGR24"] != PilFormats["BGR32"] by {
      assert |PilFormats["BGR24"]| != |PilFormats["BGR32"]|;
    }
  }

  /** `create_string_buffer(n)`: `n` zero bytes. */
  function Zeros(n: nat): (r: seq<byte>)
    ensures |r| == n && forall i :: 0 <= i < n ==> r[i] == 0
  {
    seq(n, _ => 0)
  }

  /** What `to_file(path)` does after the calls `h`, for a frame of the given
      size whose buffer has `buffer` bytes, or none once released. */
  function Saving(s: Session, h: seq<NativeCall>, width: int, height: int, buffer: Option<nat>, path: string)
    : (Option<CamError>, seq<NativeCall>)
  {
    var (q, h1) := Invocation(s, h, "StCam_GetPreviewPixelFormat", [0]);
    if q.Err? then (Some(q.error), h1)
    else if "StCam_SaveImageA" !in s.dll then (Some(NoAttribute("StCam_SaveImageA")), h1)
    else if buffer.None? then (Some(NoAttribute("buffer")), h1)
    else
      var args := [ByVal(s.handle), ByVal(width), ByVal(height), ByVal(ULong(q.value.cells[0])), Buffer(buffer.value), Text(path), ByVal(0)];
      var (r, h2) := DllCall(s, h1, "StCam_SaveImageA", args);
      if r.Err? then (Some(r.error), h2)
      else if r.value.result == 0 then (Some(SaveFailed(path)), h2)
      else (None, h2)
  }

  /** `to_file` hands the library the frame's size, the pixel format code
      the device reports, the buffer and the path, and raises IOError naming
      the path exactly when that call answers 0. */
  lemma SavePassesFrame(s: Session, h: seq<NativeCall>, width: int, height: int, length: nat, path: string)
    requires "StCam_GetPreviewPixelFormat" in s.methods && Invocation(s, h, "StCam_GetPreviewPixelFormat", [0]).0.Ok?
    requires "StCam_SaveImageA" in s.dll && s.dll["StCam_SaveImageA"].FuncAttr?
    ensures var (q, h1) := Invocation(s, h, "StCam_GetPreviewPixelFormat", [0]);
      var c := NativeCall("StCam_SaveImageA",
        [ByVal(s.handle), ByVal(width), ByVal(height), ByVal(ULong(q.value.cells[0])), Buffer(length), Text(path), ByVal(0)]);
      var (e, h2) := Saving(s, h, width, height, Some(length), path);
      && h2 == h1 + [c]
      && (e == Some(SaveFailed(path)) <==> s.respond(h1, c).result == 0)
      && (e.None? <==> s.respond(h1, c).result != 0)
  {
  }

  /** `_SentechFrame`. */
  class SentechFrame {
    const width: int
    const height: int
    const pixelFormat: string
    const bpi: int
    /** `bpp`, looked up in `BPP` when the frame is made. */
    const bpp: nat
    /** The camera, as far as the frame uses it. */
    const session: Session
    const driver: Driver
    /** `self.buffer`: null once `_release_buffer` has deleted it. */
    var buffer: array?<byte>

    constructor (width: int, height: int, bpi: int, session: Session, driver: Driver, pixelFormat: string, bpp: nat)
      ensures this.width == width && this.height == height && this.bpi == bpi && this.pixelFormat == pixelFormat
      ensures this.bpp == bpp && this.session == session && this.driver == driver
      ensures buffer == null
    {
      this.width := width;
      this.height := height;
      this.pixelFormat := pixelFormat;
      this.bpi := bpi;
      this.bpp := bpp;
      this.session := session;
      this.driver := driver;
      buffer := null;
    }

    /** `_setup_buffer`: a fresh buffer of exactly `bpi` zero bytes, whatever
        the width, height and bytes per pixel. */
    method SetupBuffer() returns (e: Option<CamError>)
      modifies this
      ensures bpi < 0 ==> e == Some(NegativeSize(bpi)) && buffer == old(buffer)
      ensures bpi >= 0 ==> e.None? && buffer != null && fresh(buffer) && buffer[..] == Zeros(bpi)
    {
      if bpi < 0 {
        return Some(NegativeSize(bpi));
      }
      buffer := new byte[bpi](_ => 0);
      return None;
    }

    /** `_release_buffer`: `del self.buffer`, which raises AttributeError
        when the buffer is already gone. */
    method ReleaseBuffer() returns (e: Option<CamError>)
      modifies this
      ensures buffer == null
      ensures e == if old(buffer) == null then Some(NoAttribute("buffer")) else None
    {
      if buffer == null {
        return Some(NoAttribute("buffer"));
      }
      buffer := null;
      return None;
    }

    /** `to_file(path)`. */
    method ToFile(path: string) returns (e: Option<CamError>)
      requires driver.respond == session.respond
      modifies driver
      ensures (e, driver.history)
           == Saving(session, old(driver.history), width, height, if buffer == null then None else Some(buffer.Length), path)
    {
      var q := Invoke(session, driver, "StCam_GetPreviewPixelFormat", [0]);
      if q.Err? {
        return Some(q.error);
      }
      if "StCam_SaveImageA" !in session.dll {
        return Some(NoAttribute("StCam_SaveImageA"));
      }
      if buffer == null {
        return Some(NoAttribute("buffer"));
      }
      var args := [ByVal(session.handle), ByVal(width), ByVal(height), ByVal(ULong(q.value.cells[0])), Buffer(buffer.Length), Text(path), ByVal(0)];
      var r := CallDll(session, driver, "StCam_SaveImageA", args);
      if r.Err? {
        return Some(r.error);
      }
      if r.value.result == 0 {
        return Some(SaveFailed(path));
      }
      return None;
    }
  }

  /** `_SentechFrame(width, height, bpi, camera, pixel_format)`: an unknown
      format raises KeyError before any buffer is made. */
  method NewFrame(width: int, height: int, bpi: int, session: Session, driver: Driver, pixelFormat: string := "Mono8")
    returns (r: Result<SentechFrame, CamError>)
    ensures pixelFormat !in Bpp ==> r == Err(UnknownFormatName(pixelFormat))
    ensures pixelFormat in Bpp && bpi < 0 ==> r == Err(NegativeSize(bpi))
    ensures pixelFormat in Bpp && bpi >= 0 ==>
      && r.Ok? && fresh(r.value)
      && r.value.width == width && r.value.height == height && r.value.bpi == bpi
      && r.value.pixelFormat == pixelFormat && r.value.bpp == Bpp[pixelFormat]
      && r.value.session == session && r.value.driver == driver
      && r.value.buffer != null && fresh(r.value.buffer) && r.value.buffer[..] == Zeros(bpi)
  {
    if pixelFormat !in Bpp {
      return Err(UnknownFormatName(pixelFormat));
    }
    var f := new SentechFrame(width, height, bpi, session, driver, pixelFormat, Bpp[pixelFormat]);
    var e := f.SetupBuffer();
    if e.Some? {
      return Err(e.value);
    }
    return Ok(f);
  }
}
