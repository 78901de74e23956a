/** pysentech/camera.py, `make_method` and what it needs: the camera methods
    synthesized from the library's `functions` registry, the wrapping of
    pointer-typed arguments, the handle passed first, and the `BOOL` failure
    convention that raises `SentechError` (pysentech/error.py). */
module Synth {
  import opened Wrappers
  import opened Native
  import opened HeaderScan
  import opened Binding
  import opened CTypes

  /** `POINTER_ARGS`: the parameter types whose arguments go by reference. */
  const PointerArgs: seq<string> := ["PWORD", "PDWORD", "PBYTE", "PSHORT", "PLONG", "PFLOAT"]

  /** A camera method made by `make_method`: the foreign function it calls,
      with the declared `arg_types` and `ret_type` of its registry entry. */
  datatype BoundMethod = BoundMethod(symbol: string, argTypes: seq<string>, retType: string)

  /** The exceptions the camera layer raises. */
  datatype CamError =
    | NoAttribute(name: string)       // AttributeError
    | NotCallable(name: string)       // TypeError: a constant where a function was expected
    | IndexError                      // more arguments than declared parameters
    | DeviceError(message: string)    // SentechError
    | UnknownFormatCode(code: int)    // KeyError from `PIXEL_FORMATS[code]`
    | UnknownFormatName(name: string) // KeyError from the pixel format setter or `BPP`
    | NegativeSize(size: int)         // ValueError from `create_string_buffer`
    | SaveFailed(path: string)        // IOError from `to_file`

  /** What a camera method returns: the foreign function's result and the
      value of each argument cell after the call. */
  datatype Outcome = Outcome(result: int, cells: seq<int>)

  /** What a camera method sees of its camera: the synthesized methods, the
      library object's attributes, the handle, and the driver's behaviour. */
  datatype Session = Session(methods: map<string, BoundMethod>, dll: map<string, Attr>, handle: int, respond: Respond)

  // ---------------------------------------------------------------------------
  // `_setup_low_level`

  /** Only functions whose first declared parameter is `hCamera` become methods. */
  predicate IsCameraFunction(d: FuncDecl)
  {
    |d.argNames| > 0 && d.argNames[0] == "hCamera"
  }

  function MethodOf(e: RegEntry): BoundMethod
  {
    BoundMethod(e.bound.name, e.decl.argTypes, e.decl.retType)
  }

  /** The methods `_setup_low_level` attaches for the registry keys in `done`. */
  function CameraMethodsAmong(functions: map<string, RegEntry>, done: set<string>): map<string, BoundMethod>
  {
    map k | k in done && k in functions && IsCameraFunction(functions[k].decl) :: MethodOf(functions[k])
  }

  function CameraMethods(functions: map<string, RegEntry>): map<string, BoundMethod>
  {
    CameraMethodsAmong(functions, functions.Keys)
  }

  /** After a successful load, the camera methods are exactly the declared
      functions whose first parameter is `hCamera`, each calling the foreign
      function of its own name with its declared types. */
  lemma CameraMethodsFromLoad(s: LoadState, lines: seq<string>, exported: set<string>, table: map<string, CType>, k: string)
    requires ScanDeclarations(lines).Ok?
    requires FunctionsPhase(s, lines, exported, table).1.None?
    ensures FunctionsPhase(s, lines, exported, table).0.functions.Some?
    ensures var t := ScanDeclarations(lines).value;
      var ms := CameraMethods(FunctionsPhase(s, lines, exported, table).0.functions.value);
      && (k in ms <==> k in t.entries && IsCameraFunction(t.entries[k]))
      && (k in ms ==> ms[k] == BoundMethod(k, t.entries[k].argTypes, t.entries[k].retType))
  {
    BoundAfterLoad(s, lines, exported, table, k);
  }

  // ---------------------------------------------------------------------------
  // `make_method`

  /** `arg_types[1:]`: the declared types after the handle. */
  function ParamTypes(m: BoundMethod): seq<string>
  {
    if m.argTypes == [] then [] else m.argTypes[1..]
  }

  /** `[a if method_arg_types[i] not in POINTER_ARGS else byref(a) for i, a
      in enumerate(args)]`, which raises IndexError once the arguments
      outnumber the declared types. */
  function WrapArgs(args: seq<int>, types: seq<string>): (r: Option<seq<Arg>>)
    ensures r.Some? <==> |args| <= |types|
    ensures r.Some? ==> |r.value| == |args|
    ensures r.Some? ==> forall i :: 0 <= i < |args| ==>
      && (r.value[i].ByRef? || r.value[i].ByVal?)
      && r.value[i].value == args[i]
      && (r.value[i].ByRef? <==> types[i] in PointerArgs)
  {
    if args == [] then Some([])
    else if types == [] then None
    else
      var a := if types[0] in PointerArgs then ByRef(args[0]) else ByVal(args[0]);
      match WrapArgs(args[1..], types[1..])
      case None => None
      case Some(rest) => Some([a] + rest)
  }

  /** The caller's argument `i` is at position `i + 1` of the native call; a
      cell passed by reference holds what the function wrote there, if
      anything, and every other argument keeps its value. */
  function CellsAfter(args: seq<int>, wrapped: seq<Arg>, written: map<nat, int>): (r: seq<int>)
    requires |wrapped| == |args|
    ensures |r| == |args|
  {
    seq(|args|, i requires 0 <= i < |args| =>
      if wrapped[i].ByRef? && i + 1 in written then written[i + 1] else args[i])
  }

  /** `str(n)` for any integer. */
  function IntText(n: int): string
  {
    if n < 0 then "-" + DecimalText(-n) else DecimalText(n)
  }

  /** The message of `SentechError`: `"error code {}".format(code)`. */
  function ErrorMessage(code: int): string
  {
    "error code " + IntText(code)
  }

  /** The message names the code: two codes give the same message only if
      they are equal. */
  lemma ErrorMessageInjective(a: int, b: int)
    requires ErrorMessage(a) == ErrorMessage(b)
    ensures a == b
  {
    var p := "error code ";
    assert IntText(a) == ErrorMessage(a)[|p|..];
    assert IntText(b) == ErrorMessage(b)[|p|..];
    IntTextInjective(a, b);
  }

  lemma IntTextInjective(a: int, b: int)
    requires IntText(a) == IntText(b)
    ensures a == b
  {
    IntTextSign(a);
    IntTextSign(b);
    if a < 0 {
      assert DecimalText(-a) == IntText(a)[1..];
      assert DecimalText(-b) == IntText(b)[1..];
      DecimalRoundTrip(-a);
      DecimalRoundTrip(-b);
    } else {
      DecimalRoundTrip(a);
      DecimalRoundTrip(b);
    }
  }

  /** The text of a negative number, and only of one, starts with `-`. */
  lemma IntTextSign(n: int)
    ensures IntText(n) != [] && (IntText(n)[0] == '-' <==> n < 0)
  {
    if n >= 0 {
      assert IsDigit(DecimalText(n)[0]);
    }
  }

  /** A direct call `dll.<name>(*args)` on the library object. */
  function DllCall(s: Session, h: seq<NativeCall>, name: string, args: seq<Arg>): (r: (Result<Reply, CamError>, seq<NativeCall>))
    ensures h <= r.1
    ensures r.0.Err? ==> r.0.error == NoAttribute(name) || r.0.error == NotCallable(name)
  {
    if name !in s.dll then (Err(NoAttribute(name)), h)
    else if s.dll[name].ConstAttr? then (Err(NotCallable(name)), h)
    else var c := NativeCall(name, args); (Ok(s.respond(h, c)), h + [c])
  }

  /** `raise SentechError(cam.handle, dll)`: the exception's constructor asks
      the library for the last error code; whatever that call raises is
      raised instead. */
  function RaiseDeviceError(s: Session, h: seq<NativeCall>): (r: (CamError, seq<NativeCall>))
    ensures h <= r.1
    ensures r.0.DeviceError? || r.0 == NoAttribute("StCam_GetLastError") || r.0 == NotCallable("StCam_GetLastError")
  {
    var (r, h1) := DllCall(s, h, "StCam_GetLastError", [ByVal(s.handle)]);
    match r
    case Err(e) => (e, h1)
    case Ok(reply) => (DeviceError(ErrorMessage(reply.result)), h1)
  }

  /** Calling the camera method `name` with `args` after the calls `h`. */
  function Invocation(s: Session, h: seq<NativeCall>, name: string, args: seq<int>): (r: (Result<Outcome, CamError>, seq<NativeCall>))
    ensures r.0.Ok? ==> |r.0.value.cells| == |args|
    ensures h <= r.1
    ensures r.0.Err? ==> r.0.error.NoAttribute? || r.0.error.NotCallable? || r.0.error.IndexError? || r.0.error.DeviceError?
  {
    if name !in s.methods then (Err(NoAttribute(name)), h)
    else
      var m := s.methods[name];
      match WrapArgs(args, ParamTypes(m))
      case None => (Err(IndexError), h)
      case Some(wrapped) =>
        var c := NativeCall(m.symbol, [ByVal(s.handle)] + wrapped);
        var reply := s.respond(h, c);
        if m.retType == "BOOL" && reply.result == 0 then
          var (e, h2) := RaiseDeviceError(s, h + [c]);
          (Err(e), h2)
        else
          (Ok(Outcome(reply.result, CellsAfter(args, wrapped, reply.written))), h + [c])
  }

  /** The native call a camera method makes, when its arguments fit. */
  function CallOf(s: Session, m: BoundMethod, args: seq<int>): NativeCall
    requires |args| <= |ParamTypes(m)|
  {
    NativeCall(m.symbol, [ByVal(s.handle)] + WrapArgs(args, ParamTypes(m)).value)
  }

  /** A method the camera does not have raises AttributeError, and one called
      with more arguments than its declaration has parameters after the
      handle raises IndexError; neither reaches the library. */
  lemma InvocationRejects(s: Session, h: seq<NativeCall>, name: string, args: seq<int>)
    ensures name !in s.methods ==> Invocation(s, h, name, args) == (Err(NoAttribute(name)), h)
    ensures name in s.methods && |args| > |ParamTypes(s.methods[name])| ==>
      Invocation(s, h, name, args) == (Err(IndexError), h)
  {
  }

  /** Otherwise the foreign function receives the camera's handle first,
      then the caller's arguments in order, each by reference exactly when
      its declared type is in `POINTER_ARGS`; that call is the next one the
      library sees. */
  lemma InvocationCalls(s: Session, h: seq<NativeCall>, name: string, args: seq<int>)
    requires name in s.methods && |args| <= |ParamTypes(s.methods[name])|
    ensures var c := CallOf(s, s.methods[name], args);
      var h' := Invocation(s, h, name, args).1;
      && |h'| > |h| && h'[..|h| + 1] == h + [c]
      && c.symbol == s.methods[name].symbol
      && |c.args| == |args| + 1 && c.args[0] == ByVal(s.handle)
      && (forall i :: 0 <= i < |args| ==>
            && c.args[i + 1].value == args[i]
            && (c.args[i + 1].ByRef? || c.args[i + 1].ByVal?)
            && (c.args[i + 1].ByRef? <==> ParamTypes(s.methods[name])[i] in PointerArgs))
  {
    var m := s.methods[name];
    var c := CallOf(s, m, args);
    var wrapped := WrapArgs(args, ParamTypes(m)).value;
    var r := Invocation(s, h, name, args);
    var reply := s.respond(h, c);
    if m.retType == "BOOL" && reply.result == 0 {
      var h2 := RaiseDeviceError(s, h + [c]).1;
      assert r.1 == h2;
      assert h2[..|h| + 1] == h + [c];
    } else {
      assert r.1 == h + [c];
      assert r.1[..|h| + 1] == h + [c];
    }
    forall i | 0 <= i < |args|
      ensures c.args[i + 1].value == args[i]
      ensures c.args[i + 1].ByRef? || c.args[i + 1].ByVal?
      ensures c.args[i + 1].ByRef? <==> ParamTypes(m)[i] in PointerArgs
    {
      assert c.args[i + 1] == wrapped[i];
    }
  }

  /** A `BOOL` function that returns 0 raises `SentechError` whose message
      is `"error code N"`, N being what `StCam_GetLastError(handle)` answers
      right after the failed call. */
  lemma FalseBoolRaises(s: Session, h: seq<NativeCall>, name: string, args: seq<int>)
    requires name in s.methods && |args| <= |ParamTypes(s.methods[name])|
    requires s.methods[name].retType == "BOOL"
    requires s.respond(h, CallOf(s, s.methods[name], args)).result == 0
    requires "StCam_GetLastError" in s.dll && s.dll["StCam_GetLastError"].FuncAttr?
    ensures var c := CallOf(s, s.methods[name], args);
      var query := NativeCall("StCam_GetLastError", [ByVal(s.handle)]);
      Invocation(s, h, name, args)
        == (Err(DeviceError(ErrorMessage(s.respond(h + [c], query).result))), h + [c, query])
  {
    var c := CallOf(s, s.methods[name], args);
    assert h + [c] + [NativeCall("StCam_GetLastError", [ByVal(s.handle)])] == h + [c, NativeCall("StCam_GetLastError", [ByVal(s.handle)])];
  }

  /** Any other result, a truthy `BOOL` or the result of a function of another
      return type, comes back unchanged, with no further call. */
  lemma ResultPassesThrough(s: Session, h: seq<NativeCall>, name: string, args: seq<int>)
    requires name in s.methods && |args| <= |ParamTypes(s.methods[name])|
    requires s.methods[name].retType != "BOOL" || s.respond(h, CallOf(s, s.methods[name], args)).result != 0
    ensures var c := CallOf(s, s.methods[name], args);
      var r := Invocation(s, h, name, args);
      && r.0.Ok? && r.0.value.result == s.respond(h, c).result && r.1 == h + [c]
  {
  }

  /** A cell passed by reference reads back what the function wrote there;
      an argument passed by value reads back unchanged. */
  lemma CellsReadBack(s: Session, h: seq<NativeCall>, name: string, args: seq<int>, i: nat)
    requires name in s.methods && |args| <= |ParamTypes(s.methods[name])| && i < |args|
    requires Invocation(s, h, name, args).0.Ok?
    ensures var reply := s.respond(h, CallOf(s, s.methods[name], args));
      var cell := Invocation(s, h, name, args).0.value.cells[i];
      && (ParamTypes(s.methods[name])[i] in PointerArgs && i + 1 in reply.written ==> cell == reply.written[i + 1])
      && (ParamTypes(s.methods[name])[i] !in PointerArgs || i + 1 !in reply.written ==> cell == args[i])
  {
    var m := s.methods[name];
    var wrapped := WrapArgs(args, ParamTypes(m)).value;
    var reply := s.respond(h, CallOf(s, m, args));
    assert Invocation(s, h, name, args).0 == Ok(Outcome(reply.result, CellsAfter(args, wrapped, reply.written)));
    assert CellsAfter(args, wrapped, reply.written)[i] == if wrapped[i].ByRef? && i + 1 in reply.written then reply.written[i + 1] else args[i];
  }

  // ---------------------------------------------------------------------------
  // The imperative side: the synthesized method and direct library calls

  /** The body of the `method` closure `make_method` returns, for the camera
      whose session is `s`. */
  method Invoke(s: Session, driver: Driver, name: string, args: seq<int>) returns (r: Result<Outcome, CamError>)
    requires driver.respond == s.respond
    modifies driver
    ensures (r, driver.history) == Invocation(s, old(driver.history), name, args)
  {
    if name !in s.methods {
      return Err(NoAttribute(name));
    }
    var m := s.methods[name];
    var wrapped := WrapArgs(args, ParamTypes(m));
    if wrapped.None? {
      return Err(IndexError);
    }
    var reply := driver.Call(NativeCall(m.symbol, [ByVal(s.handle)] + wrapped.value));
    if m.retType == "BOOL" && reply.result == 0 {
      var e := RaiseError(s, driver);
      return Err(e);
    }
    return Ok(Outcome(reply.result, CellsAfter(args, wrapped.value, reply.written)));
  }

  /** `SentechError(handle, dll)`. */
  method RaiseError(s: Session, driver: Driver) returns (e: CamError)
    requires driver.respond == s.respond
    modifies driver
    ensures (e, driver.history) == RaiseDeviceError(s, old(driver.history))
  {
    var r := CallDll(s, driver, "StCam_GetLastError", [ByVal(s.handle)]);
    match r
    case Err(err) => e := err;
    case Ok(reply) => e := DeviceError(ErrorMessage(reply.result));
  }

  /** `dll.<name>(*args)`. */
  method CallDll(s: Session, driver: Driver, name: string, args: seq<Arg>) returns (r: Result<Reply, CamError>)
    requires driver.respond == s.respond
    modifies driver
    ensures (r, driver.history) == DllCall(s, old(driver.history), name, args)
  {
    if name !in s.dll {
      return Err(NoAttribute(name));
    }
    if s.dll[name].ConstAttr? {
      return Err(NotCallable(name));
    }
    var reply := driver.Call(NativeCall(name, args));
    return Ok(reply);
  }
}
