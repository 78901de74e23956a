# pysentech in Dafny

A model of pysentech, the ctypes wrapper for the Sentech USB camera SDK,
together with proofs about that model. It covers three parts of the
library, plus the older `senpy` variant of the loader.

1. **The library loader.** `SentechDLL` reads the SDK header `StCamD.h`
   line by line.
   - A `#define` pattern yields constants.
   - A `" WINAPI "` / `(` / `)` / `,` / space splitter yields the
     `functions` dictionary `{name: arg_types, arg_names, ret_type}`.
   - Each declared function is then looked up in the DLL and given
     `argtypes` and `restype` from the `types` table, all or nothing.
   - `find_dll` derives the DLL path from the header path.

   Both variants are modelled: pysentech (modules `SentechDll`, `Binding`)
   and senpy (module `SenpyDll`). senpy's `find_dll` takes an `arch`
   parameter and never checks the file. Its `HANDLE` is the value type
   `c_ulong`. It visits the declarations in the unspecified order of a
   Python 2 dict and keeps no registry.
2. **The camera.** `make_method` turns every function whose first parameter
   is `hCamera` into a camera method (module `Synth`).
   - Such a method passes the handle first.
   - It passes pointer-typed arguments by reference.
   - It raises `SentechError("error code N")` when a `BOOL` function returns 0.

   `SentechCamera` (module `Camera`) is a class whose fields are the
   handle, the attached methods, the current frame and the two
   by-reference counters. Its methods are proved against specification
   functions over the history of native calls. The setters for pixel
   format, shape, height and width rebuild the frame. The offsets setter
   does not. The gain setter clamps. `release` closes the device at most
   once.
3. **The frame.** `_SentechFrame` (module `Frames`) has the `BPP` and
   `PIL_FORMATS` tables and a buffer of exactly `bpi` zero bytes.
   `to_file` raises IOError when the library reports failure.

**The native side.** The DLL and the device behind it are a `Driver`
(module `Native`). It is a deterministic function from the calls made so
far and the next call to a reply. A reply is the return value, the
by-reference cells written and the bytes transferred. The driver keeps the
call history. Every camera-level claim is about which calls reach the
library, in what order, with what arguments, and what the camera makes of
the replies.

**The loader's inputs.** The loader works on the header as a sequence of
lines. The DLL is given as the set of symbols it exports. The file system
is a map from paths to file contents and library exports. `exec` of a
macro value is an abstract `Evaluator`, partial on purpose:
- it assigns a value;
- or it raises NameError/SyntaxError, which the loader swallows;
- or it raises something else, which aborts the load.

A concrete `LiteralEval` evaluates decimal, negated decimal and
hexadecimal integers and plain quoted strings. In `LiteralEval`, a name that is not an ASCII identifier, or is one of
Python 3's reserved words (`True`, `None`, `class`, ...), is treated as
making `self.<name>=...` a SyntaxError. It is proved never to abort.

Modules are `Wrappers`, `PyStr` (the parts of Python `str` the scanner
uses), `CTypes`, `HeaderScan`, `Binding`, `SentechDll`, `SenpyDll`,
`Native`, `Synth`, `Frames` and `Camera`.

### Where the code and its described behaviour differ (the model follows the code)

- An empty argument list `()` gives `arg_types == [""]`, not `[]`. So a
  zero-argument function never receives `argtypes`: `""` is not in either
  `types` table.
- `_release_buffer` called twice raises AttributeError the second time. It
  is not idempotent.
- `_snapshot` ignores the result of `StCam_TakeRawSnapShot`. A timeout or
  failure reported by the library raises nothing.
- `getattr(self.dll, k)` on a symbol the DLL lacks raises AttributeError,
  and nothing catches it. The whole load aborts and later functions stay
  unbound.
- A camera method does not accept a plain Python value for a pointer
  parameter: `byref(a)` raises TypeError unless `a` is a ctypes instance.
  Only a ctypes cell reaches the call by reference. The camera's own
  getters always pass cells.

## Model

| member | source | states |
|---|---|---|
| PyStr.Find | pysentech/sentechdll.py:125 | `sep in s`: the first index where `sep` occurs, and `None` exactly when it does not occur |
| PyStr.JoinSplit | pysentech/sentechdll.py:126-127 | Joining the pieces of `s.split(sep)` with `sep` gives `s` back |
| PyStr.SplitPiecesFree | pysentech/sentechdll.py:126-127 | No piece of a split contains the separator |
| PyStr.SplitCount | pysentech/sentechdll.py:126-130 | Splitting on a character gives one piece more than the character's occurrences |
| PyStr.SplitJoinChar | pysentech/sentechdll.py:130 | Splitting on a character the pieces lack undoes joining with it |
| PyStr.LStrip | pysentech/sentechdll.py:130 | `lstrip(" ")` drops exactly the leading spaces and leaves a result that does not start with a space |
| PyStr.RStrip | pysentech/sentechdll.py:130 | `rstrip(" ")` drops exactly the trailing spaces |
| PyStr.Strip | pysentech/sentechdll.py:130 | `strip(" ")` is a slice of the text with only spaces outside it and no space at either end of it, so exactly the edge spaces go; text without edge spaces is unchanged |
| PyStr.SpanSpace | pysentech/sentechdll.py:106 | A greedy `\s*` takes the longest whitespace prefix and stops at a non-space |
| PyStr.SpanNonSpace | pysentech/sentechdll.py:106 | A greedy `\S*` takes the longest non-whitespace prefix and stops at whitespace |
| CTypes.ResolveAll | pysentech/sentechdll.py:147 | `[types[t] for t in names]` succeeds iff every name is a key, and then maps each name to its entry in order |
| CTypes.Lookup | pysentech/sentechdll.py:154 | `types[name]` succeeds iff the name is a key |
| CTypes.EmptyNameUnknown | pysentech/sentechdll.py:41-73 | Neither table has an entry for the empty type name |
| CTypes.TablesDifferOnlyAtHandle | senpy/sentechdll.py:15-46 | The two tables have the same keys and differ only at `HANDLE`: a pointer in pysentech, `c_ulong` in senpy |
| HeaderScan.ArgPieces | pysentech/sentechdll.py:130 | One stripped piece per comma-separated piece, so the count of commas plus one |
| HeaderScan.HasNameIffSpace | pysentech/sentechdll.py:133 | A piece has a second token exactly when it contains a space |
| HeaderScan.ArgTypesOf | pysentech/sentechdll.py:131 | One type per piece, its first space-separated token |
| HeaderScan.NamesOrRaise | pysentech/sentechdll.py:133 | The names list exists iff every piece has a second token, and then holds each second token |
| HeaderScan.ArgNamesOf | pysentech/sentechdll.py:132-136 | `arg_names` is all the names, one per piece, or `[]` when any piece lacks one |
| HeaderScan.ParseDeclaration | pysentech/sentechdll.py:124-139 | A line without `" WINAPI "` adds nothing; a failed unpacking raises ValueError for that line; otherwise the entry's name and return type |
| HeaderScan.ParseShape | pysentech/sentechdll.py:126-131 | `RET WINAPI name(args)tail` parses to `name` with return type `RET` and the entry of `args` |
| HeaderScan.ParsePieces | pysentech/sentechdll.py:126-139 | An unfolding of `ParseDeclaration`'s success branch in terms of the three `split` calls, used to prove `ParseShape`: a line whose two unpackings succeed gives the name before `(` and the entry of the text up to the first `)` |
| HeaderScan.TwoMarkersAbort | pysentech/sentechdll.py:126 | A line with two `" WINAPI "` markers fails to unpack and aborts the load |
| HeaderScan.ParenCountDecides | pysentech/sentechdll.py:127 | With one marker, a line parses iff the text after it holds exactly one `(` |
| HeaderScan.ParseRendered | pysentech/sentechdll.py:124-139 | A declaration written `TYPE name, TYPE name` parses back to those types and names in order |
| HeaderScan.RenderedPieces | pysentech/sentechdll.py:130-136 | The pieces of a rendered argument list give back its types and names |
| HeaderScan.EmptyArgumentList | pysentech/sentechdll.py:129-136 | `name()` gives `arg_types == [""]` and `arg_names == []` |
| HeaderScan.EmptyArgText | pysentech/sentechdll.py:130-136 | Empty argument text splits to `[""]` |
| HeaderScan.DeclTable.Put | pysentech/sentechdll.py:137-139 | Storing a key replaces its entry; a new key goes last, an old key keeps its place |
| HeaderScan.Absorb | pysentech/sentechdll.py:124-139 | The loop over parsed lines gives a well-formed insertion-ordered table |
| HeaderScan.ParseEach | pysentech/sentechdll.py:124-139 | Each line is parsed on its own |
| HeaderScan.ScanHeader | pysentech/sentechdll.py:121-139 | The declaration loop computes the table `ScanDeclarations` specifies |
| HeaderScan.AbsorbFailsAtFirstError | pysentech/sentechdll.py:124-139 | The loop fails iff some line fails, and then with the first failing line's error |
| HeaderScan.AbsorbKeys | pysentech/sentechdll.py:137 | The table's keys are exactly the names the lines yield |
| HeaderScan.AbsorbLastWins | pysentech/sentechdll.py:137-139 | A name's entry is that of the last line naming it |
| HeaderScan.AbsorbErrorSticks | pysentech/sentechdll.py:124-139 | Once a prefix of the lines has failed, later lines change nothing |
| HeaderScan.ScanFailsAtFirstBadLine | pysentech/sentechdll.py:124-139 | The scan fails iff some line fails to unpack, and then with the first such line's error |
| HeaderScan.TableKeysAreDeclaredNames | pysentech/sentechdll.py:124-139 | A name is in the table iff some line declares it |
| HeaderScan.LastDeclarationWins | pysentech/sentechdll.py:137-139 | A later declaration replaces an earlier one of the same name |
| HeaderScan.LineEnd | pysentech/sentechdll.py:106 | Where the regex `.` stops: the first newline, or the end |
| HeaderScan.LastQuoteEnd | pysentech/sentechdll.py:106 | The end of the last `"` after the first character; no quote follows it |
| HeaderScan.QuotedLength | pysentech/sentechdll.py:106 | The greedy `".*"` spans from the opening quote to the last quote before the newline, or fails when there is none |
| HeaderScan.ValueToken | pysentech/sentechdll.py:106 | The value group is a non-empty prefix of the text, and is missing exactly when the text is empty or starts with whitespace |
| HeaderScan.MatchDefine | pysentech/sentechdll.py:106-111 | A match yields a non-empty name without whitespace and a non-empty value; a line not starting with `#define` never matches |
| HeaderScan.MatchShape | pysentech/sentechdll.py:106-111 | The name group is the text between the two whitespace runs, and the value group follows the second run |
| HeaderScan.MatchRenderedToken | pysentech/sentechdll.py:106-111 | `#define NAME VALUE` with an unquoted value matches back to exactly that name and that value |
| HeaderScan.MatchRenderedQuoted | pysentech/sentechdll.py:106-111 | A quoted value comes back whole, up to the last quote on the line |
| HeaderScan.DefineWithoutValue | pysentech/sentechdll.py:106-109 | `#define NAME` with no value matches nothing |
| HeaderScan.LiteralEval | pysentech/sentechdll.py:113-117 | The literal evaluator never raises an uncaught exception, assigns only to identifiers, and skips reserved words such as `True` and `None` as the SyntaxError they are (Python 3 names outside ASCII, dotted names and special attributes are not told apart; see "Left out") |
| HeaderScan.DecimalText | pysentech/sentechdll.py:113 | The decimal text of a number is a non-empty run of digits |
| HeaderScan.DecimalRoundTrip | pysentech/sentechdll.py:113 | Reading back the decimal text of `n` gives `n`, and the text is a valid Python 3 literal |
| HeaderScan.EvalDecimal | pysentech/sentechdll.py:113 | `#define NAME <decimal n>` assigns the integer `n` when `NAME` is an identifier and not a reserved word |
| Binding.ApplyLine | pysentech/sentechdll.py:108-117 | One line aborts iff its `exec` raises something other than NameError/SyntaxError, and then changes no attribute |
| Binding.ApplyLineAttrs | pysentech/sentechdll.py:108-117 | A line assigns at most the one name it defines and leaves every other attribute as it was |
| Binding.MatchEach | pysentech/sentechdll.py:107-108 | The pattern is matched on every line, in order |
| Binding.ConstantsAbortAtFirstRaise | pysentech/sentechdll.py:107-117 | The constants loop aborts iff some line's `exec` raises an uncaught exception, and then with the first such one |
| Binding.AbortSticks | pysentech/sentechdll.py:107-117 | After an abort the remaining lines change nothing |
| Binding.LiteralConstantsNeverAbort | pysentech/sentechdll.py:112-117 | With the literal evaluator, loading constants never aborts |
| Binding.LastAssignmentWins | pysentech/sentechdll.py:107-117 | The constant holds the value of the last matched line assigning it |
| Binding.LastDefinitionWins | pysentech/sentechdll.py:102-117 | The same over the header's lines: the last `#define` of a name wins |
| Binding.UnassignedNameUntouched | pysentech/sentechdll.py:107-117 | A name no line assigns keeps its attribute or its absence |
| Binding.BindOne | pysentech/sentechdll.py:146-157 | `argtypes` is set iff every argument type is in the table, and then to their entries in order; `restype` is set iff the return type is in the table |
| Binding.Configure | pysentech/sentechdll.py:142-157 | The body of the bind loop configures the pointer as `BindOne` says and reports whether the return type was known |
| Binding.ReturnDiagnosticInjective | pysentech/sentechdll.py:157 | Different functions get different diagnostic lines |
| Binding.Diagnostics | pysentech/sentechdll.py:153-157 | At most one diagnostic per bound key |
| Binding.DiagnosticsNames | pysentech/sentechdll.py:153-157 | The diagnostics name exactly the bound keys whose return type is unknown |
| Binding.BoundAttrsAt | pysentech/sentechdll.py:158-159 | Each bound key is an attribute holding its configured pointer, and nothing else is |
| Binding.RegistryAt | pysentech/sentechdll.py:158-160 | The registry has exactly the bound keys, each with its declaration and configured pointer |
| Binding.FirstMissing | pysentech/sentechdll.py:141-142 | The index of the first key the DLL does not export, where `getattr` raises |
| Binding.FirstMissingAt | pysentech/sentechdll.py:141-142 | The first missing key is the one after a run of exported keys |
| Binding.BindKeysStopsAt | pysentech/sentechdll.py:141-159 | Binding stops at the first key the DLL lacks, with the keys before it bound |
| Binding.BindKeysAll | pysentech/sentechdll.py:141-159 | When the DLL exports every key, every key is bound and its diagnostic printed |
| Binding.Enumeration | senpy/sentechdll.py:96 | Some order lists each key of the dict exactly once |
| Binding.VisitStep | senpy/sentechdll.py:96-113 | Visiting one more exported key keeps a visit well formed |
| Binding.EnumerationExtends | senpy/sentechdll.py:96 | Visiting one key next and the rest in any order completes an enumeration |
| Binding.DiagnosticsDistinct | pysentech/sentechdll.py:141-157 | Each key is visited once, so no diagnostic is printed twice |
| Binding.BindKeysAborts | pysentech/sentechdll.py:141-142 | In any visiting order, binding fails iff the DLL lacks a declared symbol, and names one |
| Binding.BindKeysAttrs | pysentech/sentechdll.py:141-159 | In any visiting order, a successful bind makes every declared function its configured attribute and leaves the rest |
| Binding.BindKeysDiagnostics | pysentech/sentechdll.py:153-157 | In any visiting order, the printed lines are appended once each for the unknown return types |
| Binding.DiagnosticsOfAll | pysentech/sentechdll.py:153-157 | Binding every key prints exactly one line per unknown return type |
| Binding.BindSucceeds | pysentech/sentechdll.py:141-160 | After a successful bind, every declared function is an attribute and a registry entry built from its declaration |
| Binding.BindAborts | pysentech/sentechdll.py:141-142 | The bind loop aborts iff the DLL lacks a declared symbol; the registry is then not stored |
| Binding.BindDiagnostics | pysentech/sentechdll.py:153-157 | On success the diagnostics name exactly the declared functions with an unknown return type |
| Binding.BoundAfterLoad | pysentech/sentechdll.py:119-160 | After `_load_functions` succeeds, every declared name is bound as its last declaration says |
| Binding.ZeroArgumentFunctionKeepsDefaultArgtypes | pysentech/sentechdll.py:129-152 | A function declared with `()` keeps the default `argtypes` in both variants |
| Binding.FunctionShadowsConstant | pysentech/sentechdll.py:99-100 | A function declared under a constant's name replaces that constant |
| SentechDll.FindDll | pysentech/sentechdll.py:15-38 | The result is `<root>/bin/x<arch>/StCamD.dll`, and IOError when that file does not exist |
| SentechDll.DllInSdkBin | pysentech/sentechdll.py:26-34 | For `<sdk>/include/StCamD.h` the DLL is `<sdk>/bin/x64` when `maxsize > 2**32`, else `x32` |
| SentechDll.SdkFolder | pysentech/sentechdll.py:86-90 | The folder is the argument, or `SENTECHPATH`, and the error only when both are missing |
| SentechDll.InitLayout | pysentech/sentechdll.py:85-100 | A successful construction has the header and the DLL under the SDK, and every declared function exported |
| SentechDll.Library.constructor | pysentech/sentechdll.py:85-97 | A fresh library object has no attributes, no printed lines and no registry |
| SentechDll.Library.LoadConstants | pysentech/sentechdll.py:102-117 | `_load_constants` updates the attributes as `ApplyConstants` says and touches nothing else |
| SentechDll.Library.LoadFunctions | pysentech/sentechdll.py:119-160 | `_load_functions` updates the state as the scan followed by the bind specifies |
| SentechDll.Library.Bind | pysentech/sentechdll.py:141-160 | The bind loop in insertion order, storing `self.functions` only once every symbol is found |
| SentechDll.BindInOrder | pysentech/sentechdll.py:141-159 | The loop stops at the first key the DLL lacks, with exactly the keys before it bound and their diagnostics printed, as `BindKeys` specifies |
| SentechDll.BindNext | pysentech/sentechdll.py:142-159 | One iteration binds `keys[j]`: the attributes gain its pointer, and the printed lines its diagnostic exactly when its return type is unknown |
| SentechDll.Open | pysentech/sentechdll.py:85-100 | `SentechDLL(sdk_folder)` succeeds or fails exactly as `Init` says, with its paths and state |
| SenpyDll.FindDll | senpy/sentechdll.py:6-12 | The DLL path for `arch` (default `"64"`), two levels above the header, with no existence check |
| SenpyDll.FunctionsAnyOrder | senpy/sentechdll.py:74-113 | Whatever order the dict yields, loading fails iff a symbol is missing; on success every function is bound and the diagnostics are exact |
| SenpyDll.Library.constructor | senpy/sentechdll.py:50-55 | A fresh library object has no attributes and no printed lines |
| SenpyDll.Library.LoadConstants | senpy/sentechdll.py:57-72 | `_load_constants` updates the attributes as `ApplyConstants` says |
| SenpyDll.Library.LoadFunctions | senpy/sentechdll.py:74-113 | `_load_functions` in some dict order: the scan, then the bind in that order |
| SenpyDll.Library.Bind | senpy/sentechdll.py:96-113 | The bind loop visits each key once in some order, as `BindKeys` specifies, and stores no registry |
| SenpyDll.Open | senpy/sentechdll.py:50-55 | Loads the library at the 64-bit path, then runs both loaders |
| Native.ULong | pysentech/camera.py:269 | `c_ulong(x)` keeps `x` modulo 2^32, and is the identity on values already in range |
| Native.Overlay | pysentech/camera.py:264-269 | The buffer after a transfer keeps its length; each byte is the transferred byte where there is one, else the old byte |
| Native.Driver.CallInto | pysentech/camera.py:264-269 | A call with a buffer appends the call, answers the reply, and overlays the reply's bytes on the buffer |
| Synth.CameraMethodsFromLoad | pysentech/camera.py:76-82 | After a load, the camera methods are exactly the declared functions whose first parameter is `hCamera`, each with its declared types |
| Synth.WrapArgs | pysentech/camera.py:38-41 | Arguments are wrapped iff they do not outnumber the declared types; argument `i` goes by reference iff type `i+1` is in `POINTER_ARGS`, and keeps its value |
| Synth.CellsAfter | pysentech/camera.py:40-42 | There is one cell per argument after the call |
| Synth.ErrorMessageInjective | pysentech/error.py:13 | `"error code N"` names the code: different codes give different messages |
| Synth.IntTextInjective | pysentech/error.py:13 | `str(n)` is injective on integers |
| Synth.IntTextSign | pysentech/error.py:13 | `str(n)` starts with `-` exactly for negative `n` |
| Synth.DllCall | pysentech/camera.py:264 | A direct library call only appends calls, and fails only for a missing or non-callable attribute |
| Synth.RaiseDeviceError | pysentech/error.py:10-14 | Building `SentechError` only appends calls and gives a device error, unless `StCam_GetLastError` itself is missing |
| Synth.Invocation | pysentech/camera.py:39-46 | A camera method called with ctypes cells keeps one cell per argument, only appends calls, and fails only with AttributeError, the not-callable error of a constant attribute named `StCam_GetLastError`, IndexError or `SentechError` |
| Synth.InvocationRejects | pysentech/camera.py:40-41 | A method the camera lacks, or too many arguments, raise before any native call |
| Synth.InvocationCalls | pysentech/camera.py:38-42 | The native call gets the handle first, then each argument by value or by reference as its type says |
| Synth.FalseBoolRaises | pysentech/camera.py:43-45 | A `BOOL` function returning 0 raises `SentechError` with the code `StCam_GetLastError` reports, asked right after the failed call |
| Synth.ResultPassesThrough | pysentech/camera.py:43-46 | A truthy `BOOL`, or any result of another return type, comes back unchanged with no further call |
| Synth.CellsReadBack | pysentech/camera.py:40-42 | A by-reference cell reads back what the function wrote; a by-value argument reads back unchanged |
| Synth.Invoke | pysentech/camera.py:39-46 | The camera method computes what `Invocation` specifies, on the driver's history |
| Synth.RaiseError | pysentech/error.py:11-14 | `SentechError(handle, dll)` computes what `RaiseDeviceError` specifies |
| Synth.CallDll | pysentech/camera.py:264-269 | `dll.<name>(*args)` computes what `DllCall` specifies |
| Frames.TablesAgree | pysentech/frame.py:32-43 | `BPP` and `PIL_FORMATS` know the same formats, each mode has one letter per byte, and the modes differ |
| Frames.Zeros | pysentech/frame.py:73 | `create_string_buffer(n)` is `n` zero bytes |
| Frames.SavePassesFrame | pysentech/frame.py:103-119 | `to_file` passes the size, the reported format code read as a `c_ulong`, the buffer and the path, and raises IOError naming the path iff the library answers 0 |
| Frames.SentechFrame.constructor | pysentech/frame.py:51-63 | The frame stores width, height, format, `bpi`, its `bpp` and its camera unchanged |
| Frames.SentechFrame.SetupBuffer | pysentech/frame.py:66-73 | The buffer is fresh and holds exactly `bpi` zero bytes; a negative size raises |
| Frames.SentechFrame.ReleaseBuffer | pysentech/frame.py:75-79 | The buffer is gone afterwards; a second release raises AttributeError |
| Frames.SentechFrame.ToFile | pysentech/frame.py:103-119 | `to_file` computes what `Saving` specifies |
| Frames.NewFrame | pysentech/frame.py:51-64 | An unknown format raises KeyError before any buffer; otherwise the frame stores its arguments, `BPP[format]` and a zeroed buffer of `bpi` bytes |
| Camera.PixelFormatRoundTrip | pysentech/camera.py:23-27 | Codes and names translate into each other both ways, the only codes are 1, 4 and 8, and each name has an entry in `BPP` |
| Camera.NameOfTable | pysentech/camera.py:23-27 | `PIXEL_FORMATS[code]` is Mono8, BGR24, BGR32 for 1, 4, 8 and fails for any other code |
| Camera.CodeOfTable | pysentech/camera.py:23-27 | The code of each of the three names, and none for any other name |
| Camera.ShapeQuery | pysentech/camera.py:117-129 | The shape getter only appends calls; its answer is stated by `ShapeReadsCells` |
| Camera.OffsetsQuery | pysentech/camera.py:144-156 | The offsets getter only appends calls; its answer is stated by `OffsetsReadCells` |
| Camera.SizeQuery | pysentech/camera.py:96-100 | The size getter only appends calls; its answer is stated by `SizeReadsCell` |
| Camera.FormatQuery | pysentech/camera.py:102-106 | The format getter only appends calls |
| Camera.FormatQueryDecodes | pysentech/camera.py:102-106 | The getter answers the name whose code the device reported, and raises KeyError exactly for codes other than 1, 4 and 8 |
| Camera.FrameSetup | pysentech/camera.py:84-94 | `_setup_frame` only appends calls; what it builds is stated by `FrameFollowsDevice` |
| Camera.FrameFollowsDevice | pysentech/camera.py:84-94 | `_setup_frame` succeeds exactly when the shape, size and format getters do, and builds its frame from their answers; the frame's KeyError and a negative size never occur |
| Camera.GetterCells | pysentech/camera.py:97-98 | A getter that passes zero cells reads back the low 32 bits of what the library wrote into each by-reference cell, and 0 otherwise |
| Camera.ShapeReadsCells | pysentech/camera.py:117-129 | `image_shape` answers the `c_ulong` cells written at native positions 5 and 6 of `StCam_GetImageSize` |
| Camera.OffsetsReadCells | pysentech/camera.py:144-156 | `image_offsets` answers the `c_ulong` cells written at native positions 3 and 4 of the same call |
| Camera.SizeReadsCell | pysentech/camera.py:96-100 | `image_size` answers the `c_ulong` cell written at native position 1 of `StCam_GetRawDataSize`, so it is never negative |
| Camera.Reconfiguring | pysentech/camera.py:141-142 | A setter followed by `_setup_frame` only appends calls |
| Camera.ShapeUpdate | pysentech/camera.py:131-142 | The shape setter only appends calls |
| Camera.FormatSetterSetsOneCode | pysentech/camera.py:108-115 | An unknown name raises KeyError before any call; a known one sets its own code once and rebuilds the frame |
| Camera.SkipsOthers | pysentech/camera.py:112-113 | Table items of other names leave the setter's progress unchanged |
| Camera.ShapeSetterKeepsOffsets | pysentech/camera.py:139-141 | The shape setter calls `SetImageSize(0, 8, x, y, width, height)` with the offsets the device just reported |
| Camera.OffsetsSetterKeepsShape | pysentech/camera.py:165-167 | The offsets setter calls `SetImageSize(0, 8, x, y, w, h)` with the shape the device just reported, and builds no frame |
| Camera.HeightSetterKeepsWidth | pysentech/camera.py:173-176 | The height setter keeps the reported width and sets the new height |
| Camera.WidthSetterKeepsHeight | pysentech/camera.py:182-185 | The width setter keeps the reported height and sets the new width |
| Camera.ClampGain | pysentech/camera.py:194-195 | The gain passed on is non-negative and equals the request when that is non-negative |
| Camera.GainNeverNegative | pysentech/camera.py:192-196 | `StCam_SetGain` receives the requested gain, or 0 for a negative request |
| Camera.SnapshotIgnoresResult | pysentech/camera.py:257-269 | A capture passes the handle, buffer, `bpi`, both counters by reference and the 32-bit timeout, and reports no error whatever the library answers |
| Camera.ReleaseClosesOnce | pysentech/camera.py:285-291 | Without a frame, release is silent and calls nothing; with one, it calls `StCam_Close` with the handle alone, and only a failed close raises |
| Camera.SentechCamera.constructor | pysentech/camera.py:58-65 | A new camera has no methods, no frame and both counters at 0 |
| Camera.SentechCamera.SetupLowLevel | pysentech/camera.py:69-82 | `_setup_low_level` adds exactly the camera methods of the registry and leaves the frame and counters alone |
| Camera.SentechCamera.ImageShape | pysentech/camera.py:117-129 | The getter computes what `ShapeQuery` specifies |
| Camera.SentechCamera.ImageOffsets | pysentech/camera.py:144-156 | The getter computes what `OffsetsQuery` specifies |
| Camera.SentechCamera.ImageSize | pysentech/camera.py:96-100 | The getter computes what `SizeQuery` specifies |
| Camera.SentechCamera.PixelFormat | pysentech/camera.py:102-106 | The getter computes what `FormatQuery` specifies |
| Camera.SentechCamera.SetupFrame | pysentech/camera.py:84-94 | On success the frame is new, with the queried geometry and a fresh zeroed buffer; on failure the old frame stays |
| Camera.SentechCamera.ReadGeometry | pysentech/camera.py:89-94 | `image_shape`, `image_size` and `pixel_format` are read in that order, and their answers fix the frame geometry or the error `_SentechFrame` raises |
| Camera.SentechCamera.Reconfigure | pysentech/camera.py:141-142 | A setter call and then `_setup_frame`, as `Reconfiguring` specifies |
| Camera.SentechCamera.SetPixelFormat | pysentech/camera.py:108-115 | The format setter computes what `FormatUpdate` specifies, frame included |
| Camera.SentechCamera.SetImageShape | pysentech/camera.py:131-142 | The shape setter computes what `ShapeUpdate` specifies, frame included |
| Camera.SentechCamera.SetImageOffsets | pysentech/camera.py:158-167 | The offsets setter computes what `OffsetsUpdate` specifies, and the frame is untouched |
| Camera.SentechCamera.SetImageHeight | pysentech/camera.py:173-176 | The height setter computes what `HeightUpdate` specifies |
| Camera.SentechCamera.SetImageWidth | pysentech/camera.py:182-185 | The width setter computes what `WidthUpdate` specifies |
| Camera.SentechCamera.SetGain | pysentech/camera.py:192-196 | The gain setter invokes `StCam_SetGain` with the clamped gain |
| Camera.SentechCamera.Snapshot | pysentech/camera.py:257-269 | The library's bytes land in the frame's buffer and the `c_ulong` counters read back the low 32 bits of what it wrote; on error the counters are unchanged |
| Camera.SentechCamera.GrabFrame | pysentech/camera.py:271-283 | A capture, then the camera's own frame is handed out; as in `_snapshot`, the byte and frame counters read back the `c_ulong` cells the library wrote, and stay unchanged on error |
| Camera.SentechCamera.Release | pysentech/camera.py:285-291 | The frame is gone afterwards, the calls are those of `Releasing`, and the byte and frame counters are unchanged |
| Camera.Open | pysentech/camera.py:58-67 | Opens the device, attaches the camera methods, then builds the first frame, with both counters at 0 |

## Left out

- Reading files, `os.environ`, `os.path.isfile`, `sys.maxsize` and `windll.LoadLibrary` are inputs: a file-system value, an optional environment value, a size and a set of exported symbols.
- `exec` of a macro value is an abstract evaluator. The concrete one covers integer literals and plain quoted strings. Escapes, other literal forms and expressions count as NameError/SyntaxError there, and are left to the abstract one.
- ctypes type objects are tags. The conversion of Python values to C values, and the TypeError a wrong argument raises inside a foreign call, are not modelled.
- Synth.WrapArgs: the arguments of a camera method are modelled as ctypes cells holding integers. The TypeError `byref` raises for a plain Python value passed to a pointer parameter is not modelled, so `Synth.Invocation` makes the call where Python would raise first.
- Read-back cells of the getters and of the snapshot counters are `c_ulong`, truncated to 32 bits. The `c_ushort` scan-mode cell is never read, and the `c_ushort` gain getter is not modelled.
- The device is a function from the call history to a reply. The model has no explicit width, height, offsets, format or raw-size state, and no real `SetImageSize` or snapshot behaviour.
- `__doc__` and `__name__` of the bound functions are not modelled.
- The text of the KeyError messages, and of the IOError message with its bytes repr of the path, are not modelled. Path encoding is not modelled either.
- `as_array`, `as_numpy` and `as_pil` depend on raw addresses, numpy and PIL. `malloc`/`free` is platform plumbing.
- The getter-only queries `model`, `camera_version`, `driver_version`, `max_image_shape`, the `gain` getter and the `image_height`/`image_width` getters are not modelled. Each is one native call whose cells are passed through, which `Synth.CellsReadBack` covers in general.
- `reset_settings` is not modelled. It is a single method call.
- `save_settings` and `load_settings` only raise NotImplementedError.
- pysentech/system.py, senpy/system.py, the examples and setup.py are not part of this model.
- `__del__` of the camera and of the frame: when the garbage collector runs them is not modelled. What they call is, as `Release` and `ReleaseBuffer`.
- The frame's `camera` reference is kept as the camera's session and driver. The frame sees the methods attached when it was built; later changes to the camera's methods are not visible to it.
- A constant attribute found where a function is expected is modelled as a not-callable error. Python would raise TypeError.
- HeaderScan.LiteralEval: names are judged by ASCII identifier rules and Python 3's reserved words. In Python 3, `self.é=1` assigns, `self.a.b=1` raises an uncaught AttributeError that aborts the load, and `self.__class__=1` raises TypeError that aborts it; the model treats the first two as SyntaxErrors and assigns the third. No C macro name takes these forms.
- SenpyDll.Library.LoadConstants: senpy runs on Python 2, where `\s` in a byte-string pattern is only ASCII whitespace (`[ \t\n\r\f\v]`). The model's `#define` matcher uses Python 3's Unicode `\s` for both variants, so a line separated by `\x1c`-`\x1f`, `\x85` or `\xa0` matches in the model but not in senpy. Python 2's reserved words (`print`, `exec`, no `True`/`None`) only matter to the evaluator, which is abstract here.
- Constants, bound functions and the object's own attributes (`header_file`, `path`, `dll`, `functions`, and the camera's `dll`, `handle`, `frame`) share one namespace in Python. The model keeps them apart, so `#define dll 0` or a declared function named `functions`, which would clobber them, is not modelled.
- SentechDll.SdkFolder: paths are sequences of components, and the empty sequence stands for the empty string. An `sdk_folder` of `"/"` (truthy in Python) and an empty `SENTECHPATH` (a relative path in Python) are not told apart from it.
- Binding.Enumeration: senpy's Python 2 dict order is an arbitrary ghost order. The lemmas hold for every order, but which order CPython picks is not modelled.
