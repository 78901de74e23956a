/** pysentech/sentechdll.py: locating `StCamD.dll` from the header's path and
    the `SentechDLL` object, whose attributes the two loaders fill from the
    header. */
module SentechDll {
  import opened Wrappers
  import opened CTypes
  import opened HeaderScan
  import opened Binding

  /** An absolute, normalised file-system path, as its components. */
  type Path = seq<string>

  /** `os.path.dirname`: the path without its last component (the root stays
      the root). */
  function DirName(p: Path): Path
  {
    if p == [] then [] else p[..|p| - 1]
  }

  const DllFile: string := "StCamD.dll"
  const HeaderTail: Path := ["include", "StCamD.h"]

  /** `"64"` when `sys.maxsize > 2**32`, otherwise `"32"`. */
  function Arch(maxsize: int): string
  {
    if maxsize > 0x1_0000_0000 then "64" else "32"
  }

  /** `<root>/bin/x<arch>/StCamD.dll`, where the root is two levels above the header. */
  function DllPath(header: Path, arch: string): Path
  {
    DirName(DirName(header)) + ["bin", "x" + arch, DllFile]
  }

  /** The files the loader can see: text files by their lines, and loadable
      libraries by the symbols they export. */
  datatype FileSystem = FileSystem(texts: map<Path, seq<string>>, libraries: map<Path, set<string>>)
  {
    predicate IsFile(p: Path)
    {
      p in texts || p in libraries
    }
  }

  /** The exceptions `__init__` and `find_dll` raise. */
  datatype InitError =
    | NoSdkFolder               // SentechSystemError: no sdk_folder and no SENTECHPATH
    | NoHeader(path: Path)      // SentechSystemError: no header file at the path
    | NoDll(path: Path)         // IOError from find_dll
    | NotLoadable(path: Path)   // OSError from LoadLibrary
    | Unreadable(path: Path)    // IOError from open
    | LoadAborted(e: LoadError) // an exception out of one of the loaders

  /** `find_dll(header_file)`. */
  function FindDll(header: Path, maxsize: int, fs: FileSystem): (r: Result<Path, InitError>)
    ensures r.Ok? <==> fs.IsFile(DllPath(header, Arch(maxsize)))
    ensures r.Err? ==> r.error == NoDll(DllPath(header, Arch(maxsize)))
  {
    var dll := DllPath(header, Arch(maxsize));
    if fs.IsFile(dll) then Ok(dll) else Err(NoDll(dll))
  }

  /** For the header `__init__` derives from an SDK folder, the DLL found is
      `<sdk>/bin/x64/StCamD.dll` on a 64-bit interpreter and
      `<sdk>/bin/x32/StCamD.dll` otherwise. */
  lemma DllInSdkBin(sdk: Path, maxsize: int, fs: FileSystem)
    requires FindDll(sdk + HeaderTail, maxsize, fs).Ok?
    ensures var p := FindDll(sdk + HeaderTail, maxsize, fs).value;
      && p[..|sdk|] == sdk
      && p[|sdk|..] == ["bin", if maxsize > 0x1_0000_0000 then "x64" else "x32", DllFile]
  {
    var header := sdk + HeaderTail;
    assert DirName(header) == sdk + ["include"];
    assert DirName(DirName(header)) == sdk;
    assert "x" + Arch(maxsize) == if maxsize > 0x1_0000_0000 then "x64" else "x32";
  }

  /** The SDK folder `__init__` uses: the argument unless it is empty, else
      the `SENTECHPATH` environment variable. */
  function SdkFolder(sdkFolder: Path, env: Option<Path>): (r: Result<Path, InitError>)
    ensures r.Err? <==> sdkFolder == [] && env.None?
    ensures sdkFolder != [] ==> r == Ok(sdkFolder)
  {
    if sdkFolder != [] then Ok(sdkFolder)
    else match env
      case None => Err(NoSdkFolder)
      case Some(p) => Ok(p)
  }

  /** Everything `SentechDLL(sdk_folder)` does, as a value: the header and DLL
      paths and the loaded state, or the exception that escapes. */
  function Init(sdkFolder: Path, env: Option<Path>, fs: FileSystem, maxsize: int, ev: Evaluator): (r: Result<(Path, Path, LoadState), InitError>)
  {
    match SdkFolder(sdkFolder, env)
    case Err(e) => Err(e)
    case Ok(sdk) =>
      var header := sdk + HeaderTail;
      if !fs.IsFile(header) then Err(NoHeader(header))
      else match FindDll(header, maxsize, fs)
        case Err(e) => Err(e)
        case Ok(dll) =>
          if dll !in fs.libraries then Err(NotLoadable(dll))
          else if header !in fs.texts then Err(Unreadable(header))
          else
            var loaded := LoadAll(fs.texts[header], ev, fs.libraries[dll], PySentechTypes);
            if loaded.1.Some? then Err(LoadAborted(loaded.1.value)) else Ok((header, dll, loaded.0))
  }

  /** A successful construction has a header and a library both under the SDK
      folder, stores the registry of every declared function, and every
      declared function is exported by the library. */
  lemma InitLayout(sdkFolder: Path, env: Option<Path>, fs: FileSystem, maxsize: int, ev: Evaluator)
    requires Init(sdkFolder, env, fs, maxsize, ev).Ok?
    ensures var sdk := SdkFolder(sdkFolder, env).value;
      var r := Init(sdkFolder, env, fs, maxsize, ev).value;
      var t := ScanDeclarations(fs.texts[r.0]);
      && r.0 == sdk + HeaderTail
      && r.1[..|sdk|] == sdk
      && t.Ok?
      && r.2.functions.Some? && r.2.functions.value.Keys == t.value.entries.Keys
      && t.value.entries.Keys <= fs.libraries[r.1]
  {
    var sdk := SdkFolder(sdkFolder, env).value;
    var header := sdk + HeaderTail;
    DllInSdkBin(sdk, maxsize, fs);
    var lines := fs.texts[header];
    var dll := FindDll(header, maxsize, fs).value;
    var c := ApplyConstants(map[], lines, ev);
    var s := LoadState(c.0, [], None);
    ScanFailsAtFirstBadLine(lines);
    if ScanDeclarations(lines).Ok? {
      var t := ScanDeclarations(lines).value;
      BoundAfterLoad(s, lines, fs.libraries[dll], PySentechTypes, "");
    }
  }

  /** The `SentechDLL` object. */
  class Library {
    const headerFile: Path
    const path: Path
    /** The lines each `open(self.header_file)` yields. */
    const header: seq<string>
    /** The symbols `self.dll` exports. */
    const exported: set<string>
    /** The module's `types` table. */
    const types: map<string, CType>

    var attrs: map<string, Attr>
    var printed: seq<string>
    var functions: Option<map<string, RegEntry>>

    function State(): LoadState
      reads this
    {
      LoadState(attrs, printed, functions)
    }

    constructor (headerFile: Path, path: Path, header: seq<string>, exported: set<string>, types: map<string, CType>)
      ensures this.headerFile == headerFile && this.path == path
      ensures this.header == header && this.exported == exported && this.types == types
      ensures State() == LoadState(map[], [], None)
    {
      this.headerFile := headerFile;
      this.path := path;
      this.header := header;
      this.exported := exported;
      this.types := types;
      attrs := map[];
      printed := [];
      functions := None;
    }

    /** `_load_constants`: assigns each matched constant whose `exec`
        succeeds, and stops at an exception other than NameError or
        SyntaxError. */
    method LoadConstants(ev: Evaluator) returns (err: Option<LoadError>)
      modifies this
      ensures (attrs, err) == ApplyConstants(old(attrs), header, ev)
      ensures printed == old(printed) && functions == old(functions)
    {
      var ms := MatchEach(header);
      var i := 0;
      while i < |header|
        invariant 0 <= i <= |header|
        invariant ApplyMatches(old(attrs), ms[..i], ev) == (attrs, None)
        invariant printed == old(printed) && functions == old(functions)
      {
        assert ms[..i + 1][..i] == ms[..i];
        var m := ms[i];
        if m.Some? {
          var name, value := m.value.0, m.value.1;
          match ev(name, value) {
            case Assigned(x) =>
              attrs := attrs[name := ConstAttr(x)];
            case NameOrSyntaxError =>
            case OtherError(reason) =>
              AbortSticks(old(attrs), ms, ev, i + 1);
              return Some(EvalRaised(name, reason));
          }
        }
        i := i + 1;
      }
      assert ms[..i] == ms;
      return None;
    }

    /** `_load_functions`: scans the declarations, then binds them. */
    method LoadFunctions() returns (err: Option<LoadError>)
      modifies this
      ensures (State(), err) == FunctionsPhase(old(State()), header, exported, types)
    {
      var scanned := ScanHeader(header);
      if scanned.Err? {
        return Some(scanned.error);
      }
      OrderCovers(scanned.value);
      err := Bind(scanned.value.order, scanned.value.entries);
    }

    /** The bind loop over the declarations in insertion order: binds each
        one, printing a line for each unknown return type, and stores
        `self.functions` once every symbol has been found. */
    method Bind(keys: seq<string>, entries: map<string, FuncDecl>) returns (err: Option<LoadError>)
      requires Covers(keys, entries)
      modifies this
      ensures (attrs, printed, err) == BindKeys(old(attrs), old(printed), keys, entries, exported, types)
      ensures functions == if err.Some? then old(functions) else Some(Registry(keys, entries, types))
    {
      var a, p, j := BindInOrder(attrs, printed, keys, entries, exported, types);
      attrs, printed := a, p;
      if j < |keys| {
        return Some(MissingSymbol(keys[j]));
      }
      functions := Some(Registry(keys, entries, types));
      return None;
    }
  }

  /** The loop of `Library.Bind` on the attributes and printed lines it
      starts from: `j` is where it stopped, the first key the DLL lacks or
      the number of keys. */
  method BindInOrder(attrs: map<string, Attr>, printed: seq<string>, keys: seq<string>, entries: map<string, FuncDecl>,
                     exported: set<string>, types: map<string, CType>)
    returns (a: map<string, Attr>, p: seq<string>, j: nat)
    requires Covers(keys, entries)
    ensures j <= |keys|
    ensures BindKeys(attrs, printed, keys, entries, exported, types)
         == (a, p, if j < |keys| then Some(MissingSymbol(keys[j])) else None)
  {
    a, p := attrs, printed;
    j := 0;
    while j < |keys|
      invariant j <= FirstMissing(keys, exported)
      invariant a == attrs + BoundAttrs(keys[..j], entries, types)
      invariant p == printed + Diagnostics(keys[..j], entries, types)
    {
      if keys[j] !in exported {
        BindKeysStopsAt(attrs, printed, keys, j, entries, exported, types);
        return;
      }
      a, p := BindNext(attrs, printed, a, p, keys, j, entries, exported, types);
      j := j + 1;
    }
    assert keys[..j] == keys;
    BindKeysAll(attrs, printed, keys, entries, exported, types);
  }

  /** One iteration of the bind loop: `getattr` found `keys[j]`, so it is
      configured, its diagnostic printed when its return type is unknown,
      and its pointer set as an attribute. */
  method BindNext(attrs: map<string, Attr>, printed: seq<string>, a: map<string, Attr>, p: seq<string>, keys: seq<string>, j: nat,
                  entries: map<string, FuncDecl>, exported: set<string>, types: map<string, CType>)
    returns (a': map<string, Attr>, p': seq<string>)
    requires Covers(keys, entries) && j < |keys| && keys[j] in exported && j <= FirstMissing(keys, exported)
    requires a == attrs + BoundAttrs(keys[..j], entries, types)
    requires p == printed + Diagnostics(keys[..j], entries, types)
    ensures j + 1 <= FirstMissing(keys, exported)
    ensures a' == attrs + BoundAttrs(keys[..j + 1], entries, types)
    ensures p' == printed + Diagnostics(keys[..j + 1], entries, types)
  {
    var k := keys[j];
    var cfunc, known := Configure(k, entries[k], types);
    BindStep(attrs, printed, keys, j, entries, types);
    p' := p;
    if !known {
      p' := p + [ReturnDiagnostic(k)];
    } else {
      assert p + [] == p;
    }
    a' := a[k := FuncAttr(cfunc)];
  }

  /** `SentechDLL(sdk_folder)`: resolve the SDK folder, check the header,
      find and load the DLL, then run both loaders. */
  method Open(sdkFolder: Path, env: Option<Path>, fs: FileSystem, maxsize: int, ev: Evaluator)
    returns (r: Result<Library, InitError>)
    ensures r.Ok? <==> Init(sdkFolder, env, fs, maxsize, ev).Ok?
    ensures r.Err? ==> r.error == Init(sdkFolder, env, fs, maxsize, ev).error
    ensures r.Ok? ==> var v := Init(sdkFolder, env, fs, maxsize, ev).value;
      fresh(r.value) && r.value.headerFile == v.0 && r.value.path == v.1 && r.value.State() == v.2
  {
    var sdk := SdkFolder(sdkFolder, env);
    if sdk.Err? {
      return Err(sdk.error);
    }
    var headerFile := sdk.value + HeaderTail;
    if !fs.IsFile(headerFile) {
      return Err(NoHeader(headerFile));
    }
    var found := FindDll(headerFile, maxsize, fs);
    if found.Err? {
      return Err(found.error);
    }
    var path := found.value;
    if path !in fs.libraries {
      return Err(NotLoadable(path));
    }
    if headerFile !in fs.texts {
      return Err(Unreadable(headerFile));
    }
    var lib := new Library(headerFile, path, fs.texts[headerFile], fs.libraries[path], PySentechTypes);
    var err := lib.LoadConstants(ev);
    if err.Some? {
      return Err(LoadAborted(err.value));
    }
    err := lib.LoadFunctions();
    if err.Some? {
      return Err(LoadAborted(err.value));
    }
    return Ok(lib);
  }
}
