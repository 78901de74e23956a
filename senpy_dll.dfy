/** senpy/sentechdll.py, the older variant of the loader: `find_dll` takes
    the architecture as an argument and checks nothing, the `types` table maps
    `HANDLE` to `c_ulong`, no `functions` registry is kept, and the bind loop
    visits the declarations in the unspecified order of a Python 2 dict. */
module SenpyDll {
  import opened Wrappers
  import opened CTypes
  import opened HeaderScan
  import opened Binding
  import SentechDll

  type Path = SentechDll.Path

  /** `find_dll(header_file, arch="64")`: the DLL path for `arch`, two levels
      above the header, whether or not that file exists. */
  function FindDll(header: Path, arch: string := "64"): (r: Path)
    ensures |header| >= 2 ==> r == header[..|header| - 2] + ["bin", "x" + arch, SentechDll.DllFile]
    ensures |header| < 2 ==> r == ["bin", "x" + arch, SentechDll.DllFile]
  {
    SentechDll.DirName(SentechDll.DirName(header)) + ["bin", "x" + arch, SentechDll.DllFile]
  }

  /** The scan succeeding, `order` visits each scanned declaration once. */
  ghost predicate OrderFor(lines: seq<string>, order: seq<string>)
  {
    ScanDeclarations(lines).Ok? ==> Enumerates(order, ScanDeclarations(lines).value.entries.Keys)
  }

  /** `_load_functions` of senpy, when the dict yields its keys in `order`:
      scan the declarations, then bind them; nothing is stored afterwards. */
  ghost function FunctionsInOrder(attrs: map<string, Attr>, printed: seq<string>, lines: seq<string>, exported: set<string>,
                                table: map<string, CType>, order: seq<string>): (map<string, Attr>, seq<string>, Option<LoadError>)
    requires OrderFor(lines, order)
  {
    match ScanDeclarations(lines)
    case Err(e) => (attrs, printed, Some(e))
    case Ok(t) => BindKeys(attrs, printed, order, t.entries, exported, table)
  }

  /** Whatever order the dict yields, loading the functions fails exactly when
      a line fails to unpack or the DLL lacks a declared symbol; on success
      every declared function is attached with its configured pointer, every
      other attribute is kept, and the new printed lines are distinct and
      name exactly the functions with an unknown return type. */
  lemma FunctionsAnyOrder(attrs: map<string, Attr>, printed: seq<string>, lines: seq<string>, exported: set<string>,
                          table: map<string, CType>, order: seq<string>, k: string, m: string)
    requires OrderFor(lines, order)
    ensures var r := FunctionsInOrder(attrs, printed, lines, exported, table, order);
      && (r.2.None? <==> ScanDeclarations(lines).Ok? && ScanDeclarations(lines).value.entries.Keys <= exported)
      && (ScanDeclarations(lines).Ok? ==>
            var t := ScanDeclarations(lines).value;
            && (r.2.Some? ==> r.2.value.MissingSymbol? && r.2.value.name in t.entries && r.2.value.name !in exported)
            && (r.2.None? && k in t.entries ==> k in r.0 && r.0[k] == FuncAttr(BindOne(k, t.entries[k], table)))
            && (k !in t.entries ==> (k in r.0 <==> k in attrs) && (k in attrs ==> r.0[k] == attrs[k]))
            && r.1[..|printed|] == printed
            && (forall i, j :: |printed| <= i < j < |r.1| ==> r.1[i] != r.1[j])
            && (r.2.None? ==>
                  (m in r.1[|printed|..] <==> exists q :: q in t.entries && t.entries[q].retType !in table && m == ReturnDiagnostic(q))))
  {
    if ScanDeclarations(lines).Ok? {
      var t := ScanDeclarations(lines).value;
      BindKeysAborts(attrs, printed, order, t.entries, exported, table);
      BindKeysAttrs(attrs, printed, order, t.entries, exported, table, k);
      BindKeysDiagnostics(attrs, printed, order, t.entries, exported, table, m);
    }
  }

  /** The `SentechDLL` object of senpy. */
  class Library {
    const headerFile: Path
    /** The lines each `open(self.header_file)` yields. */
    const header: seq<string>
    /** The symbols `self.dll` exports. */
    const exported: set<string>
    /** The module's `types` table. */
    const types: map<string, CType>

    var attrs: map<string, Attr>
    var printed: seq<string>

    constructor (headerFile: Path, header: seq<string>, exported: set<string>, types: map<string, CType>)
      ensures this.headerFile == headerFile && this.header == header
      ensures this.exported == exported && this.types == types
      ensures attrs == map[] && printed == []
    {
      this.headerFile := headerFile;
      this.header := header;
      this.exported := exported;
      this.types := types;
      attrs := map[];
      printed := [];
    }

    /** `_load_constants`: assigns each matched constant whose `exec`
        succeeds, and stops at an exception other than NameError or
        SyntaxError. */
    method LoadConstants(ev: Evaluator) returns (err: Option<LoadError>)
      modifies this
      ensures (attrs, err) == ApplyConstants(old(attrs), header, ev)
      ensures printed == old(printed)
    {
      var ms := MatchEach(header);
      ghost var a0 := attrs;
      var a := attrs;
      var i := 0;
      while i < |ms|
        invariant 0 <= i <= |ms|
        invariant ApplyMatches(a0, ms[..i], ev) == (a, None)
      {
        assert ms[..i + 1][..i] == ms[..i];
        var m := ms[i];
        if m.Some? {
          var name, value := m.value.0, m.value.1;
          match ev(name, value) {
            case Assigned(x) =>
              a := a[name := ConstAttr(x)];
            case NameOrSyntaxError =>
            case OtherError(reason) =>
              AbortSticks(a0, ms, ev, i + 1);
              attrs := a;
              return Some(EvalRaised(name, reason));
          }
        }
        i := i + 1;
      }
      assert ms[..i] == ms;
      attrs := a;
      return None;
    }

    /** `_load_functions`: scans the declarations, then binds them in the
        order the dict happens to yield, which `order` records. */
    method LoadFunctions() returns (err: Option<LoadError>, ghost order: seq<string>)
      modifies this
      ensures OrderFor(header, order)
      ensures (attrs, printed, err) == FunctionsInOrder(old(attrs), old(printed), header, exported, types, order)
    {
      var scanned := ScanHeader(header);
      if scanned.Err? {
        return Some(scanned.error), [];
      }
      err, order := Bind(scanned.value.entries);
    }

    /** The bind loop: visits the declarations in whatever order the dict
        yields, which `order` records, printing a line for each unknown
        return type. */
    method Bind(entries: map<string, FuncDecl>) returns (err: Option<LoadError>, ghost order: seq<string>)
      modifies this
      ensures Enumerates(order, entries.Keys)
      ensures (attrs, printed, err) == BindKeys(old(attrs), old(printed), order, entries, exported, types)
    {
      ghost var a0, p0 := attrs, printed;
      var remaining := entries.Keys;
      order := [];
      while remaining != {}
        invariant Visiting(order, remaining, entries.Keys, exported)
        invariant attrs == a0 + BoundAttrs(order, entries, types)
        invariant printed == p0 + Diagnostics(order, entries, types)
        decreases |remaining|
      {
        var k :| k in remaining;
        if k !in exported {
          ghost var rest := Enumeration(remaining - {k});
          EnumerationExtends(order, k, remaining, entries.Keys, exported);
          BindKeysStopsAfter(a0, p0, order, k, rest, entries, exported, types);
          return Some(MissingSymbol(k)), order + [k] + rest;
        }
        var cfunc, known := Configure(k, entries[k], types);
        if !known {
          printed := printed + [ReturnDiagnostic(k)];
        }
        BindSnoc(a0, p0, order, k, entries, types);
        VisitStep(order, k, remaining, entries.Keys, exported);
        attrs := attrs[k := FuncAttr(cfunc)];
        order := order + [k];
        remaining := remaining - {k};
      }
      BindKeysAll(a0, p0, order, entries, exported, types);
      return None, order;
    }
  }

  /** `SentechDLL(header_file)` of senpy: load the library at the 64-bit path,
      then run both loaders. */
  method Open(headerFile: Path, fs: SentechDll.FileSystem, ev: Evaluator)
    returns (r: Result<Library, SentechDll.InitError>, ghost order: seq<string>)
    ensures var dll := FindDll(headerFile);
      && (dll !in fs.libraries ==> r == Err(SentechDll.NotLoadable(dll)))
      && (dll in fs.libraries && headerFile !in fs.texts ==> r == Err(SentechDll.Unreadable(headerFile)))
      && (dll in fs.libraries && headerFile in fs.texts ==>
            var lines := fs.texts[headerFile];
            var c := ApplyConstants(map[], lines, ev);
            && (c.1.Some? ==> r == Err(SentechDll.LoadAborted(c.1.value)))
            && (c.1.None? ==>
                  && OrderFor(lines, order)
                  && var f := FunctionsInOrder(c.0, [], lines, fs.libraries[dll], SenpyTypes, order);
                  && (f.2.Some? ==> r == Err(SentechDll.LoadAborted(f.2.value)))
                  && (f.2.None? ==> r.Ok? && fresh(r.value) && r.value.attrs == f.0 && r.value.printed == f.1)))
  {
    order := [];
    var path := FindDll(headerFile);
    if path !in fs.libraries {
      return Err(SentechDll.NotLoadable(path)), order;
    }
    if headerFile !in fs.texts {
      return Err(SentechDll.Unreadable(headerFile)), order;
    }
    var lib := new Library(headerFile, fs.texts[headerFile], fs.libraries[path], SenpyTypes);
    var err := lib.LoadConstants(ev);
    if err.Some? {
      return Err(SentechDll.LoadAborted(err.value)), order;
    }
    err, order := lib.LoadFunctions();
    if err.Some? {
      return Err(SentechDll.LoadAborted(err.value)), order;
    }
    return Ok(lib), order;
  }
}
