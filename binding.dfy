/** What loading the header does to the library object, stated as functions of
    the header's lines: constants assigned by `_load_constants`, and exported
    functions configured and attached by the bind loop of `_load_functions`. */
module Binding {
  import opened Wrappers
  import opened CTypes
  import opened PyStr
  import opened HeaderScan

  /** A foreign function pointer after configuration. `argtypes` is `None`
      while it is left unset, and `restype` is `None` while it keeps the
      ctypes default (`c_int`). */
  datatype BoundFunction = BoundFunction(name: string, argtypes: Option<seq<CType>>, restype: Option<CType>)

  /** An attribute of the library object set by the loaders. */
  datatype Attr = ConstAttr(value: Value) | FuncAttr(bound: BoundFunction)

  /** An entry of the `functions` dictionary once the bind loop has run. */
  datatype RegEntry = RegEntry(decl: FuncDecl, bound: BoundFunction)

  /** The part of the library object the loaders change: its attributes, the
      diagnostics printed so far, and `self.functions` (absent until stored). */
  datatype LoadState = LoadState(attrs: map<string, Attr>, printed: seq<string>, functions: Option<map<string, RegEntry>>)

  // ---------------------------------------------------------------------------
  // `_load_constants`

  /** The groups of a `#define` line, when the pattern matches it. */
  type Groups = Option<(string, string)>

  /** The line's groups name `name` and its `exec` gives `x`. */
  predicate Assigns(m: Groups, ev: Evaluator, name: string, x: Value)
  {
    m.Some? && m.value.0 == name && ev(m.value.0, m.value.1) == Assigned(x)
  }

  predicate AssignsName(m: Groups, ev: Evaluator, name: string)
  {
    m.Some? && m.value.0 == name && ev(m.value.0, m.value.1).Assigned?
  }

  /** The line's `exec` raises an exception the loader does not catch. */
  predicate Raises(m: Groups, ev: Evaluator)
  {
    m.Some? && ev(m.value.0, m.value.1).OtherError?
  }

  /** One iteration of the constants loop, given what the pattern matched. */
  function ApplyLine(attrs: map<string, Attr>, m: Groups, ev: Evaluator): (r: (map<string, Attr>, Option<LoadError>))
    ensures r.1.Some? <==> Raises(m, ev)
    ensures r.1.Some? ==> r.0 == attrs && r.1.value == EvalRaised(m.value.0, ev(m.value.0, m.value.1).reason)
  {
    match m
    case None => (attrs, None)
    case Some(groups) =>
      match ev(groups.0, groups.1)
      case Assigned(x) => (attrs[groups.0 := ConstAttr(x)], None)
      case NameOrSyntaxError => (attrs, None)
      case OtherError(reason) => (attrs, Some(EvalRaised(groups.0, reason)))
  }

  /** A line assigns at most one name, and leaves every other attribute as it was. */
  lemma ApplyLineAttrs(attrs: map<string, Attr>, m: Groups, ev: Evaluator, name: string)
    ensures forall x :: Assigns(m, ev, name, x) ==> ApplyLine(attrs, m, ev).0 == attrs[name := ConstAttr(x)]
    ensures !AssignsName(m, ev, name) ==>
      var r := ApplyLine(attrs, m, ev).0;
      (name in r <==> name in attrs) && (name in attrs ==> r[name] == attrs[name])
  {
  }

  /** The constants loop over what the pattern matched on each line, stopping
      at the first exception it does not catch. */
  function ApplyMatches(attrs: map<string, Attr>, ms: seq<Groups>, ev: Evaluator): (r: (map<string, Attr>, Option<LoadError>))
    decreases |ms|
  {
    if ms == [] then (attrs, None)
    else
      var prev := ApplyMatches(attrs, ms[..|ms| - 1], ev);
      if prev.1.Some? then prev else ApplyLine(prev.0, ms[|ms| - 1], ev)
  }

  /** `f` applied to each line, in order. */
  function EachLine<T>(f: string -> T, lines: seq<string>): (r: seq<T>)
    ensures |r| == |lines|
    decreases |lines|
  {
    if lines == [] then []
    else EachLine(f, lines[..|lines| - 1]) + [f(lines[|lines| - 1])]
  }

  lemma {:induction false} EachLineAt<T>(f: string -> T, lines: seq<string>)
    ensures forall i :: 0 <= i < |lines| ==> EachLine(f, lines)[i] == f(lines[i])
    decreases |lines|
  {
    if lines != [] {
      var init := lines[..|lines| - 1];
      EachLineAt(f, init);
      assert forall i :: 0 <= i < |init| ==> init[i] == lines[i];
    }
  }

  /** The pattern's match on each line. */
  function MatchEach(lines: seq<string>): (r: seq<Groups>)
    ensures |r| == |lines|
  {
    EachLine(MatchDefine, lines)
  }

  /** `_load_constants` over the header's lines. */
  function ApplyConstants(attrs: map<string, Attr>, lines: seq<string>, ev: Evaluator): (r: (map<string, Attr>, Option<LoadError>))
  {
    ApplyMatches(attrs, MatchEach(lines), ev)
  }

  /** The loop aborts exactly when some line's `exec` raises, and then with the
      first such line's exception. */
  lemma {:induction false} ConstantsAbortAtFirstRaise(attrs: map<string, Attr>, ms: seq<Groups>, ev: Evaluator)
    ensures ApplyMatches(attrs, ms, ev).1.None? <==> forall i :: 0 <= i < |ms| ==> !Raises(ms[i], ev)
    ensures ApplyMatches(attrs, ms, ev).1.Some? ==>
      exists i :: 0 <= i < |ms| && Raises(ms[i], ev)
        && ApplyMatches(attrs, ms, ev).1.value == EvalRaised(ms[i].value.0, ev(ms[i].value.0, ms[i].value.1).reason)
        && forall j :: 0 <= j < i ==> !Raises(ms[j], ev)
    decreases |ms|
  {
    if ms != [] {
      var init := ms[..|ms| - 1];
      ConstantsAbortAtFirstRaise(attrs, init, ev);
      assert forall i :: 0 <= i < |init| ==> init[i] == ms[i];
    }
  }

  lemma AbortSticks(attrs: map<string, Attr>, ms: seq<Groups>, ev: Evaluator, k: nat)
    requires k <= |ms| && ApplyMatches(attrs, ms[..k], ev).1.Some?
    ensures ApplyMatches(attrs, ms, ev) == ApplyMatches(attrs, ms[..k], ev)
    decreases |ms| - k
  {
    if k < |ms| {
      assert ms[..k + 1][..k] == ms[..k];
      AbortSticks(attrs, ms, ev, k + 1);
    } else {
      assert ms[..k] == ms;
    }
  }

  /** The concrete literal evaluator never raises, so loading constants with it
      never aborts. */
  lemma LiteralConstantsNeverAbort(attrs: map<string, Attr>, lines: seq<string>)
    ensures ApplyConstants(attrs, lines, LiteralEval).1 == None
  {
    ConstantsAbortAtFirstRaise(attrs, MatchEach(lines), LiteralEval);
  }

  lemma {:induction false} LastAssignmentWins(attrs: map<string, Attr>, ms: seq<Groups>, ev: Evaluator, i: nat, name: string, x: Value)
    requires i < |ms| && Assigns(ms[i], ev, name, x)
    requires forall j :: i < j < |ms| ==> !AssignsName(ms[j], ev, name)
    requires ApplyMatches(attrs, ms, ev).1.None?
    ensures name in ApplyMatches(attrs, ms, ev).0
    ensures ApplyMatches(attrs, ms, ev).0[name] == ConstAttr(x)
    decreases |ms|
  {
    var init := ms[..|ms| - 1];
    assert ApplyMatches(attrs, init, ev).1.None?;
    if i < |init| {
      assert init[i] == ms[i];
      assert forall j :: i < j < |init| ==> init[j] == ms[j];
      LastAssignmentWins(attrs, init, ev, i, name, x);
    }
  }

  /** A later definition replaces an earlier one: the constant holds the value
      of the last line that assigns it. */
  lemma LastDefinitionWins(attrs: map<string, Attr>, lines: seq<string>, ev: Evaluator, i: nat, name: string, x: Value)
    requires i < |lines| && Assigns(MatchDefine(lines[i]), ev, name, x)
    requires forall j :: i < j < |lines| ==> !AssignsName(MatchDefine(lines[j]), ev, name)
    requires ApplyConstants(attrs, lines, ev).1.None?
    ensures name in ApplyConstants(attrs, lines, ev).0
    ensures ApplyConstants(attrs, lines, ev).0[name] == ConstAttr(x)
  {
    EachLineAt(MatchDefine, lines);
    LastAssignmentWins(attrs, MatchEach(lines), ev, i, name, x);
  }

  /** A name no line assigns keeps its attribute, or its absence: lines that do
      not match, or whose `exec` raises NameError or SyntaxError, change nothing. */
  lemma {:induction false} UnassignedNameUntouched(attrs: map<string, Attr>, ms: seq<Groups>, ev: Evaluator, name: string)
    requires forall j :: 0 <= j < |ms| ==> !AssignsName(ms[j], ev, name)
    ensures name in ApplyMatches(attrs, ms, ev).0 <==> name in attrs
    ensures name in attrs ==> ApplyMatches(attrs, ms, ev).0[name] == attrs[name]
    decreases |ms|
  {
    if ms != [] {
      var init := ms[..|ms| - 1];
      assert forall j :: 0 <= j < |init| ==> init[j] == ms[j];
      UnassignedNameUntouched(attrs, init, ev, name);
      assert !AssignsName(ms[|ms| - 1], ev, name);
    }
  }

  // ---------------------------------------------------------------------------
  // The bind loop of `_load_functions`

  /** `cfunc.argtypes = [types[t] for t in arg_types]` under `try/except
      KeyError`, and `cfunc.restype = types[ret_type]` likewise. */
  function BindOne(name: string, d: FuncDecl, table: map<string, CType>): (f: BoundFunction)
    ensures f.name == name
    ensures f.argtypes.Some? <==> forall i :: 0 <= i < |d.argTypes| ==> d.argTypes[i] in table
    ensures f.argtypes.Some? ==> |f.argtypes.value| == |d.argTypes|
    ensures f.argtypes.Some? ==> forall i :: 0 <= i < |d.argTypes| ==> f.argtypes.value[i] == table[d.argTypes[i]]
    ensures f.restype.Some? <==> d.retType in table
    ensures f.restype.Some? ==> f.restype.value == table[d.retType]
  {
    BoundFunction(name, ResolveAll(d.argTypes, table), Lookup(d.retType, table))
  }

  /** The body of the bind loop for one declaration: the function pointer
      gets its `argtypes` when every argument type is in the table and its
      `restype` when the return type is; `known` says whether the latter
      happened. */
  method Configure(k: string, d: FuncDecl, table: map<string, CType>) returns (cfunc: BoundFunction, known: bool)
    ensures cfunc == BindOne(k, d, table)
    ensures known <==> d.retType in table
  {
    cfunc := BoundFunction(k, None, None);
    var argtypes := ResolveAll(d.argTypes, table);
    if argtypes.Some? {
      cfunc := cfunc.(argtypes := argtypes);
    }
    var restype := Lookup(d.retType, table);
    known := restype.Some?;
    if known {
      cfunc := cfunc.(restype := restype);
    }
  }

  /** The line printed for a function whose return type is not in the table. */
  function ReturnDiagnostic(name: string): string
  {
    "Couldn't parse return type for: " + name
  }

  lemma ReturnDiagnosticInjective(a: string, b: string)
    requires ReturnDiagnostic(a) == ReturnDiagnostic(b)
    ensures a == b
  {
    var prefix := "Couldn't parse return type for: ";
    assert ReturnDiagnostic(a)[|prefix|..] == a;
    assert ReturnDiagnostic(b)[|prefix|..] == b;
  }

  predicate Covers(keys: seq<string>, entries: map<string, FuncDecl>)
  {
    forall i :: 0 <= i < |keys| ==> keys[i] in entries
  }

  /** The diagnostics printed while binding `keys`, in order. */
  function Diagnostics(keys: seq<string>, entries: map<string, FuncDecl>, table: map<string, CType>): (r: seq<string>)
    requires Covers(keys, entries)
    ensures |r| <= |keys|
    decreases |keys|
  {
    if keys == [] then []
    else
      var init := keys[..|keys| - 1];
      var k := keys[|keys| - 1];
      Diagnostics(init, entries, table) + (if entries[k].retType in table then [] else [ReturnDiagnostic(k)])
  }

  /** The diagnostics name exactly the keys whose return type is unknown. */
  lemma {:induction false} DiagnosticsNames(keys: seq<string>, entries: map<string, FuncDecl>, table: map<string, CType>)
    requires Covers(keys, entries)
    ensures forall m :: m in Diagnostics(keys, entries, table) <==>
      exists i :: 0 <= i < |keys| && entries[keys[i]].retType !in table && m == ReturnDiagnostic(keys[i])
    decreases |keys|
  {
    if keys != [] {
      var init := keys[..|keys| - 1];
      assert forall i :: 0 <= i < |init| ==> init[i] == keys[i];
      DiagnosticsNames(init, entries, table);
    }
  }

  lemma DiagnosticsSnoc(keys: seq<string>, k: string, entries: map<string, FuncDecl>, table: map<string, CType>)
    requires Covers(keys, entries) && k in entries
    ensures Covers(keys + [k], entries)
    ensures Diagnostics(keys + [k], entries, table)
         == Diagnostics(keys, entries, table) + (if entries[k].retType in table then [] else [ReturnDiagnostic(k)])
  {
    assert (keys + [k])[..|keys|] == keys;
  }

  /** The attributes `setattr(self, k, cfunc)` creates for `keys`, in order. */
  function BoundAttrs(keys: seq<string>, entries: map<string, FuncDecl>, table: map<string, CType>): map<string, Attr>
    requires Covers(keys, entries)
    decreases |keys|
  {
    if keys == [] then map[]
    else
      var init := keys[..|keys| - 1];
      var k := keys[|keys| - 1];
      BoundAttrs(init, entries, table)[k := FuncAttr(BindOne(k, entries[k], table))]
  }

  /** Each key bound so far is an attribute holding its configured pointer,
      and nothing else is. */
  lemma {:induction false} BoundAttrsAt(keys: seq<string>, entries: map<string, FuncDecl>, table: map<string, CType>)
    requires Covers(keys, entries)
    ensures forall k :: k in BoundAttrs(keys, entries, table) <==> k in keys
    ensures forall k :: k in BoundAttrs(keys, entries, table) ==>
      BoundAttrs(keys, entries, table)[k] == FuncAttr(BindOne(k, entries[k], table))
    decreases |keys|
  {
    if keys != [] {
      var init := keys[..|keys| - 1];
      assert forall q :: q in keys <==> q in init || q == keys[|keys| - 1];
      BoundAttrsAt(init, entries, table);
    }
  }

  lemma BoundAttrsSnoc(keys: seq<string>, k: string, entries: map<string, FuncDecl>, table: map<string, CType>)
    requires Covers(keys, entries) && k in entries
    ensures Covers(keys + [k], entries)
    ensures BoundAttrs(keys + [k], entries, table) == BoundAttrs(keys, entries, table)[k := FuncAttr(BindOne(k, entries[k], table))]
  {
    assert (keys + [k])[..|keys|] == keys;
  }

  lemma OverrideUpdate<V>(a: map<string, V>, b: map<string, V>, k: string, v: V)
    ensures a + b[k := v] == (a + b)[k := v]
  {
  }

  /** One iteration of the bind loop keeps the attributes and the printed
      lines equal to those of the keys bound so far. */
  lemma BindStep(a0: map<string, Attr>, p0: seq<string>, keys: seq<string>, j: nat, entries: map<string, FuncDecl>, table: map<string, CType>)
    requires j < |keys| && Covers(keys, entries)
    ensures Covers(keys[..j], entries) && Covers(keys[..j + 1], entries)
    ensures a0 + BoundAttrs(keys[..j + 1], entries, table)
         == (a0 + BoundAttrs(keys[..j], entries, table))[keys[j] := FuncAttr(BindOne(keys[j], entries[keys[j]], table))]
    ensures p0 + Diagnostics(keys[..j + 1], entries, table)
         == p0 + Diagnostics(keys[..j], entries, table)
            + (if entries[keys[j]].retType in table then [] else [ReturnDiagnostic(keys[j])])
  {
    BindStepAttrs(keys, j, entries, table);
    BindStepDiagnostics(keys, j, entries, table);
    OverrideUpdate(a0, BoundAttrs(keys[..j], entries, table), keys[j], FuncAttr(BindOne(keys[j], entries[keys[j]], table)));
  }

  /** `BindStep` for a visiting order that grows at its end. */
  lemma BindSnoc(a0: map<string, Attr>, p0: seq<string>, keys: seq<string>, k: string, entries: map<string, FuncDecl>, table: map<string, CType>)
    requires Covers(keys, entries) && k in entries
    ensures Covers(keys + [k], entries)
    ensures a0 + BoundAttrs(keys + [k], entries, table)
         == (a0 + BoundAttrs(keys, entries, table))[k := FuncAttr(BindOne(k, entries[k], table))]
    ensures p0 + Diagnostics(keys + [k], entries, table)
         == p0 + Diagnostics(keys, entries, table) + (if entries[k].retType in table then [] else [ReturnDiagnostic(k)])
  {
    BoundAttrsSnoc(keys, k, entries, table);
    DiagnosticsSnoc(keys, k, entries, table);
    OverrideUpdate(a0, BoundAttrs(keys, entries, table), k, FuncAttr(BindOne(k, entries[k], table)));
  }

  lemma BindStepAttrs(keys: seq<string>, j: nat, entries: map<string, FuncDecl>, table: map<string, CType>)
    requires j < |keys| && Covers(keys, entries)
    ensures Covers(keys[..j], entries) && Covers(keys[..j + 1], entries)
    ensures BoundAttrs(keys[..j + 1], entries, table)
         == BoundAttrs(keys[..j], entries, table)[keys[j] := FuncAttr(BindOne(keys[j], entries[keys[j]], table))]
  {
    assert keys[..j + 1][..j] == keys[..j];
  }

  lemma BindStepDiagnostics(keys: seq<string>, j: nat, entries: map<string, FuncDecl>, table: map<string, CType>)
    requires j < |keys| && Covers(keys, entries)
    ensures Covers(keys[..j], entries) && Covers(keys[..j + 1], entries)
    ensures Diagnostics(keys[..j + 1], entries, table)
         == Diagnostics(keys[..j], entries, table)
            + (if entries[keys[j]].retType in table then [] else [ReturnDiagnostic(keys[j])])
  {
    assert keys[..j + 1][..j] == keys[..j];
  }

  /** The `functions` dictionary after the bind loop. */
  function Registry(keys: seq<string>, entries: map<string, FuncDecl>, table: map<string, CType>): map<string, RegEntry>
    requires Covers(keys, entries)
    decreases |keys|
  {
    if keys == [] then map[]
    else
      var init := keys[..|keys| - 1];
      var k := keys[|keys| - 1];
      Registry(init, entries, table)[k := RegEntry(entries[k], BindOne(k, entries[k], table))]
  }

  lemma {:induction false} RegistryAt(keys: seq<string>, entries: map<string, FuncDecl>, table: map<string, CType>)
    requires Covers(keys, entries)
    ensures forall k :: k in Registry(keys, entries, table) <==> k in keys
    ensures forall k :: k in Registry(keys, entries, table) ==>
      Registry(keys, entries, table)[k] == RegEntry(entries[k], BindOne(k, entries[k], table))
    decreases |keys|
  {
    if keys != [] {
      var init := keys[..|keys| - 1];
      assert forall q :: q in keys <==> q in init || q == keys[|keys| - 1];
      RegistryAt(init, entries, table);
    }
  }

  /** Index of the first key the DLL does not export, where `getattr` raises
      AttributeError, or the number of keys when it exports them all. */
  function FirstMissing(keys: seq<string>, exported: set<string>): (n: nat)
    ensures n <= |keys|
    ensures forall i :: 0 <= i < n ==> keys[i] in exported
    ensures n < |keys| ==> keys[n] !in exported
  {
    if keys == [] || keys[0] !in exported then 0
    else 1 + FirstMissing(keys[1..], exported)
  }

  /** The first key the DLL lacks is the one after a run of exported keys. */
  lemma FirstMissingAt(keys: seq<string>, exported: set<string>, n: nat)
    requires n <= |keys|
    requires forall i :: 0 <= i < n ==> keys[i] in exported
    requires n < |keys| ==> keys[n] !in exported
    ensures FirstMissing(keys, exported) == n
  {
  }

  /** The declaration table's keys in insertion order cover its entries. */
  lemma OrderCovers(t: DeclTable)
    requires t.Valid()
    ensures Covers(t.order, t.entries)
  {
  }

  /** `order` lists each element of `keys` exactly once. */
  ghost predicate Enumerates(order: seq<string>, keys: set<string>)
  {
    && (forall i, j :: 0 <= i < j < |order| ==> order[i] != order[j])
    && (forall i :: 0 <= i < |order| ==> order[i] in keys)
    && (forall k :: k in keys ==> k in order)
  }

  /** Some order that lists each element of `s` once. */
  ghost function Enumeration(s: set<string>): (r: seq<string>)
    ensures Enumerates(r, s)
  {
    if s == {} then []
    else
      var x :| x in s;
      var rest := Enumeration(s - {x});
      assert forall k :: k in s ==> k == x || k in s - {x};
      [x] + rest
  }

  /** The bind loop visiting the keys in the order `order`: bind each one up
      to the first symbol the DLL lacks, where `getattr` raises. */
  function BindKeys(attrs: map<string, Attr>, printed: seq<string>, order: seq<string>, entries: map<string, FuncDecl>,
                    exported: set<string>, table: map<string, CType>): (map<string, Attr>, seq<string>, Option<LoadError>)
    requires Covers(order, entries)
  {
    var n := FirstMissing(order, exported);
    (attrs + BoundAttrs(order[..n], entries, table),
     printed + Diagnostics(order[..n], entries, table),
     if n < |order| then Some(MissingSymbol(order[n])) else None)
  }

  /** Binding stops at the first key the DLL lacks, with the keys before it bound. */
  lemma BindKeysStopsAt(attrs: map<string, Attr>, printed: seq<string>, order: seq<string>, j: nat,
                        entries: map<string, FuncDecl>, exported: set<string>, table: map<string, CType>)
    requires Covers(order, entries) && j < |order|
    requires forall i :: 0 <= i < j ==> order[i] in exported
    requires order[j] !in exported
    ensures Covers(order[..j], entries)
    ensures BindKeys(attrs, printed, order, entries, exported, table)
         == (attrs + BoundAttrs(order[..j], entries, table), printed + Diagnostics(order[..j], entries, table), Some(MissingSymbol(order[j])))
  {
    FirstMissingAt(order, exported, j);
  }

  lemma BindKeysStopsAfter(attrs: map<string, Attr>, printed: seq<string>, visited: seq<string>, k: string, rest: seq<string>,
                           entries: map<string, FuncDecl>, exported: set<string>, table: map<string, CType>)
    requires Covers(visited + [k] + rest, entries)
    requires forall i :: 0 <= i < |visited| ==> visited[i] in exported
    requires k !in exported
    ensures Covers(visited, entries)
    ensures BindKeys(attrs, printed, visited + [k] + rest, entries, exported, table)
         == (attrs + BoundAttrs(visited, entries, table), printed + Diagnostics(visited, entries, table), Some(MissingSymbol(k)))
  {
    var order := visited + [k] + rest;
    assert order[..|visited|] == visited && order[|visited|] == k;
    BindKeysStopsAt(attrs, printed, order, |visited|, entries, exported, table);
  }

  /** Binding keys the DLL all exports binds every one of them. */
  lemma BindKeysAll(attrs: map<string, Attr>, printed: seq<string>, order: seq<string>,
                    entries: map<string, FuncDecl>, exported: set<string>, table: map<string, CType>)
    requires Covers(order, entries)
    requires forall i :: 0 <= i < |order| ==> order[i] in exported
    ensures BindKeys(attrs, printed, order, entries, exported, table)
         == (attrs + BoundAttrs(order, entries, table), printed + Diagnostics(order, entries, table), None)
  {
    FirstMissingAt(order, exported, |order|);
    assert order[..|order|] == order;
  }

  /** Midway through a visit of `keys`: `visited` lists distinct keys, all
      exported and none still `remaining`, and every key is one or the other. */
  ghost predicate Visiting(visited: seq<string>, remaining: set<string>, keys: set<string>, exported: set<string>)
  {
    && remaining <= keys
    && (forall i, j :: 0 <= i < j < |visited| ==> visited[i] != visited[j])
    && (forall i :: 0 <= i < |visited| ==> visited[i] in keys && visited[i] !in remaining && visited[i] in exported)
    && (forall q :: q in keys ==> q in visited || q in remaining)
  }

  /** Visiting one more exported key keeps a visit well formed. */
  lemma VisitStep(visited: seq<string>, k: string, remaining: set<string>, keys: set<string>, exported: set<string>)
    requires Visiting(visited, remaining, keys, exported)
    requires k in remaining && k in exported
    ensures Visiting(visited + [k], remaining - {k}, keys, exported)
  {
    var v := visited + [k];
    forall i, j | 0 <= i < j < |v| ensures v[i] != v[j] {
      if j < |visited| {
        assert v[i] == visited[i] && v[j] == visited[j];
      } else {
        assert v[i] == visited[i] && v[j] == k;
      }
    }
    forall q | q in keys ensures q in v || q in remaining - {k} {
      if q in visited {
        var i :| 0 <= i < |visited| && visited[i] == q;
        assert v[i] == q;
      } else if q == k {
        assert v[|visited|] == q;
      }
    }
  }

  /** Visiting `k` next and the rest of the unvisited keys in any order
      completes an enumeration of all keys. */
  lemma EnumerationExtends(visited: seq<string>, k: string, remaining: set<string>, keys: set<string>, exported: set<string>)
    requires Visiting(visited, remaining, keys, exported) && k in remaining
    ensures Enumerates(visited + [k] + Enumeration(remaining - {k}), keys)
  {
    var rest := Enumeration(remaining - {k});
    ExtendedDistinct(visited, k, rest, remaining);
    ExtendedCovers(visited, k, rest, remaining, keys);
    ExtendedWithin(visited, k, rest, remaining, keys);
  }

  lemma ExtendedCovers(visited: seq<string>, k: string, rest: seq<string>, remaining: set<string>, keys: set<string>)
    requires forall q :: q in keys ==> q in visited || q in remaining
    requires Enumerates(rest, remaining - {k})
    ensures forall q :: q in keys ==> q in visited + [k] + rest
  {
    var order := visited + [k] + rest;
    forall q | q in keys ensures q in order {
      if q in visited {
        var i :| 0 <= i < |visited| && visited[i] == q;
        assert order[i] == q;
      } else if q == k {
        assert order[|visited|] == q;
      } else {
        assert q in remaining - {k};
        var i :| 0 <= i < |rest| && rest[i] == q;
        assert order[|visited| + 1 + i] == q;
      }
    }
  }

  lemma ExtendedWithin(visited: seq<string>, k: string, rest: seq<string>, remaining: set<string>, keys: set<string>)
    requires forall i :: 0 <= i < |visited| ==> visited[i] in keys
    requires remaining <= keys && k in remaining
    requires Enumerates(rest, remaining - {k})
    ensures forall i :: 0 <= i < |visited + [k] + rest| ==> (visited + [k] + rest)[i] in keys
  {
    var order := visited + [k] + rest;
    forall i | 0 <= i < |order| ensures order[i] in keys {
      if i < |visited| {
        assert order[i] == visited[i];
      } else if i > |visited| {
        assert order[i] == rest[i - |visited| - 1];
      }
    }
  }

  lemma ExtendedDistinct(visited: seq<string>, k: string, rest: seq<string>, remaining: set<string>)
    requires forall i, j :: 0 <= i < j < |visited| ==> visited[i] != visited[j]
    requires forall i :: 0 <= i < |visited| ==> visited[i] !in remaining
    requires k in remaining
    requires Enumerates(rest, remaining - {k})
    ensures forall i, j :: 0 <= i < j < |visited + [k] + rest| ==> (visited + [k] + rest)[i] != (visited + [k] + rest)[j]
  {
    var order := visited + [k] + rest;
    forall i, j | 0 <= i < j < |order| ensures order[i] != order[j] {
      if j < |visited| {
        assert order[i] == visited[i] && order[j] == visited[j];
      } else if j == |visited| {
        assert order[i] == visited[i];
      } else if i < |visited| {
        assert order[j] == rest[j - |visited| - 1] && order[j] in remaining;
        assert order[i] == visited[i];
      } else if i == |visited| {
        assert order[j] == rest[j - |visited| - 1] && order[j] in remaining - {k};
      } else {
        assert order[i] == rest[i - |visited| - 1] && order[j] == rest[j - |visited| - 1];
      }
    }
  }

  /** The bind loop of pysentech over a scanned table: bind in insertion
      order up to the first symbol the DLL lacks, and store `self.functions`
      only if there is none. */
  function BindPhase(s: LoadState, t: DeclTable, exported: set<string>, table: map<string, CType>): (r: (LoadState, Option<LoadError>))
    requires t.Valid()
  {
    OrderCovers(t);
    var b := BindKeys(s.attrs, s.printed, t.order, t.entries, exported, table);
    (LoadState(b.0, b.1, if b.2.Some? then s.functions else Some(Registry(t.order, t.entries, table))), b.2)
  }

  /** `_load_functions` of pysentech: scan the declarations, then bind them. */
  function FunctionsPhase(s: LoadState, lines: seq<string>, exported: set<string>, table: map<string, CType>): (r: (LoadState, Option<LoadError>))
  {
    match ScanDeclarations(lines)
    case Err(e) => (s, Some(e))
    case Ok(t) => BindPhase(s, t, exported, table)
  }

  /** Each key is visited once, so no diagnostic is printed twice. */
  lemma {:induction false} DiagnosticsDistinct(keys: seq<string>, entries: map<string, FuncDecl>, table: map<string, CType>)
    requires Covers(keys, entries)
    requires forall i, j :: 0 <= i < j < |keys| ==> keys[i] != keys[j]
    ensures forall i, j :: 0 <= i < j < |Diagnostics(keys, entries, table)| ==>
      Diagnostics(keys, entries, table)[i] != Diagnostics(keys, entries, table)[j]
    decreases |keys|
  {
    if keys != [] {
      var init := keys[..|keys| - 1];
      var k := keys[|keys| - 1];
      DiagnosticsDistinct(init, entries, table);
      DiagnosticsNames(init, entries, table);
      if entries[k].retType !in table {
        forall i | 0 <= i < |init| && entries[init[i]].retType !in table
          ensures ReturnDiagnostic(k) != ReturnDiagnostic(init[i])
        {
          assert init[i] == keys[i] != k;
          if ReturnDiagnostic(k) == ReturnDiagnostic(init[i]) {
            ReturnDiagnosticInjective(k, init[i]);
          }
        }
        var d := Diagnostics(init, entries, table);
        assert ReturnDiagnostic(k) !in d;
        assert Diagnostics(keys, entries, table) == d + [ReturnDiagnostic(k)];
      }
    }
  }

  /** Whatever the visiting order, binding fails exactly when the DLL lacks a
      declared symbol, and then names one such symbol. */
  lemma BindKeysAborts(attrs: map<string, Attr>, printed: seq<string>, order: seq<string>, entries: map<string, FuncDecl>,
                       exported: set<string>, table: map<string, CType>)
    requires Enumerates(order, entries.Keys)
    ensures Covers(order, entries)
    ensures var r := BindKeys(attrs, printed, order, entries, exported, table);
      && (r.2.None? <==> entries.Keys <= exported)
      && (r.2.Some? ==> r.2.value.MissingSymbol? && r.2.value.name in entries && r.2.value.name !in exported)
  {
    var n := FirstMissing(order, exported);
    if n == |order| {
      forall k | k in entries ensures k in exported {
        var i :| 0 <= i < |order| && order[i] == k;
      }
    } else {
      assert order[n] in order;
    }
  }

  /** Whatever the visiting order, a successful bind makes every declared
      function an attribute carrying its configured pointer, and leaves every
      other attribute as it was. */
  lemma BindKeysAttrs(attrs: map<string, Attr>, printed: seq<string>, order: seq<string>, entries: map<string, FuncDecl>,
                      exported: set<string>, table: map<string, CType>, k: string)
    requires Enumerates(order, entries.Keys)
    ensures Covers(order, entries)
    ensures var r := BindKeys(attrs, printed, order, entries, exported, table);
      && (r.2.None? && k in entries ==> k in r.0 && r.0[k] == FuncAttr(BindOne(k, entries[k], table)))
      && (k !in entries ==> (k in r.0 <==> k in attrs) && (k in attrs ==> r.0[k] == attrs[k]))
  {
    var n := FirstMissing(order, exported);
    BoundAttrsAt(order[..n], entries, table);
    if n == |order| {
      assert order[..n] == order;
    }
  }

  /** Whatever the visiting order, the printed lines are appended to the old
      ones, never repeat, and on success name exactly the declared functions
      whose return type is not in the table. */
  lemma BindKeysDiagnostics(attrs: map<string, Attr>, printed: seq<string>, order: seq<string>, entries: map<string, FuncDecl>,
                            exported: set<string>, table: map<string, CType>, m: string)
    requires Enumerates(order, entries.Keys)
    ensures Covers(order, entries)
    ensures var r := BindKeys(attrs, printed, order, entries, exported, table);
      && r.1[..|printed|] == printed
      && (forall i, j :: |printed| <= i < j < |r.1| ==> r.1[i] != r.1[j])
      && (r.2.None? ==>
            (m in r.1[|printed|..] <==> exists k :: k in entries && entries[k].retType !in table && m == ReturnDiagnostic(k)))
  {
    var n := FirstMissing(order, exported);
    var d := Diagnostics(order[..n], entries, table);
    var r := BindKeys(attrs, printed, order, entries, exported, table);
    assert r.1 == printed + d;
    assert r.1[|printed|..] == d;
    DiagnosticsDistinct(order[..n], entries, table);
    SuffixDistinct(printed, d);
    if n == |order| {
      assert order[..n] == order;
      DiagnosticsOfAll(order, entries, table, m);
    }
  }

  lemma SuffixDistinct(a: seq<string>, d: seq<string>)
    requires forall i, j :: 0 <= i < j < |d| ==> d[i] != d[j]
    ensures forall i, j :: |a| <= i < j < |a + d| ==> (a + d)[i] != (a + d)[j]
  {
    forall i, j | |a| <= i < j < |a + d| ensures (a + d)[i] != (a + d)[j] {
      assert (a + d)[i] == d[i - |a|] && (a + d)[j] == d[j - |a|];
    }
  }

  /** Binding every key prints exactly one line per unknown return type. */
  lemma DiagnosticsOfAll(order: seq<string>, entries: map<string, FuncDecl>, table: map<string, CType>, m: string)
    requires Enumerates(order, entries.Keys)
    ensures Covers(order, entries)
    ensures m in Diagnostics(order, entries, table) <==>
      exists k :: k in entries && entries[k].retType !in table && m == ReturnDiagnostic(k)
  {
    DiagnosticsNames(order, entries, table);
    if exists k :: k in entries && entries[k].retType !in table && m == ReturnDiagnostic(k) {
      var k :| k in entries && entries[k].retType !in table && m == ReturnDiagnostic(k);
      var i :| 0 <= i < |order| && order[i] == k;
    }
  }

  /** After a successful bind over a table, every declared function is an
      attribute carrying its configured pointer and has a registry entry with
      its declaration; every other attribute is as before. */
  lemma BindSucceeds(s: LoadState, t: DeclTable, exported: set<string>, table: map<string, CType>, k: string)
    requires t.Valid()
    requires BindPhase(s, t, exported, table).1.None?
    ensures var r := BindPhase(s, t, exported, table).0;
      && t.entries.Keys <= exported
      && r.functions.Some? && r.functions.value.Keys == t.entries.Keys
      && (k in t.entries ==>
            && k in r.attrs && r.attrs[k] == FuncAttr(BindOne(k, t.entries[k], table))
            && r.functions.value[k] == RegEntry(t.entries[k], BindOne(k, t.entries[k], table)))
      && (k !in t.entries ==> (k in r.attrs <==> k in s.attrs) && (k in s.attrs ==> r.attrs[k] == s.attrs[k]))
  {
    BindPhaseBindsAll(s, t, exported, table);
    OverBoundAttrs(s.attrs, t.order, t.entries, table, k);
    RegistryAt(t.order, t.entries, table);
  }

  /** Attributes set over earlier ones: a bound key holds its pointer, any
      other key what it held before. */
  lemma OverBoundAttrs(a0: map<string, Attr>, keys: seq<string>, entries: map<string, FuncDecl>, table: map<string, CType>, k: string)
    requires Covers(keys, entries)
    ensures var a := a0 + BoundAttrs(keys, entries, table);
      && (k in keys ==> k in a && a[k] == FuncAttr(BindOne(k, entries[k], table)))
      && (k !in keys ==> (k in a <==> k in a0) && (k in a0 ==> a[k] == a0[k]))
  {
    BoundAttrsAt(keys, entries, table);
  }

  /** A bind that did not abort went through every key of the table. */
  lemma BindPhaseBindsAll(s: LoadState, t: DeclTable, exported: set<string>, table: map<string, CType>)
    requires t.Valid()
    requires BindPhase(s, t, exported, table).1.None?
    ensures Covers(t.order, t.entries)
    ensures t.entries.Keys <= exported
    ensures BindPhase(s, t, exported, table).0
         == LoadState(s.attrs + BoundAttrs(t.order, t.entries, table), s.printed + Diagnostics(t.order, t.entries, table),
                      Some(Registry(t.order, t.entries, table)))
  {
    OrderCovers(t);
    var n := FirstMissing(t.order, exported);
    assert n == |t.order|;
    assert t.order[..n] == t.order;
    forall q | q in t.entries ensures q in exported {
      var i :| 0 <= i < |t.order| && t.order[i] == q;
    }
  }

  /** The bind loop aborts exactly when the DLL lacks a declared symbol; it then
      names the first such symbol in declaration order, leaves `self.functions`
      as it was, and attaches no function declared from it on. */
  lemma BindAborts(s: LoadState, t: DeclTable, exported: set<string>, table: map<string, CType>)
    requires t.Valid()
    ensures var r := BindPhase(s, t, exported, table);
      && (r.1.Some? <==> exists k :: k in t.entries && k !in exported)
      && (r.1.Some? ==>
            && r.1.value.MissingSymbol? && r.1.value.name in t.entries && r.1.value.name !in exported
            && r.0.functions == s.functions
            && forall j :: 0 <= j < |t.order| && t.order[j] == r.1.value.name ==>
                 forall k :: j <= k < |t.order| && t.order[k] !in s.attrs ==> t.order[k] !in r.0.attrs)
  {
    OrderCovers(t);
    var n := FirstMissing(t.order, exported);
    if n == |t.order| {
      forall k | k in t.entries ensures k in exported {
        var i :| 0 <= i < |t.order| && t.order[i] == k;
      }
    } else {
      BoundAttrsAt(t.order[..n], t.entries, table);
      forall j, k | 0 <= j < |t.order| && t.order[j] == t.order[n] && j <= k < |t.order|
        ensures t.order[k] !in t.order[..n]
      {
        assert j == n;
      }
    }
  }

  /** On success the printed diagnostics name exactly the declared functions
      whose return type is not in the table. */
  lemma BindDiagnostics(s: LoadState, t: DeclTable, exported: set<string>, table: map<string, CType>, m: string)
    requires t.Valid()
    requires BindPhase(s, t, exported, table).1.None?
    ensures var r := BindPhase(s, t, exported, table).0;
      && r.printed[..|s.printed|] == s.printed
      && (m in r.printed[|s.printed|..] <==>
            exists k :: k in t.entries && t.entries[k].retType !in table && m == ReturnDiagnostic(k))
  {
    OrderCovers(t);
    BindKeysDiagnostics(s.attrs, s.printed, t.order, t.entries, exported, table, m);
  }

  /** `BindSucceeds` for the table the header scan builds. */
  lemma BoundAfterLoad(s: LoadState, lines: seq<string>, exported: set<string>, table: map<string, CType>, k: string)
    requires ScanDeclarations(lines).Ok?
    requires FunctionsPhase(s, lines, exported, table).1.None?
    ensures var t := ScanDeclarations(lines).value;
      var r := FunctionsPhase(s, lines, exported, table).0;
      && t.entries.Keys <= exported
      && r.functions.Some? && r.functions.value.Keys == t.entries.Keys
      && (k in t.entries ==>
            && k in r.attrs && r.attrs[k] == FuncAttr(BindOne(k, t.entries[k], table))
            && r.functions.value[k] == RegEntry(t.entries[k], BindOne(k, t.entries[k], table)))
      && (k !in t.entries ==> (k in r.attrs <==> k in s.attrs) && (k in s.attrs ==> r.attrs[k] == s.attrs[k]))
  {
    BindSucceeds(s, ScanDeclarations(lines).value, exported, table, k);
  }

  /** A function declared with `()` gets the single argument type `""`, which no
      table knows, so its `argtypes` stay unset in both variants. */
  lemma ZeroArgumentFunctionKeepsDefaultArgtypes(retType: string, name: string, tail: string)
    requires ' ' !in retType && '(' !in name && '(' !in tail
    requires !Contains(name + "(" + "" + ")" + tail, Marker)
    ensures var p := ParseDeclaration(retType + Marker + (name + "(" + "" + ")" + tail));
      && p.Ok? && p.value.Some?
      && BindOne(name, p.value.value.1, PySentechTypes).argtypes == None
      && BindOne(name, p.value.value.1, SenpyTypes).argtypes == None
  {
    EmptyArgumentList(retType, name, tail);
    EmptyNameUnknown();
  }

  // ---------------------------------------------------------------------------
  // Both loaders in sequence

  /** `_load_constants` then `_load_functions` on a fresh object; a raise in
      the first skips the second. */
  function LoadAll(lines: seq<string>, ev: Evaluator, exported: set<string>, table: map<string, CType>): (r: (LoadState, Option<LoadError>))
  {
    var c := ApplyConstants(map[], lines, ev);
    var s := LoadState(c.0, [], None);
    if c.1.Some? then (s, c.1) else FunctionsPhase(s, lines, exported, table)
  }

  /** A function declaration replaces a constant of the same name: after a
      successful load the attribute is the bound function. */
  lemma FunctionShadowsConstant(lines: seq<string>, ev: Evaluator, exported: set<string>, table: map<string, CType>, i: nat, j: nat, name: string, x: Value)
    requires i < |lines| && j < |lines|
    requires Assigns(MatchDefine(lines[i]), ev, name, x) && Declares(lines[j], name)
    requires LoadAll(lines, ev, exported, table).1.None?
    ensures name in LoadAll(lines, ev, exported, table).0.attrs
    ensures LoadAll(lines, ev, exported, table).0.attrs[name].FuncAttr?
  {
    var c := ApplyConstants(map[], lines, ev);
    var s := LoadState(c.0, [], None);
    ScanFailsAtFirstBadLine(lines);
    TableKeysAreDeclaredNames(lines, name);
    BoundAfterLoad(s, lines, exported, table, name);
  }
}
