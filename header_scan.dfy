/** The line-by-line scan of the SDK header `StCamD.h` shared by both loader
    variants: the `#define` matcher that yields constants, the literal
    evaluator standing in for `exec`, and the `" WINAPI "` splitter that yields
    the function table `{name: arg_types, arg_names, ret_type}`. */
module HeaderScan {
  import opened Wrappers
  import opened PyStr

  /** The calling-convention marker that makes a line a declaration. */
  const Marker: string := " WINAPI "

  /** One entry of the `functions` dictionary before binding. */
  datatype FuncDecl = FuncDecl(argTypes: seq<string>, argNames: seq<string>, retType: string)

  /** The exceptions that abort a load. */
  datatype LoadError =
    | Unpack(line: string)                    // ValueError: a split did not give exactly two parts
    | EvalRaised(name: string, reason: string) // exec raised something other than NameError/SyntaxError
    | MissingSymbol(name: string)             // AttributeError from getattr(dll, name)

  // ---------------------------------------------------------------------------
  // Declarations

  /** `[f.strip(" ") for f in arg_text.split(",")]`. */
  function ArgPieces(argText: string): (r: seq<string>)
    ensures |r| == |Split(argText, ",")|
    ensures forall i :: 0 <= i < |r| ==> r[i] == Strip(Split(argText, ",")[i])
    ensures |r| == Count(argText, ',') + 1
  {
    var raw := Split(argText, ",");
    SplitCount(argText, ',');
    seq(|raw|, i requires 0 <= i < |raw| => Strip(raw[i]))
  }

  /** `f.split(" ")[0]`. */
  function FirstToken(p: string): string
  {
    Split(p, " ")[0]
  }

  /** `f.split(" ")[1]` does not raise IndexError. */
  predicate HasName(p: string)
  {
    |Split(p, " ")| >= 2
  }

  lemma HasNameIffSpace(p: string)
    ensures HasName(p) <==> ' ' in p
  {
    SplitCount(p, ' ');
  }

  /** `[f.split(" ")[0] for f in pieces]`: one type per piece. */
  function ArgTypesOf(pieces: seq<string>): (r: seq<string>)
    ensures |r| == |pieces|
    ensures forall i :: 0 <= i < |pieces| ==> r[i] == FirstToken(pieces[i])
  {
    seq(|pieces|, i requires 0 <= i < |pieces| => FirstToken(pieces[i]))
  }

  /** `[f.split(" ")[1] for f in pieces]`, which raises IndexError at the first
      piece with no second token. */
  function NamesOrRaise(pieces: seq<string>): (r: Option<seq<string>>)
    ensures r.Some? <==> forall i :: 0 <= i < |pieces| ==> HasName(pieces[i])
    ensures r.Some? ==> |r.value| == |pieces|
    ensures r.Some? ==> forall i :: 0 <= i < |pieces| ==> r.value[i] == Split(pieces[i], " ")[1]
  {
    if pieces == [] then Some([])
    else if !HasName(pieces[0]) then None
    else match NamesOrRaise(pieces[1..])
      case None => None
      case Some(rest) => Some([Split(pieces[0], " ")[1]] + rest)
  }

  /** The `try/except IndexError` around the names: all of them, or `[]`. */
  function ArgNamesOf(pieces: seq<string>): (r: seq<string>)
    ensures r == [] || |r| == |pieces|
    ensures |pieces| > 0 ==> (r != [] <==> forall i :: 0 <= i < |pieces| ==> HasName(pieces[i]))
  {
    match NamesOrRaise(pieces)
    case None => []
    case Some(names) => names
  }

  /** The entry built from a return type and the text between the parentheses. */
  function DeclOf(retType: string, argText: string): FuncDecl
  {
    var pieces := ArgPieces(argText);
    FuncDecl(ArgTypesOf(pieces), ArgNamesOf(pieces), retType)
  }

  /** One iteration of the declaration loop: `Ok(None)` for a line that adds
      nothing, `Ok(Some((name, entry)))` for a declaration, and `Err` for the
      ValueError a tuple unpacking raises, which aborts the load. */
  function ParseDeclaration(line: string): (r: Result<Option<(string, FuncDecl)>, LoadError>)
    ensures !Contains(line, Marker) <==> r == Ok(None)
    ensures r.Err? ==> r.error == Unpack(line)
    ensures r.Ok? && r.value.Some? ==>
      && !Contains(r.value.value.1.retType, Marker)
      && '(' !in r.value.value.0
      && |r.value.value.1.argTypes| >= 1
      && (r.value.value.1.argNames == [] || |r.value.value.1.argNames| == |r.value.value.1.argTypes|)
  {
    if !Contains(line, Marker) then Ok(None)
    else
      var halves := Split(line, Marker);
      if |halves| != 2 then Err(Unpack(line))
      else
        var retType, func := halves[0], halves[1];
        var nameArgs := Split(func, "(");
        if |nameArgs| != 2 then Err(Unpack(line))
        else
          var argText := Split(nameArgs[1], ")")[0];
          SplitPiecesFree(line, Marker);
          SplitPiecesFree(func, "(");
          ContainsChar(nameArgs[0], '(');
          Ok(Some((nameArgs[0], DeclOf(retType, argText))))
  }

  lemma SplitFree(s: string, sep: string)
    requires sep != [] && !Contains(s, sep)
    ensures Split(s, sep) == [s]
  {
  }

  lemma CharNotInConcat(a: string, b: string, c: char)
    requires c !in a && c !in b
    ensures c !in a + b
  {
  }

  /** The anatomy of a declaration line: a return type without a space, the
      marker, a name without `(`, the argument text between `(` and the first
      `)`, and a tail without `(`. Such a line parses to that name, that return
      type and the entry of its argument text. */
  lemma {:induction false} ParseShape(retType: string, name: string, argText: string, tail: string)
    requires ' ' !in retType
    requires !Contains(name + "(" + argText + ")" + tail, Marker)
    requires '(' !in name && '(' !in argText && ')' !in argText && '(' !in tail
    ensures ParseDeclaration(retType + Marker + (name + "(" + argText + ")" + tail))
         == Ok(Some((name, DeclOf(retType, argText))))
  {
    var afterParen := argText + ")" + tail;
    var func := name + "(" + afterParen;
    assert func == name + "(" + argText + ")" + tail;
    SplitAtFirst(retType, Marker, func);
    assert '(' !in afterParen;
    ContainsChar(afterParen, '(');
    SplitAtFirst(name, "(", afterParen);
    FindAfterFree(argText, ")", tail);
    assert afterParen[..|argText|] == argText;
    ParsePieces(retType + Marker + func, retType, func, name, afterParen, argText);
  }

  /** A line whose two unpackings succeed parses to the name before `(`
      and the entry of the text up to the first `)`. */
  lemma ParsePieces(line: string, retType: string, func: string, name: string, afterParen: string, argText: string)
    requires Split(line, Marker) == [retType, func]
    requires Split(func, "(") == [name, afterParen]
    requires Split(afterParen, ")")[0] == argText
    ensures ParseDeclaration(line) == Ok(Some((name, DeclOf(retType, argText))))
  {
    if !Contains(line, Marker) {
      SplitFree(line, Marker);
    }
  }

  /** `a + sep + b` splits at `sep` into `a` and `b` when `sep` starts
      nowhere in `a` and occurs nowhere in `b`. */
  lemma SplitAtFirst(a: string, sep: string, b: string)
    requires sep != [] && sep[0] !in a && !Contains(b, sep)
    ensures Split(a + sep + b, sep) == [a, b]
  {
    var line := a + sep + b;
    FindAfterFree(a, sep, b);
    assert line[|a| + |sep|..] == b;
    assert line[..|a|] == a;
    SplitFree(b, sep);
  }

  /** A line with two non-overlapping markers fails the first unpacking. */
  lemma TwoMarkersAbort(line: string, i: nat, j: nat)
    requires OccursAt(line, Marker, i) && OccursAt(line, Marker, j) && i + |Marker| <= j
    ensures ParseDeclaration(line) == Err(Unpack(line))
  {
    SplitsThrice(line, Marker, i, j);
    assert Contains(line, Marker);
  }

  /** Two non-overlapping occurrences of a separator cut a line into three
      pieces or more. */
  lemma SplitsThrice(line: string, sep: string, i: nat, j: nat)
    requires sep != [] && OccursAt(line, sep, i) && OccursAt(line, sep, j) && i + |sep| <= j
    ensures |Split(line, sep)| >= 3
  {
    assert Contains(line, sep);
    var f := Find(line, sep).value;
    assert f <= i;
    var rest := line[f + |sep|..];
    OccursAfter(line, sep, f + |sep|, j);
    assert Contains(rest, sep) by {
      assert j - (f + |sep|) <= |rest|;
    }
    SplitAtFind(rest, sep, Find(rest, sep).value);
    SplitAtFind(line, sep, f);
  }

  /** An occurrence at `j` is one at `j - d` of the text from `d` on. */
  lemma OccursAfter(line: string, sep: string, d: nat, j: nat)
    requires d <= j && OccursAt(line, sep, j)
    ensures OccursAt(line[d..], sep, j - d)
  {
    assert line[d..][j - d..j - d + |sep|] == line[j..j + |sep|];
  }

  /** With exactly one marker, the line parses iff the text after the marker
      holds exactly one `(`. */
  lemma ParenCountDecides(line: string)
    requires Contains(line, Marker) && |Split(line, Marker)| == 2
    ensures ParseDeclaration(line).Ok? <==> Count(Split(line, Marker)[1], '(') == 1
  {
    SplitCount(Split(line, Marker)[1], '(');
  }

  /** An argument list rendered the way the SDK header writes it:
      `TYPE name, TYPE name, ...`. */
  datatype Param = Param(typeName: string, name: string)

  predicate IsWord(w: string)
  {
    w != [] && ' ' !in w && ',' !in w && '(' !in w && ')' !in w
  }

  function ParamText(p: Param, first: bool): string
  {
    (if first then "" else " ") + p.typeName + " " + p.name
  }

  function ParamTexts(ps: seq<Param>): (r: seq<string>)
    ensures |r| == |ps|
  {
    seq(|ps|, i requires 0 <= i < |ps| => ParamText(ps[i], i == 0))
  }

  function RenderArgs(ps: seq<Param>): string
    requires |ps| >= 1
  {
    Join(ParamTexts(ps), ",")
  }

  function TypesOf(ps: seq<Param>): seq<string>
  {
    seq(|ps|, i requires 0 <= i < |ps| => ps[i].typeName)
  }

  function NamesOf(ps: seq<Param>): seq<string>
  {
    seq(|ps|, i requires 0 <= i < |ps| => ps[i].name)
  }

  lemma {:induction false} CharNotInJoin(parts: seq<string>, sep: string, c: char)
    requires |parts| >= 1
    requires c !in sep
    requires forall k :: 0 <= k < |parts| ==> c !in parts[k]
    ensures c !in Join(parts, sep)
    decreases |parts|
  {
    if |parts| > 1 {
      CharNotInJoin(parts[1..], sep, c);
    }
  }

  lemma StripPadded(t: string, n: string, first: bool)
    requires IsWord(t) && IsWord(n)
    ensures Strip(ParamText(Param(t, n), first)) == t + " " + n
  {
    var x := t + " " + n;
    assert t[0] in t && n[|n| - 1] in n;
    assert x[0] == t[0] && x[|x| - 1] == n[|n| - 1];
    assert ParamText(Param(t, n), first) == (if first then "" else " ") + x;
    StripEdges(x, first);
  }

  /** A text that starts and ends with a non-space survives `strip(" ")`,
      with or without one space in front of it. */
  lemma StripEdges(x: string, first: bool)
    requires x != [] && x[0] != ' ' && x[|x| - 1] != ' '
    ensures Strip((if first then "" else " ") + x) == x
  {
    assert LStrip(x) == x;
    assert RStrip(x) == x;
    if !first {
      var s := " " + x;
      assert s[1..] == x;
      assert LStrip(s) == x;
    } else {
      assert "" + x == x;
    }
  }

  lemma TwoTokens(t: string, n: string)
    requires IsWord(t) && IsWord(n)
    ensures Split(t + " " + n, " ") == [t, n]
  {
    SplitJoinChar([t, n], ' ');
    assert Join([t, n], " ") == t + " " + n;
  }

  lemma RenderedPiece(ps: seq<Param>, i: nat)
    requires i < |ps|
    requires forall j :: 0 <= j < |ps| ==> IsWord(ps[j].typeName) && IsWord(ps[j].name)
    ensures |ArgPieces(RenderArgs(ps))| == |ps|
    ensures ArgPieces(RenderArgs(ps))[i] == ps[i].typeName + " " + ps[i].name
  {
    var texts := ParamTexts(ps);
    SplitJoinChar(texts, ',');
    assert texts[i] == ParamText(ps[i], i == 0);
    StripPadded(ps[i].typeName, ps[i].name, i == 0);
  }

  lemma RenderedPieces(ps: seq<Param>)
    requires |ps| >= 1
    requires forall i :: 0 <= i < |ps| ==> IsWord(ps[i].typeName) && IsWord(ps[i].name)
    ensures ArgTypesOf(ArgPieces(RenderArgs(ps))) == TypesOf(ps)
    ensures ArgNamesOf(ArgPieces(RenderArgs(ps))) == NamesOf(ps)
  {
    var pieces := ArgPieces(RenderArgs(ps));
    RenderedPiece(ps, 0);
    forall i | 0 <= i < |ps| ensures pieces[i] == ps[i].typeName + " " + ps[i].name {
      RenderedPiece(ps, i);
    }
    TokensOf(pieces, ps);
  }

  lemma TokensOf(pieces: seq<string>, ps: seq<Param>)
    requires |pieces| == |ps| >= 1
    requires forall i :: 0 <= i < |ps| ==> IsWord(ps[i].typeName) && IsWord(ps[i].name)
    requires forall i :: 0 <= i < |ps| ==> pieces[i] == ps[i].typeName + " " + ps[i].name
    ensures ArgTypesOf(pieces) == TypesOf(ps)
    ensures ArgNamesOf(pieces) == NamesOf(ps)
  {
    forall i | 0 <= i < |ps|
      ensures FirstToken(pieces[i]) == ps[i].typeName
      ensures HasName(pieces[i]) && Split(pieces[i], " ")[1] == ps[i].name
    {
      TwoTokens(ps[i].typeName, ps[i].name);
    }
    assert ArgTypesOf(pieces) == TypesOf(ps);
    assert NamesOrRaise(pieces).Some?;
  }

  /** Round trip: a declaration written the way the SDK header writes it parses
      back to its name, its parameter types, its parameter names and its return
      type, one entry per parameter and in order. */
  lemma {:induction false} ParseRendered(retType: string, name: string, ps: seq<Param>, tail: string)
    requires |ps| >= 1 && IsWord(retType) && '(' !in name && '(' !in tail
    requires forall i :: 0 <= i < |ps| ==> IsWord(ps[i].typeName) && IsWord(ps[i].name)
    requires !Contains(name + "(" + RenderArgs(ps) + ")" + tail, Marker)
    ensures ParseDeclaration(retType + Marker + (name + "(" + RenderArgs(ps) + ")" + tail))
         == Ok(Some((name, FuncDecl(TypesOf(ps), NamesOf(ps), retType))))
  {
    var texts := ParamTexts(ps);
    forall k | 0 <= k < |texts| ensures '(' !in texts[k] && ')' !in texts[k] && ',' !in texts[k] {
      assert texts[k] == ParamText(ps[k], k == 0);
    }
    CharNotInJoin(texts, ",", '(');
    CharNotInJoin(texts, ",", ')');
    ParseShape(retType, name, RenderArgs(ps), tail);
    RenderedPieces(ps);
  }

  /** An empty argument list `()` gives one empty argument type and no names:
      `[""]`, not `[]`. */
  lemma EmptyArgumentList(retType: string, name: string, tail: string)
    requires ' ' !in retType && '(' !in name && '(' !in tail
    requires !Contains(name + "(" + "" + ")" + tail, Marker)
    ensures ParseDeclaration(retType + Marker + (name + "(" + "" + ")" + tail))
         == Ok(Some((name, FuncDecl([""], [], retType))))
  {
    ParseShape(retType, name, "", tail);
    EmptyArgText();
  }

  lemma EmptyArgText()
    ensures ArgPieces("") == [""]
    ensures DeclOf([], "").argTypes == [""] && DeclOf([], "").argNames == []
  {
    assert Find("", ",") == None;
    assert Split("", ",") == [""];
    assert Strip("") == "";
    assert Find("", " ") == None;
    assert Split("", " ") == [""];
    assert FirstToken("") == "";
    assert !HasName("");
    assert NamesOrRaise([""]) == None;
  }

  // ---------------------------------------------------------------------------
  // The function table: a dictionary that keeps first-insertion order

  datatype DeclTable = DeclTable(order: seq<string>, entries: map<string, FuncDecl>)
  {
    /** `order` lists each key once, in the order it was first inserted. */
    ghost predicate Valid()
    {
      && (forall i, j :: 0 <= i < j < |order| ==> order[i] != order[j])
      && (forall k :: k in entries <==> k in order)
    }

    /** `functions[name] = entry`: a later declaration replaces the earlier
        entry and keeps its position. */
    function Put(name: string, d: FuncDecl): (t: DeclTable)
      requires Valid()
      ensures t.Valid()
      ensures t.entries == entries[name := d]
      ensures name in entries ==> t.order == order
      ensures name !in entries ==> t.order == order + [name]
    {
      if name in entries then DeclTable(order, entries[name := d])
      else DeclTable(order + [name], entries[name := d])
    }
  }

  const EmptyTable: DeclTable := DeclTable([], map[])

  /** What one line of the declaration loop yields. */
  type Parsed = Result<Option<(string, FuncDecl)>, LoadError>

  /** The line's result names the function `name`. */
  predicate Names(p: Parsed, name: string)
  {
    p.Ok? && p.value.Some? && p.value.value.0 == name
  }

  /** The declaration loop over already parsed lines: stop at the first error,
      skip lines that add nothing, and store each declaration. */
  function Absorb(ps: seq<Parsed>): (r: Result<DeclTable, LoadError>)
    ensures r.Ok? ==> r.value.Valid()
    decreases |ps|
  {
    if ps == [] then Ok(EmptyTable)
    else match Absorb(ps[..|ps| - 1])
      case Err(e) => Err(e)
      case Ok(t) =>
        match ps[|ps| - 1]
        case Err(e) => Err(e)
        case Ok(None) => Ok(t)
        case Ok(Some(entry)) => Ok(t.Put(entry.0, entry.1))
  }

  function ParseEach(lines: seq<string>): (r: seq<Parsed>)
    ensures |r| == |lines|
    ensures forall i :: 0 <= i < |lines| ==> r[i] == ParseDeclaration(lines[i])
  {
    seq(|lines|, i requires 0 <= i < |lines| => ParseDeclaration(lines[i]))
  }

  /** The declaration loop of `_load_functions` over the header's lines. */
  function ScanDeclarations(lines: seq<string>): (r: Result<DeclTable, LoadError>)
    ensures r.Ok? ==> r.value.Valid()
  {
    Absorb(ParseEach(lines))
  }

  lemma {:induction false} AbsorbFailsAtFirstError(ps: seq<Parsed>)
    ensures Absorb(ps).Ok? <==> forall i :: 0 <= i < |ps| ==> ps[i].Ok?
    ensures Absorb(ps).Err? ==>
      exists i :: 0 <= i < |ps| && ps[i] == Err(Absorb(ps).error) && forall j :: 0 <= j < i ==> ps[j].Ok?
    decreases |ps|
  {
    if ps != [] {
      var init := ps[..|ps| - 1];
      AbsorbFailsAtFirstError(init);
      assert forall i :: 0 <= i < |init| ==> init[i] == ps[i];
      if Absorb(init).Err? {
        var i :| 0 <= i < |init| && init[i] == Err(Absorb(init).error) && forall j :: 0 <= j < i ==> init[j].Ok?;
        assert ps[i] == Err(Absorb(ps).error);
      }
    }
  }

  lemma {:induction false} AbsorbKeys(ps: seq<Parsed>, name: string)
    requires Absorb(ps).Ok?
    ensures name in Absorb(ps).value.entries <==> exists i :: 0 <= i < |ps| && Names(ps[i], name)
    decreases |ps|
  {
    if ps != [] {
      var init := ps[..|ps| - 1];
      AbsorbKeys(init, name);
      assert forall i :: 0 <= i < |init| ==> init[i] == ps[i];
      if exists i :: 0 <= i < |ps| && Names(ps[i], name) {
        var i :| 0 <= i < |ps| && Names(ps[i], name);
        if i < |init| {
          assert Names(init[i], name);
        }
      }
    }
  }

  lemma {:induction false} AbsorbLastWins(ps: seq<Parsed>, i: nat, name: string, d: FuncDecl)
    requires i < |ps| && ps[i] == Ok(Some((name, d)))
    requires forall j :: i < j < |ps| ==> !Names(ps[j], name)
    requires Absorb(ps).Ok?
    ensures name in Absorb(ps).value.entries && Absorb(ps).value.entries[name] == d
    decreases |ps|
  {
    var init := ps[..|ps| - 1];
    if i < |init| {
      assert init[i] == ps[i];
      assert forall j :: i < j < |init| ==> init[j] == ps[j];
      AbsorbLastWins(init, i, name, d);
      assert !Names(ps[|ps| - 1], name);
    }
  }

  /** `line` declares a function named `name`. */
  predicate Declares(line: string, name: string)
  {
    Names(ParseDeclaration(line), name)
  }

  lemma AbsorbErrorSticks(ps: seq<Parsed>, k: nat)
    requires k <= |ps| && Absorb(ps[..k]).Err?
    ensures Absorb(ps) == Absorb(ps[..k])
    decreases |ps| - k
  {
    if k < |ps| {
      assert ps[..k + 1][..k] == ps[..k];
      AbsorbErrorSticks(ps, k + 1);
    } else {
      assert ps[..k] == ps;
    }
  }

  /** One more line of the loop: the table so far absorbs that line's result. */
  lemma AbsorbSnoc(ps: seq<Parsed>, i: nat)
    requires i < |ps|
    ensures Absorb(ps[..i + 1]) ==
      match Absorb(ps[..i])
      case Err(e) => Err(e)
      case Ok(t) =>
        match ps[i]
        case Err(e) => Err(e)
        case Ok(None) => Ok(t)
        case Ok(Some(entry)) => Ok(t.Put(entry.0, entry.1))
  {
    assert ps[..i + 1][..i] == ps[..i];
  }

  /** The `for line in hfile` loop of `_load_functions` that fills the local
      `functions` dictionary. */
  method ScanHeader(lines: seq<string>) returns (r: Result<DeclTable, LoadError>)
    ensures r == ScanDeclarations(lines)
  {
    var ps := ParseEach(lines);
    var table := EmptyTable;
    var i := 0;
    while i < |lines|
      invariant 0 <= i <= |lines|
      invariant Absorb(ps[..i]) == Ok(table)
    {
      var p := ParseDeclaration(lines[i]);
      AbsorbSnoc(ps, i);
      match p {
        case Err(e) =>
          AbsorbErrorSticks(ps, i + 1);
          return Err(e);
        case Ok(None) =>
        case Ok(Some(entry)) =>
          table := table.Put(entry.0, entry.1);
      }
      i := i + 1;
    }
    assert ps[..i] == ps;
    return Ok(table);
  }

  /** The scan fails exactly when some line fails to unpack, and then with the
      error of the first such line. */
  lemma ScanFailsAtFirstBadLine(lines: seq<string>)
    ensures ScanDeclarations(lines).Ok? <==> forall i :: 0 <= i < |lines| ==> ParseDeclaration(lines[i]).Ok?
    ensures ScanDeclarations(lines).Err? ==>
      exists i :: 0 <= i < |lines| && ScanDeclarations(lines).error == Unpack(lines[i])
        && forall j :: 0 <= j < i ==> ParseDeclaration(lines[j]).Ok?
  {
    AbsorbFailsAtFirstError(ParseEach(lines));
  }

  /** The table's keys are exactly the names some line declares. */
  lemma TableKeysAreDeclaredNames(lines: seq<string>, name: string)
    requires ScanDeclarations(lines).Ok?
    ensures name in ScanDeclarations(lines).value.entries <==>
      exists i :: 0 <= i < |lines| && Declares(lines[i], name)
  {
    AbsorbKeys(ParseEach(lines), name);
  }

  /** A later declaration replaces an earlier one: the entry of a name is the
      one built from the last line declaring it. */
  lemma LastDeclarationWins(lines: seq<string>, i: nat, name: string, d: FuncDecl)
    requires i < |lines| && ParseDeclaration(lines[i]) == Ok(Some((name, d)))
    requires forall j :: i < j < |lines| ==> !Declares(lines[j], name)
    requires ScanDeclarations(lines).Ok?
    ensures name in ScanDeclarations(lines).value.entries
    ensures ScanDeclarations(lines).value.entries[name] == d
  {
    AbsorbLastWins(ParseEach(lines), i, name, d);
  }

  // ---------------------------------------------------------------------------
  // Constants

  const Directive: string := "#define"

  /** Index of the first newline, or the length when there is none: where the
      regex `.` stops matching. */
  function LineEnd(v: string): (n: nat)
    ensures n <= |v| && '\n' !in v[..n]
    ensures n < |v| ==> v[n] == '\n'
  {
    if v == [] then 0
    else if v[0] == '\n' then 0
    else
      var n := 1 + LineEnd(v[1..]);
      assert v[..n] == [v[0]] + v[1..][..n - 1];
      n
  }

  /** End (exclusive) of the last `"` at index 1 or later, or 0 when there is none. */
  function LastQuoteEnd(w: string): (n: nat)
    ensures n == 0 || (2 <= n <= |w| && w[n - 1] == '"')
    ensures forall k :: (if n == 0 then 1 else n) <= k < |w| ==> w[k] != '"'
  {
    if |w| <= 1 then 0
    else if w[|w| - 1] == '"' then |w|
    else LastQuoteEnd(w[..|w| - 1])
  }

  /** Length taken by the alternative `".*"` of the value group, or 0 when it
      fails: from an opening quote, greedily to the last quote before the
      first newline. */
  function QuotedLength(v: string): (n: nat)
    ensures n == 0 || (2 <= n <= LineEnd(v) && v[0] == '"' && v[n - 1] == '"')
    ensures n > 0 ==> forall k :: n <= k < LineEnd(v) ==> v[k] != '"'
    ensures v != [] && v[0] == '"' && n == 0 ==> forall k :: 1 <= k < LineEnd(v) ==> v[k] != '"'
  {
    if v == [] || v[0] != '"' then 0
    else
      var w := v[..LineEnd(v)];
      var n := LastQuoteEnd(w);
      assert forall k :: 0 <= k < |w| ==> w[k] == v[k];
      n
  }

  /** The value group `(".*"|\S+)` at the start of `v`: the quoted
      alternative when it matches, else the longest run of non-whitespace. */
  function ValueToken(v: string): (r: Option<string>)
    ensures r.Some? ==> r.value != [] && r.value <= v
    ensures r.None? <==> v == [] || IsSpace(v[0])
  {
    var q := QuotedLength(v);
    if q > 0 then Some(v[..q])
    else
      var t := SpanNonSpace(v);
      if t == 0 then None else Some(v[..t])
  }

  /** `re.match(r'\#define\s+(\S+)\s+(".*"|\S+)', line)`, giving the two groups. */
  function MatchDefine(line: string): (r: Option<(string, string)>)
    ensures r.Some? ==> r.value.0 != [] && r.value.1 != []
    ensures r.Some? ==> forall k :: 0 <= k < |r.value.0| ==> !IsSpace(r.value.0[k])
    ensures |line| < |Directive| || line[..|Directive|] != Directive ==> r.None?
  {
    if |line| < |Directive| || line[..|Directive|] != Directive then None
    else
      var s := line[|Directive|..];
      var w1 := SpanSpace(s);
      if w1 == 0 then None
      else
        var s1 := s[w1..];
        var n := SpanNonSpace(s1);
        if n == 0 then None
        else
          var s2 := s1[n..];
          var w2 := SpanSpace(s2);
          if w2 == 0 then None
          else match ValueToken(s2[w2..])
            case None => None
            case Some(value) => Some((s1[..n], value))
  }

  predicate AllSpace(w: string)
  {
    forall k :: 0 <= k < |w| ==> IsSpace(w[k])
  }

  predicate NoSpace(w: string)
  {
    forall k :: 0 <= k < |w| ==> !IsSpace(w[k])
  }

  lemma {:induction false} SpanSpaceOf(a: string, b: string)
    requires AllSpace(a) && (b == [] || !IsSpace(b[0]))
    ensures SpanSpace(a + b) == |a|
    decreases |a|
  {
    if a != [] {
      assert (a + b)[1..] == a[1..] + b;
      SpanSpaceOf(a[1..], b);
    } else {
      assert a + b == b;
    }
  }

  lemma {:induction false} SpanNonSpaceOf(a: string, b: string)
    requires NoSpace(a) && (b == [] || IsSpace(b[0]))
    ensures SpanNonSpace(a + b) == |a|
    decreases |a|
  {
    if a != [] {
      assert (a + b)[1..] == a[1..] + b;
      SpanNonSpaceOf(a[1..], b);
    } else {
      assert a + b == b;
    }
  }

  /** A `#define` line cut at its whitespace runs: the name group is the
      non-blank run after the first run and the value group is read from what
      follows the second. */
  lemma MatchShape(ws1: string, name: string, ws2: string, v: string)
    requires ws1 != [] && AllSpace(ws1) && ws2 != [] && AllSpace(ws2)
    requires name != [] && NoSpace(name) && (v == [] || !IsSpace(v[0]))
    ensures MatchDefine(Directive + ws1 + name + ws2 + v)
         == (match ValueToken(v) case None => None case Some(value) => Some((name, value)))
  {
    var line := Directive + ws1 + name + ws2 + v;
    var s := ws1 + (name + (ws2 + v));
    assert line[..|Directive|] == Directive;
    assert line[|Directive|..] == s;
    SpanSpaceOf(ws1, name + (ws2 + v));
    var s1 := name + (ws2 + v);
    assert s[|ws1|..] == s1;
    SpanNonSpaceOf(name, ws2 + v);
    assert s1[..|name|] == name;
    var s2 := ws2 + v;
    assert s1[|name|..] == s2;
    SpanSpaceOf(ws2, v);
    assert s2[|ws2|..] == v;
  }

  /** Round trip for an unquoted value: `#define`, whitespace, the name,
      whitespace, the value token, and anything that starts with whitespace
      gives back exactly that name and that value. */
  lemma MatchRenderedToken(ws1: string, name: string, ws2: string, value: string, rest: string)
    requires ws1 != [] && AllSpace(ws1) && ws2 != [] && AllSpace(ws2)
    requires name != [] && NoSpace(name) && value != [] && NoSpace(value) && value[0] != '"'
    requires rest == [] || IsSpace(rest[0])
    ensures MatchDefine(Directive + ws1 + name + ws2 + (value + rest)) == Some((name, value))
  {
    MatchShape(ws1, name, ws2, value + rest);
    PlainToken(value, rest);
  }

  lemma PlainToken(value: string, rest: string)
    requires value != [] && NoSpace(value) && value[0] != '"'
    requires rest == [] || IsSpace(rest[0])
    ensures ValueToken(value + rest) == Some(value)
  {
    SpanNonSpaceOf(value, rest);
    assert (value + rest)[..|value|] == value;
  }

  lemma LineEndAfter(a: string, b: string)
    requires '\n' !in a
    ensures LineEnd(a + b) >= |a|
  {
    assert forall k :: 0 <= k < |a| ==> (a + b)[k] == a[k];
  }

  /** The greedy `".*"` stops at the last quote of the line. */
  lemma QuotedLengthOf(body: string, rest: string)
    requires '\n' !in body && '"' !in rest
    ensures QuotedLength("\"" + body + "\"" + rest) == |body| + 2
  {
    var value := "\"" + body + "\"";
    var v := value + rest;
    assert '\n' !in value;
    LineEndAfter(value, rest);
    assert v[|value| - 1] == '"';
    assert forall k :: |value| <= k < |v| ==> v[k] == rest[k - |value|];
  }

  /** Round trip for a quoted value: a value whose text after the closing
      quote holds no quote comes back whole, inner quotes and spaces included. */
  lemma MatchRenderedQuoted(ws1: string, name: string, ws2: string, body: string, rest: string)
    requires ws1 != [] && AllSpace(ws1) && ws2 != [] && AllSpace(ws2)
    requires name != [] && NoSpace(name) && '\n' !in body && '"' !in rest
    ensures MatchDefine(Directive + ws1 + name + ws2 + ("\"" + body + "\"" + rest))
         == Some((name, "\"" + body + "\""))
  {
    MatchShape(ws1, name, ws2, "\"" + body + "\"" + rest);
    QuotedToken(body, rest);
  }

  lemma QuotedToken(body: string, rest: string)
    requires '\n' !in body && '"' !in rest
    ensures ValueToken("\"" + body + "\"" + rest) == Some("\"" + body + "\"")
  {
    var value := "\"" + body + "\"";
    var v := value + rest;
    QuotedLengthOf(body, rest);
    assert v[..|value|] == value;
  }

  /** A `#define` line with a name and no value matches nothing. */
  lemma DefineWithoutValue(ws1: string, name: string, ws2: string)
    requires ws1 != [] && AllSpace(ws1) && name != [] && NoSpace(name) && ws2 != [] && AllSpace(ws2)
    ensures MatchDefine(Directive + ws1 + name + ws2) == None
  {
    MatchShape(ws1, name, ws2, []);
    assert Directive + ws1 + name + ws2 + [] == Directive + ws1 + name + ws2;
  }

  // ---------------------------------------------------------------------------
  // The stand-in for `exec("self.{}={}".format(name, value))`

  /** What a constant's value evaluates to. */
  datatype Value = IntValue(i: int) | StrValue(s: string) | OtherValue(source: string)

  /** The outcome of the `exec`: an assignment, one of the two exceptions the
      loader swallows, or any other exception, which aborts the load. */
  datatype Exec = Assigned(value: Value) | NameOrSyntaxError | OtherError(reason: string)

  /** An abstract partial evaluator of `self.<name>=<value>`. */
  type Evaluator = (string, string) -> Exec

  predicate IsDigit(c: char)
  {
    '0' <= c <= '9'
  }

  predicate IsIdentifierChar(c: char)
  {
    IsDigit(c) || ('a' <= c <= 'z') || ('A' <= c <= 'Z') || c == '_'
  }

  /** The reserved words of Python 3: `self.<keyword>=...` is a SyntaxError. */
  const Keywords: set<string> := {
    "False", "None", "True", "and", "as", "assert", "async", "await", "break", "class", "continue",
    "def", "del", "elif", "else", "except", "finally", "for", "from", "global", "if", "import",
    "in", "is", "lambda", "nonlocal", "not", "or", "pass", "raise", "return", "try", "while",
    "with", "yield"}

  /** An ASCII Python identifier that is not a reserved word, the form an
      attribute name after `self.` must take. */
  predicate IsIdentifier(name: string)
  {
    && name != [] && !IsDigit(name[0]) && (forall k :: 0 <= k < |name| ==> IsIdentifierChar(name[k]))
    && name !in Keywords
  }

  predicate AllDigits(s: string)
  {
    forall k :: 0 <= k < |s| ==> IsDigit(s[k])
  }

  /** A Python 3 decimal integer literal: no leading zero except in zero itself. */
  predicate IsDecimal(s: string)
  {
    s != [] && AllDigits(s) && (s[0] != '0' || forall k :: 0 <= k < |s| ==> s[k] == '0')
  }

  function DigitsValue(s: string): (n: nat)
    requires AllDigits(s)
  {
    if s == [] then 0 else 10 * DigitsValue(s[..|s| - 1]) + (s[|s| - 1] as int - '0' as int)
  }

  function HexDigitValue(c: char): (d: int)
  {
    if '0' <= c <= '9' then c as int - '0' as int
    else if 'a' <= c <= 'f' then c as int - 'a' as int + 10
    else if 'A' <= c <= 'F' then c as int - 'A' as int + 10
    else -1
  }

  predicate AllHexDigits(s: string)
  {
    forall k :: 0 <= k < |s| ==> HexDigitValue(s[k]) >= 0
  }

  function HexValue(s: string): (n: nat)
    requires AllHexDigits(s)
  {
    if s == [] then 0 else 16 * HexValue(s[..|s| - 1]) + HexDigitValue(s[|s| - 1])
  }

  /** A Python hexadecimal literal `0x...` or `0X...`. */
  predicate IsHex(s: string)
  {
    |s| >= 3 && s[0] == '0' && (s[1] == 'x' || s[1] == 'X') && AllHexDigits(s[2..])
  }

  /** The quoted literal `"body"` with nothing inside that Python would treat
      specially. */
  predicate IsPlainQuoted(s: string)
  {
    |s| >= 2 && s[0] == '"' && s[|s| - 1] == '"' && '"' !in s[1..|s| - 1] && '\\' !in s[1..|s| - 1]
  }

  /** A concrete evaluator: decimal literals, optionally negated, hexadecimal
      literals and plain double-quoted strings evaluate; every other value is
      treated as a NameError or SyntaxError. */
  function LiteralEval(name: string, value: string): (r: Exec)
    ensures !IsIdentifier(name) ==> r == NameOrSyntaxError
    ensures name in Keywords ==> r == NameOrSyntaxError
    ensures r.Assigned? ==> IsIdentifier(name)
    ensures !r.OtherError?
  {
    if !IsIdentifier(name) then NameOrSyntaxError
    else if IsDecimal(value) then Assigned(IntValue(DigitsValue(value)))
    else if |value| >= 2 && value[0] == '-' && IsDecimal(value[1..]) then Assigned(IntValue(0 - DigitsValue(value[1..]) as int))
    else if IsHex(value) then Assigned(IntValue(HexValue(value[2..])))
    else if IsPlainQuoted(value) then Assigned(StrValue(value[1..|value| - 1]))
    else NameOrSyntaxError
  }

  function DigitChar(d: nat): (c: char)
    requires d < 10
    ensures IsDigit(c) && c as int - '0' as int == d
  {
    ('0' as int + d) as char
  }

  /** The decimal text of a natural number, as `str(n)` writes it. */
  function DecimalText(n: nat): (s: string)
    ensures s != [] && AllDigits(s)
    decreases n
  {
    if n < 10 then [DigitChar(n)] else DecimalText(n / 10) + [DigitChar(n % 10)]
  }

  /** Reading back the decimal text of `n` gives `n`, and the text is a valid
      Python 3 literal (no leading zero). */
  lemma {:induction false} DecimalRoundTrip(n: nat)
    ensures IsDecimal(DecimalText(n))
    ensures DigitsValue(DecimalText(n)) == n
    ensures n > 0 ==> DecimalText(n)[0] != '0'
    decreases n
  {
    var s := DecimalText(n);
    if n >= 10 {
      DecimalRoundTrip(n / 10);
      assert s[..|s| - 1] == DecimalText(n / 10);
      assert s[0] == DecimalText(n / 10)[0];
    }
  }

  /** A numeric `#define` whose value is the decimal text of `n` assigns `n`. */
  lemma EvalDecimal(name: string, n: nat)
    requires IsIdentifier(name)
    ensures LiteralEval(name, DecimalText(n)) == Assigned(IntValue(n))
  {
    DecimalRoundTrip(n);
  }
}
