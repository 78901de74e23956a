/** The `types` tables that map C type names from the SDK header to ctypes
    type objects, and the all-or-nothing resolution of an argument list
    through one of them. */
module CTypes {
  import opened Wrappers

  /** Tags for the ctypes type objects the tables name. `HANDLE` from
      `ctypes.wintypes` is `c_void_p`, so `POINTER(HANDLE)` is `Pointer(CVoidP)`. */
  datatype CType =
    | CBool | CLong | CULong | CDouble | CWChar | CUInt | CUShort | CByte
    | CCharP | CWCharP | CFloat | CShort | CVoidP
    | Pointer(target: CType)

  /** The table of pysentech/sentechdll.py, where `HANDLE` is a pointer type. */
  const PySentechTypes: map<string, CType> := map[
    "BOOL" := CBool,
    "BOOL*" := CBool,
    "LONG" := CLong,
    "ULONG" := CULong,
    "PLONG" := Pointer(CLong),
    "DOUBLE" := CDouble,
    "WCHAR" := CWChar,
    "UINT" := CUInt,
    "WORD" := CUShort,
    "DWORD" := CULong,
    "HANDLE" := Pointer(CVoidP),
    "PWORD" := Pointer(CUShort),
    "PDWORD" := Pointer(CULong),
    "HWND*" := Pointer(CULong),
    "HWND" := CULong,
    "HMENU" := CULong,
    "BYTE" := CByte,
    "PBYTE" := Pointer(CByte),
    "HDC*" := Pointer(CULong),
    "PSTR" := CCharP,
    "PWSTR" := CWCharP,
    "PCSTR" := CCharP,
    "PCWSTR" := CWCharP,
    "HDC" := CULong,
    "FLOAT" := CFloat,
    "PFLOAT" := Pointer(CFloat),
    "SHORT" := CShort,
    "PSHORT" := Pointer(CShort),
    "LPVOID" := CVoidP,
    "VOID" := CVoidP
  ]

  /** The table of senpy/sentechdll.py, where `HANDLE` is the value type `c_ulong`. */
  const SenpyTypes: map<string, CType> := map[
    "BOOL" := CBool,
    "BOOL*" := CBool,
    "LONG" := CLong,
    "ULONG" := CULong,
    "PLONG" := Pointer(CLong),
    "DOUBLE" := CDouble,
    "WCHAR" := CWChar,
    "UINT" := CUInt,
    "WORD" := CUShort,
    "DWORD" := CULong,
    "HANDLE" := CULong,
    "PWORD" := Pointer(CUShort),
    "PDWORD" := Pointer(CULong),
    "HWND*" := Pointer(CULong),
    "HWND" := CULong,
    "HMENU" := CULong,
    "BYTE" := CByte,
    "PBYTE" := Pointer(CByte),
    "HDC*" := Pointer(CULong),
    "PSTR" := CCharP,
    "PWSTR" := CWCharP,
    "PCSTR" := CCharP,
    "PCWSTR" := CWCharP,
    "HDC" := CULong,
    "FLOAT" := CFloat,
    "PFLOAT" := Pointer(CFloat),
    "SHORT" := CShort,
    "PSHORT" := Pointer(CShort),
    "LPVOID" := CVoidP,
    "VOID" := CVoidP
  ]

  /** `[types[t] for t in names]`: the comprehension raises KeyError at the
      first unknown name, so the list exists only when every name is a key. */
  function ResolveAll(names: seq<string>, table: map<string, CType>): (r: Option<seq<CType>>)
    ensures r.Some? <==> forall i :: 0 <= i < |names| ==> names[i] in table
    ensures r.Some? ==> |r.value| == |names|
    ensures r.Some? ==> forall i :: 0 <= i < |names| ==> r.value[i] == table[names[i]]
  {
    if names == [] then Some([])
    else if names[0] !in table then None
    else match ResolveAll(names[1..], table)
      case None => None
      case Some(rest) => Some([table[names[0]]] + rest)
  }

  /** `types[name]` when it does not raise. */
  function Lookup(name: string, table: map<string, CType>): (r: Option<CType>)
    ensures r.Some? <==> name in table
    ensures r.Some? ==> r.value == table[name]
  {
    if name in table then Some(table[name]) else None
  }

  /** Neither table has an entry for the empty type name. */
  lemma EmptyNameUnknown()
    ensures "" !in PySentechTypes && "" !in SenpyTypes
  {
    assert forall k :: k in PySentechTypes ==> |k| >= 3;
    TablesDifferOnlyAtHandle();
  }

  /** The two variants' tables have the same keys and differ only at `HANDLE`,
      which is a pointer in pysentech and the value type `c_ulong` in senpy. */
  lemma TablesDifferOnlyAtHandle()
    ensures PySentechTypes.Keys == SenpyTypes.Keys
    ensures forall n :: n in SenpyTypes && n != "HANDLE" ==> SenpyTypes[n] == PySentechTypes[n]
    ensures SenpyTypes["HANDLE"] == CULong && PySentechTypes["HANDLE"] == Pointer(CVoidP)
  {
    assert SenpyTypes == PySentechTypes["HANDLE" := CULong];
  }
}
