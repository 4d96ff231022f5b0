/** The host side: a read-only snapshot of attribute-bearing objects and
    indexable sequences, and the coercions the bridge applies to them. */
module Host {
  import opened LuaApi

  datatype HostVal =
    | HInt(i: int)
    | HFloat(d: Double)
    | HBool(b: bool)
    | HStr(s: string)
    | HObj(attrs: map<string, HostVal>)
    | HList(items: seq<HostVal>)
    | HNone

  /** The range of a C long on the 64-bit platforms the module is built for. */
  const LongMin: int := -0x8000_0000_0000_0000
  const LongMax: int := 0x7fff_ffff_ffff_ffff

  /** PyObject_GetAttrString succeeds. */
  predicate HasAttr(o: HostVal, name: string)
  {
    o.HObj? && name in o.attrs
  }

  /** The attribute, when there is one. A failed lookup returns NULL in the
      bridge; no decoder is allowed to make one, so its value here (None)
      is never read. */
  function Attr(o: HostVal, name: string): (v: HostVal)
    ensures HasAttr(o, name) ==> v == o.attrs[name]
  {
    if HasAttr(o, name) then o.attrs[name] else HNone
  }

  /** PyLong_AsLong: an int (a bool counts as 0 or 1) in the range of a C
      long, and the error return -1 for anything else, overflow included. */
  function AsLong(v: HostVal): (x: int)
    ensures LongMin <= x <= LongMax
    ensures v.HInt? && LongMin <= v.i <= LongMax ==> x == v.i
    ensures v.HBool? ==> x == if v.b then 1 else 0
    ensures !v.HInt? && !v.HBool? ==> x == -1
  {
    match v
    case HInt(i) => if LongMin <= i <= LongMax then i else -1
    case HBool(b) => if b then 1 else 0
    case _ => -1
  }

  /** PyFloat_AsDouble: a float as is, an int or a bool through its
      conversion, and the error return -1.0 for anything else. */
  function AsDouble(v: HostVal): (d: Double)
    ensures v.HFloat? ==> d == v.d
    ensures v.HInt? ==> d == FromInteger(v.i)
    ensures !v.HFloat? && !v.HInt? && !v.HBool? ==> d == FromInteger(-1)
  {
    match v
    case HFloat(d) => d
    case HInt(i) => FromInteger(i)
    case HBool(b) => FromInteger(if b then 1 else 0)
    case _ => FromInteger(-1)
  }

  /** PyObject_IsTrue, as the bridge stores it into a C++ bool: false for
      None, False, zero and empty strings and sequences, true otherwise.
      A non-integral double is never zero. */
  function IsTrue(v: HostVal): (b: bool)
    ensures v.HBool? ==> b == v.b
    ensures v.HInt? ==> (b <==> v.i != 0)
    ensures v.HNone? ==> !b
  {
    match v
    case HInt(i) => i != 0
    case HFloat(d) => d != FromInteger(0)
    case HBool(b) => b
    case HStr(s) => s != ""
    case HObj(_) => true
    case HList(items) => items != []
    case HNone => false
  }

  /** What lua_pushstring copies from the buffer PyUnicode_AsUTF8 returns:
      the characters before the first NUL. */
  function CString(s: string): (r: string)
    ensures |r| <= |s| && r == s[..|r|]
    ensures '\0' !in r
    ensures |r| < |s| ==> s[|r|] == '\0'
  {
    if s == [] || s[0] == '\0' then [] else [s[0]] + CString(s[1..])
  }

  /** getString's conversion: the text of a host string, and nil for
      anything else (PyUnicode_AsUTF8 fails and returns NULL, which
      lua_pushstring pushes as nil). */
  function Utf8(v: HostVal): (x: Val)
    ensures v.HStr? ==> x == Str(CString(v.s))
    ensures !v.HStr? ==> x == Nil
  {
    if v.HStr? then Str(CString(v.s)) else Nil
  }

  /** Attribute name holds a host string, so getString binds a string. */
  predicate StringAt(o: HostVal, name: string)
  {
    HasAttr(o, name) && Attr(o, name).HStr?
  }

  /** Attribute name holds a sequence with at least count items
      (PyObject_GetItem with 0 <= i < count succeeds). */
  predicate ListAt(o: HostVal, name: string, count: int)
  {
    HasAttr(o, name) && Attr(o, name).HList? && count <= |Attr(o, name).items|
  }
}
