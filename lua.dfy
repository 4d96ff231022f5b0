/** An abstract Lua 5.3 state as the C API sees it (sections 4.1-4.3 and 4.8 of
    the Lua 5.3 Reference Manual): a stack of values and a heap of tables.
    Lua code that the bridge only calls is an oracle fixed per state. */
module LuaApi {

  datatype Option<+T> = None | Some(value: T)

  type Ref = nat

  /** Lua floats are carried, never computed on: Raw is a token for a
      double received from the host that is not an integer, FromInteger
      the double nearest to an integer. */
  datatype Double = Raw(token: nat) | FromInteger(n: int)

  datatype Closure = LuaClosure(id: nat) | CFunction(name: string)

  /** The Lua 5.3 value types that the bridge creates or inspects. */
  datatype Val =
    | Nil
    | Boolean(b: bool)
    | Integer(i: int)
    | Number(d: Double)
    | Str(s: string)
    | TableRef(ref: Ref)
    | Function(fn: Closure)
    | LightUserdata(ptr: nat)

  datatype Key = KStr(name: string) | KInt(n: int)

  /** A table: its raw contents, and its metatable if it has one. */
  datatype LuaTable = LuaTable(fields: map<Key, Val>, meta: Option<Ref>)

  type Heap = map<Ref, LuaTable>

  /** What a call into Lua code yields: its results, or the error object it
      raised; in both cases the heap as that code left it. */
  datatype CallResult =
    | Returned(values: seq<Val>, heap: Heap)
    | Raised(error: Val, heap: Heap)

  /** Behaviour of Lua code outside the bridge: calling a value with arguments. */
  type Script = (Val, seq<Val>, Heap) -> CallResult

  /** Behaviour of loading and running a chunk by file name. */
  type Loader = (string, Heap) -> CallResult

  /** A record of every transfer of control to Lua code, with the heap it saw. */
  datatype Event =
    | Called(callee: Val, args: seq<Val>, heap: Heap)
    | Loaded(file: string, heap: Heap)

  const EmptyTable := LuaTable(map[], None)

  /** Lua code never frees a table the bridge can still reach: the collector
      only reclaims unreachable tables, and the model keeps every table. */
  ghost predicate KeepsTables(script: Script, loader: Loader)
  {
    && (forall f: Val, args: seq<Val>, h: Heap :: h.Keys <= script(f, args, h).heap.Keys)
    && (forall file: string, h: Heap :: h.Keys <= loader(file, h).heap.Keys)
  }

  /** The index translation of section 4.3 of the Lua 5.3 manual: positive
      indices count from the bottom (1 is the first pushed value), negative
      ones from the top. */
  function AbsIndex(size: nat, idx: int): int
  {
    if idx > 0 then idx else size + idx + 1
  }

  predicate ValidIndex(size: nat, idx: int)
  {
    idx != 0 && 1 <= AbsIndex(size, idx) <= size
  }

  function Slot(s: seq<Val>, idx: int): (v: Val)
    requires ValidIndex(|s|, idx)
    ensures idx < 0 ==> v == s[|s| + idx]
    ensures idx > 0 ==> v == s[idx - 1]
  {
    s[AbsIndex(|s|, idx) - 1]
  }

  /** The adjustment lua_call and lua_pcall apply to a callee's results:
      truncated, or padded with nil, to exactly n values. */
  function Adjust(vals: seq<Val>, n: nat): (r: seq<Val>)
    ensures |r| == n
    ensures forall i :: 0 <= i < n ==> r[i] == (if i < |vals| then vals[i] else Nil)
  {
    if n <= |vals| then vals[..n] else vals + seq(n - |vals|, _ => Nil)
  }

  /** A raw store: assigning nil removes the key, as tables hold no nil. */
  function Store(t: LuaTable, k: Key, v: Val): (r: LuaTable)
    ensures r.meta == t.meta
    ensures k in r.fields <==> v != Nil
    ensures k in r.fields ==> r.fields[k] == v
    ensures forall k' :: k' != k ==> (k' in r.fields <==> k' in t.fields)
    ensures forall k' :: k' != k && k' in t.fields ==> r.fields[k'] == t.fields[k']
  {
    if v == Nil then t.(fields := t.fields - {k}) else t.(fields := t.fields[k := v])
  }

  /** The "index" event of table r for key k: the raw value if present,
      otherwise the lookup continues in the table that the metatable's
      __index field names. A cycle in that chain yields nil here. */
  function Index(h: Heap, r: Ref, k: Key, seen: set<Ref>): Val
    decreases h.Keys - seen
  {
    if r !in h || r in seen then Nil
    else if k in h[r].fields && h[r].fields[k] != Nil then h[r].fields[k]
    else match h[r].meta
      case None => Nil
      case Some(mt) =>
        if mt in h && KStr("__index") in h[mt].fields && h[mt].fields[KStr("__index")].TableRef?
        then Index(h, h[mt].fields[KStr("__index")].ref, k, seen + {r})
        else Nil
  }

  /** t[k] for a table t, as lua_getfield and lua_getglobal read it. */
  function Get(h: Heap, t: Ref, k: Key): Val
  {
    Index(h, t, k, {})
  }

  lemma GetRaw(h: Heap, t: Ref, k: Key)
    requires t in h && k in h[t].fields && h[t].fields[k] != Nil
    ensures Get(h, t, k) == h[t].fields[k]
  {
  }

  /** lua_tonumber: numbers convert, anything else gives 0. */
  function ToNumber(v: Val): (d: Double)
    ensures v.Number? ==> d == v.d
    ensures v.Integer? ==> d == FromInteger(v.i)
    ensures !v.Number? && !v.Integer? ==> d == FromInteger(0)
  {
    match v
    case Number(x) => x
    case Integer(i) => FromInteger(i)
    case _ => FromInteger(0)
  }

  /** lua_toboolean: only nil and false are false. */
  function ToBoolean(v: Val): (b: bool)
    ensures !b <==> (v == Nil || v == Boolean(false))
  {
    match v
    case Nil => false
    case Boolean(x) => x
    case _ => true
  }

  ghost function Bound(s: set<nat>): (b: nat)
    ensures forall x :: x in s ==> x < b
    decreases |s|
  {
    if s == {} then 0
    else
      var x :| x in s;
      var b' := Bound(s - {x});
      assert forall y :: y in s ==> y == x || y in s - {x};
      if x < b' then b' else x + 1
  }

  lemma FreshRefExists(h: Heap)
    ensures exists r: Ref :: r !in h
  {
    var b := Bound(h.Keys);
    assert b !in h;
  }

  /** One Lua state: the stack of the running C function and the heap. */
  class Machine {
    var stack: seq<Val>
    var heap: Heap
    ghost var log: seq<Event>
    const globals: Ref
    const script: Script
    const loader: Loader

    ghost predicate Valid()
      reads this
    {
      globals in heap && KeepsTables(script, loader)
    }

    /** luaL_newstate followed by luaL_openlibs: an empty stack and a global
        table whose field _G names itself. */
    constructor NewState(script: Script, loader: Loader)
      requires KeepsTables(script, loader)
      ensures Valid() && stack == [] && log == []
      ensures this.script == script && this.loader == loader
      ensures heap == map[globals := LuaTable(map[KStr("_G") := TableRef(globals)], None)]
    {
      this.script := script;
      this.loader := loader;
      globals := 0;
      stack := [];
      heap := map[0 := LuaTable(map[KStr("_G") := TableRef(0)], None)];
      log := [];
    }

    /** lua_newtable: pushes a new empty table. */
    method NewTable() returns (ghost r: Ref)
      requires Valid()
      modifies this
      ensures Valid() && r !in old(heap)
      ensures heap == old(heap)[r := EmptyTable]
      ensures stack == old(stack) + [TableRef(r)]
      ensures log == old(log)
    {
      FreshRefExists(heap);
      var t: Ref :| t !in heap;
      heap := heap[t := EmptyTable];
      stack := stack + [TableRef(t)];
      r := t;
    }

    /** lua_pushnumber, lua_pushinteger, lua_pushboolean, lua_pushstring,
        lua_pushlightuserdata and lua_pushcfunction: push one value. */
    method Push(v: Val)
      modifies this
      ensures stack == old(stack) + [v]
      ensures heap == old(heap) && log == old(log)
    {
      stack := stack + [v];
    }

    /** lua_pushvalue: pushes a copy of the value at idx. */
    method PushValue(idx: int)
      requires ValidIndex(|stack|, idx)
      modifies this
      ensures stack == old(stack) + [Slot(old(stack), idx)]
      ensures heap == old(heap) && log == old(log)
    {
      stack := stack + [Slot(stack, idx)];
    }

    /** lua_getfield: pushes t[k] for the table t at idx. */
    method GetField(idx: int, k: string)
      requires ValidIndex(|stack|, idx) && Slot(stack, idx).TableRef?
      modifies this
      ensures stack == old(stack) + [Get(old(heap), Slot(old(stack), idx).ref, KStr(k))]
      ensures heap == old(heap) && log == old(log)
    {
      stack := stack + [Get(heap, Slot(stack, idx).ref, KStr(k))];
    }

    /** lua_getglobal: pushes the global named k. */
    method GetGlobal(k: string)
      modifies this
      ensures stack == old(stack) + [Get(old(heap), globals, KStr(k))]
      ensures heap == old(heap) && log == old(log)
    {
      stack := stack + [Get(heap, globals, KStr(k))];
    }

    /** lua_setfield: t[k] = v for the table t at idx and the value v on
        top, which is popped. The index is resolved before the pop. */
    method SetField(idx: int, k: string)
      requires ValidIndex(|stack|, idx)
      requires Slot(stack, idx).TableRef? && Slot(stack, idx).ref in heap
      modifies this
      ensures var t := Slot(old(stack), idx).ref;
              heap == old(heap)[t := Store(old(heap)[t], KStr(k), old(stack)[|old(stack)| - 1])]
      ensures stack == old(stack)[..|old(stack)| - 1]
      ensures log == old(log) && Valid() == old(Valid())
    {
      var t := Slot(stack, idx).ref;
      heap := heap[t := Store(heap[t], KStr(k), stack[|stack| - 1])];
      stack := stack[..|stack| - 1];
    }

    /** lua_rawseti: t[n] = v without metamethods, v popped from the top. */
    method RawSetI(idx: int, n: int)
      requires ValidIndex(|stack|, idx)
      requires Slot(stack, idx).TableRef? && Slot(stack, idx).ref in heap
      modifies this
      ensures var t := Slot(old(stack), idx).ref;
              heap == old(heap)[t := Store(old(heap)[t], KInt(n), old(stack)[|old(stack)| - 1])]
      ensures stack == old(stack)[..|old(stack)| - 1]
      ensures log == old(log) && Valid() == old(Valid())
    {
      var t := Slot(stack, idx).ref;
      heap := heap[t := Store(heap[t], KInt(n), stack[|stack| - 1])];
      stack := stack[..|stack| - 1];
    }

    /** lua_insert: moves the top value into position idx, shifting up the
        values above it. */
    method Insert(idx: int)
      requires ValidIndex(|stack|, idx)
      modifies this
      ensures var p := AbsIndex(|old(stack)|, idx) - 1;
              var n := |old(stack)|;
              stack == old(stack)[..p] + [old(stack)[n - 1]] + old(stack)[p..n - 1]
      ensures heap == old(heap) && log == old(log)
    {
      var p := AbsIndex(|stack|, idx) - 1;
      var n := |stack|;
      stack := stack[..p] + [stack[n - 1]] + stack[p..n - 1];
    }

    /** lua_settop: the stack gets exactly the size idx names; new slots are nil. */
    method SetTop(idx: int)
      requires idx >= 0 || |stack| + idx + 1 >= 0
      modifies this
      ensures var n := if idx >= 0 then idx else |old(stack)| + idx + 1;
              |stack| == n &&
              forall i :: 0 <= i < n ==> stack[i] == (if i < |old(stack)| then old(stack)[i] else Nil)
      ensures heap == old(heap) && log == old(log)
    {
      var n := if idx >= 0 then idx else |stack| + idx + 1;
      if n <= |stack| {
        stack := stack[..n];
      } else {
        stack := stack + seq(n - |stack|, _ => Nil);
      }
    }

    /** lua_pop: lua_settop(L, -n-1). */
    method Pop(n: nat)
      requires n <= |stack|
      modifies this
      ensures stack == old(stack)[..|old(stack)| - n]
      ensures heap == old(heap) && log == old(log)
    {
      SetTop(-(n as int) - 1);
    }

    /** lua_tonumber on the value at idx; the stack is not changed. */
    method ToNumberAt(idx: int) returns (d: Double)
      requires ValidIndex(|stack|, idx)
      ensures d == ToNumber(Slot(stack, idx))
    {
      d := ToNumber(Slot(stack, idx));
    }

    /** lua_toboolean on the value at idx. */
    method ToBooleanAt(idx: int) returns (b: bool)
      requires ValidIndex(|stack|, idx)
      ensures b <==> Slot(stack, idx) != Nil && Slot(stack, idx) != Boolean(false)
    {
      b := ToBoolean(Slot(stack, idx));
    }

    /** lua_touserdata: the address of a light userdata, NULL otherwise. */
    method ToUserdata(idx: int) returns (p: Option<nat>)
      requires ValidIndex(|stack|, idx)
      ensures p.Some? <==> Slot(stack, idx).LightUserdata?
      ensures p.Some? ==> p.value == Slot(stack, idx).ptr
    {
      var v := Slot(stack, idx);
      p := if v.LightUserdata? then Some(v.ptr) else None;
    }

    /** lua_call: calls the function below the nargs arguments on top. On
        success the function and arguments are replaced by exactly nresults
        values. An error is raised past the caller (ok is false); the stack
        is then unwound by whoever catches it, so nothing is said of it. */
    method Call(nargs: nat, nresults: nat) returns (ok: bool)
      requires Valid() && nargs + 1 <= |stack|
      modifies this
      ensures var base := |old(stack)| - nargs - 1;
              var res := script(old(stack)[base], old(stack)[base + 1..], old(heap));
              && log == old(log) + [Called(old(stack)[base], old(stack)[base + 1..], old(heap))]
              && heap == res.heap
              && ok == res.Returned?
              && (ok ==> stack == old(stack)[..base] + Adjust(res.values, nresults))
      ensures Valid() && old(heap).Keys <= heap.Keys
    {
      var base := |stack| - nargs - 1;
      var res := script(stack[base], stack[base + 1..], heap);
      log := log + [Called(stack[base], stack[base + 1..], heap)];
      heap := res.heap;
      ok := res.Returned?;
      if ok {
        stack := stack[..base] + Adjust(res.values, nresults);
      }
    }

    /** lua_pcall with no message handler: as lua_call, but an error is
        caught: the function and arguments are replaced by exactly the one
        error object, and the status is not LUA_OK (ok is false). */
    method PCall(nargs: nat, nresults: nat) returns (ok: bool)
      requires Valid() && nargs + 1 <= |stack|
      modifies this
      ensures var base := |old(stack)| - nargs - 1;
              var res := script(old(stack)[base], old(stack)[base + 1..], old(heap));
              && log == old(log) + [Called(old(stack)[base], old(stack)[base + 1..], old(heap))]
              && heap == res.heap
              && ok == res.Returned?
              && stack == old(stack)[..base] + (if ok then Adjust(res.values, nresults) else [res.error])
      ensures Valid() && old(heap).Keys <= heap.Keys
    {
      var base := |stack| - nargs - 1;
      var res := script(stack[base], stack[base + 1..], heap);
      log := log + [Called(stack[base], stack[base + 1..], heap)];
      heap := res.heap;
      ok := res.Returned?;
      stack := stack[..base] + (if ok then Adjust(res.values, nresults) else [res.error]);
    }

    /** luaL_loadfile followed by lua_pcall(L, 0, nresults, 0). */
    method LoadAndRun(file: string, nresults: nat) returns (ok: bool)
      requires Valid()
      modifies this
      ensures var res := loader(file, old(heap));
              && log == old(log) + [Loaded(file, old(heap))]
              && heap == res.heap
              && ok == res.Returned?
              && stack == old(stack) + (if ok then Adjust(res.values, nresults) else [res.error])
      ensures Valid() && old(heap).Keys <= heap.Keys
    {
      var res := loader(file, heap);
      log := log + [Loaded(file, heap)];
      heap := res.heap;
      ok := res.Returned?;
      stack := stack + (if ok then Adjust(res.values, nresults) else [res.error]);
    }
  }
}
