/** The call protocol between the host and one Lua bot: building the packet
    object, one tick of runAgent, the forecast callback, and creating and
    initialising an agent. */
module Agent {
  import opened LuaApi
  import opened Shape
  import opened Host
  import opened Schema
  import opened Decode

  /** _G[name] as createLuaPacket reads it: lua_getglobal(L, "_G"), then
      lua_getfield on that table. */
  function ClassOf(h: Heap, globals: Ref, name: string): Val
    requires Get(h, globals, KStr("_G")).TableRef?
  {
    Get(h, Get(h, globals, KStr("_G")).ref, KStr(name))
  }

  /** lua_call(L, 1, 1), lua_insert(L, -2), lua_pop(L, 1) on a stack
      s + [x, f, a]: f(a) is called, and its one result replaces all three. */
  method CallReplacing(m: Machine, ghost s: seq<Val>) returns (ok: bool)
    requires m.Valid() && |m.stack| == |s| + 3 && m.stack[..|s|] == s
    modifies m
    ensures m.Valid()
    ensures var f, a := old(m.stack)[|s| + 1], old(m.stack)[|s| + 2];
            var res := m.script(f, [a], old(m.heap));
            && m.log == old(m.log) + [Called(f, [a], old(m.heap))]
            && m.heap == res.heap && ok == res.Returned?
            && (ok ==> m.stack == s + [Adjust(res.values, 1)[0]])
  {
    ghost var s1 := m.stack;
    assert s1[|s| + 2..] == [s1[|s| + 2]];
    ok := m.Call(1, 1);
    if ok {
      m.Insert(-2);
      m.Pop(1);
    }
  }

  /** createLuaPacket: pushes the GameTickPacket object made from the packet
      table. The _G pushed at entry is gone again, the constructor is called
      with exactly the one packet table, and the table holds the packet as
      the bridge reads it, team count from num_cars included, at that call.
      An error raised by the constructor propagates (ok is false). */
  method CreateLuaPacket(m: Machine, p: HostVal) returns (ok: bool, ghost packet: Ref, ghost h: Heap)
    requires m.Valid() && IsPacketAsWritten(p) && Get(m.heap, m.globals, KStr("_G")).TableRef?
    modifies m
    ensures m.Valid() && packet !in old(m.heap) && KeepsOld(old(m.heap), h)
    ensures Filling(h, packet, PacketAsWrittenTree(p).fields, old(m.heap).Keys)
    ensures var cls := ClassOf(old(m.heap), m.globals, "GameTickPacket");
            var res := m.script(cls, [TableRef(packet)], h);
            && m.log == old(m.log) + [Called(cls, [TableRef(packet)], h)]
            && m.heap == res.heap && ok == res.Returned?
            && (ok ==> m.stack == old(m.stack) + [Adjust(res.values, 1)[0]])
  {
    ghost var s := m.stack;
    m.GetGlobal("_G");
    m.GetField(-1, "GameTickPacket");
    packet := PushPacketAsWritten(m, p);
    h := m.heap;
    ok := CallReplacing(m, s);
  }

  // ---- one tick ----

  /** The controller state runAgent reads back, in Py_BuildValue order. */
  datatype Controls = Controls(
    steer: Double, throttle: Double, pitch: Double, yaw: Double, roll: Double,
    jump: bool, boost: bool, handbrake: bool, useItem: bool)

  /** What the nine lua_getfield / lua_to* / lua_pop rounds read from the
      controller table c. */
  function ControlsOf(h: Heap, c: Ref): Controls
  {
    Controls(
      ToNumber(Get(h, c, KStr("steer"))), ToNumber(Get(h, c, KStr("throttle"))),
      ToNumber(Get(h, c, KStr("pitch"))), ToNumber(Get(h, c, KStr("yaw"))),
      ToNumber(Get(h, c, KStr("roll"))),
      ToBoolean(Get(h, c, KStr("jump"))), ToBoolean(Get(h, c, KStr("boost"))),
      ToBoolean(Get(h, c, KStr("handbrake"))), ToBoolean(Get(h, c, KStr("use_item"))))
  }

  /** The "h" conversion of a C bool: a host int 0 or 1. */
  function Flag(b: bool): HostVal
  {
    HInt(if b then 1 else 0)
  }

  /** Py_BuildValue("dddddhhhh", ...): a 9-tuple of five floats and four
      0/1 ints; the host reads back every control it was built from. */
  function BuildValue(c: Controls): (t: HostVal)
    ensures t.HList? && |t.items| == 9
    ensures AsDouble(t.items[0]) == c.steer && AsDouble(t.items[1]) == c.throttle
    ensures AsDouble(t.items[2]) == c.pitch && AsDouble(t.items[3]) == c.yaw
    ensures AsDouble(t.items[4]) == c.roll
    ensures IsTrue(t.items[5]) == c.jump && IsTrue(t.items[6]) == c.boost
    ensures IsTrue(t.items[7]) == c.handbrake && IsTrue(t.items[8]) == c.useItem
    ensures forall i :: 5 <= i < 9 ==> t.items[i].HInt? && 0 <= t.items[i].i <= 1
  {
    HList([HFloat(c.steer), HFloat(c.throttle), HFloat(c.pitch), HFloat(c.yaw), HFloat(c.roll),
           Flag(c.jump), Flag(c.boost), Flag(c.handbrake), Flag(c.useItem)])
  }

  /** What runAgent hands back to the host. */
  datatype Tick =
      /** the controller tuple */
    | Output(value: HostVal)
      /** get_output raised error: a RuntimeError carrying lua_tostring of
          it is set, and NULL is returned */
    | Failed(error: Val)
      /** an error raised outside any protected call: Lua's panic handler
          aborts the process */
    | Panicked

  /** What runAgent makes of the outcome of get_output: the error object of
      a raised error, the controls of a returned table, and a panic for any
      other result, which lua_getfield cannot index. */
  function TickOf(res: CallResult): (r: Tick)
    ensures res.Raised? <==> r.Failed?
    ensures r.Output? ==> r.value.HList? && |r.value.items| == 9
  {
    if res.Raised? then Failed(res.error)
    else
      var c := Adjust(res.values, 1)[0];
      if c.TableRef? then Output(BuildValue(ControlsOf(res.heap, c.ref))) else Panicked
  }

  /** lua_getfield(L, -1, name), lua_tonumber(L, -1), lua_pop(L, 1). */
  method ReadNumber(m: Machine, name: string) returns (d: Double)
    requires |m.stack| >= 1 && m.stack[|m.stack| - 1].TableRef?
    modifies m
    ensures m.stack == old(m.stack) && m.heap == old(m.heap) && m.log == old(m.log)
    ensures d == ToNumber(Get(m.heap, m.stack[|m.stack| - 1].ref, KStr(name)))
  {
    m.GetField(-1, name);
    d := m.ToNumberAt(-1);
    m.Pop(1);
  }

  /** lua_getfield(L, -1, name), lua_toboolean(L, -1), lua_pop(L, 1). */
  method ReadFlag(m: Machine, name: string) returns (b: bool)
    requires |m.stack| >= 1 && m.stack[|m.stack| - 1].TableRef?
    modifies m
    ensures m.stack == old(m.stack) && m.heap == old(m.heap) && m.log == old(m.log)
    ensures b == ToBoolean(Get(m.heap, m.stack[|m.stack| - 1].ref, KStr(name)))
  {
    m.GetField(-1, name);
    b := m.ToBooleanAt(-1);
    m.Pop(1);
  }

  /** The protected call of runAgent and the reading of its result, on a
      stack [Bot, get_output, Bot, packet object]: on success the nine
      controls are read from the returned table, on failure the error
      object is reported, and either way the stack is [Bot] again. */
  method CallGetOutput(m: Machine, ghost bot: Val, ghost fn: Val, ghost obj: Val) returns (r: Tick)
    requires m.Valid() && |m.stack| == 4
    requires m.stack[0] == bot && m.stack[1] == fn && m.stack[2] == bot && m.stack[3] == obj
    modifies m
    ensures m.Valid()
    ensures var res := m.script(fn, [bot, obj], old(m.heap));
            && m.log == old(m.log) + [Called(fn, [bot, obj], old(m.heap))]
            && m.heap == res.heap && r == TickOf(res)
            && (r != Panicked ==> m.stack == [bot])
  {
    assert m.stack[2..] == [bot, obj];
    assert m.stack[..1] == [bot];
    var ok := m.PCall(2, 1);
    if !ok {
      r := Failed(m.stack[|m.stack| - 1]);
      m.SetTop(1);
      return;
    }
    if !m.stack[|m.stack| - 1].TableRef? {
      // lua_getfield on a value that is not a table
      r := Panicked;
      return;
    }
    var steer := ReadNumber(m, "steer");
    var throttle := ReadNumber(m, "throttle");
    var pitch := ReadNumber(m, "pitch");
    var yaw := ReadNumber(m, "yaw");
    var roll := ReadNumber(m, "roll");
    var jump := ReadFlag(m, "jump");
    var boost := ReadFlag(m, "boost");
    var handbrake := ReadFlag(m, "handbrake");
    var useItem := ReadFlag(m, "use_item");
    r := Output(BuildValue(Controls(steer, throttle, pitch, yaw, roll, jump, boost, handbrake, useItem)));
    m.Pop(1);
  }

  /** lua_pushvalue(L, -1), lua_getfield(L, -1, name), lua_insert(L, -2):
      on [.., t] pushes t.name below a second copy of t, ready for a call
      t:name(..). */
  method PushMethod(m: Machine, name: string)
    requires |m.stack| >= 1 && m.stack[|m.stack| - 1].TableRef?
    modifies m
    ensures var t := old(m.stack)[|old(m.stack)| - 1];
            m.stack == old(m.stack) + [Get(m.heap, t.ref, KStr(name)), t]
    ensures m.heap == old(m.heap) && m.log == old(m.log)
  {
    m.PushValue(-1);
    m.GetField(-1, name);
    m.Insert(-2);
  }

  /** runAgent on stack [Bot]: Bot:get_output(GameTickPacket(packet)) in a
      protected call, then the nine controls. Unless Lua panics, the stack
      is exactly [Bot] again, on success and on failure alike, so repeated
      ticks never grow it. */
  method RunAgent(m: Machine, p: HostVal)
    returns (r: Tick, ghost packet: Ref, ghost h1: Heap, ghost obj: Val, ghost h2: Heap)
    requires m.Valid() && |m.stack| == 1 && m.stack[0].TableRef?
    requires IsPacketAsWritten(p) && Get(m.heap, m.globals, KStr("_G")).TableRef?
    modifies m
    ensures m.Valid()
    ensures r != Panicked ==> m.stack == old(m.stack)
    ensures packet !in old(m.heap) && Filling(h1, packet, PacketAsWrittenTree(p).fields, old(m.heap).Keys)
    ensures var cls := ClassOf(old(m.heap), m.globals, "GameTickPacket");
            var first := m.script(cls, [TableRef(packet)], h1);
            first.Raised? ==> r == Panicked && m.log == old(m.log) + [Called(cls, [TableRef(packet)], h1)]
    ensures var bot := old(m.stack)[0];
            var cls := ClassOf(old(m.heap), m.globals, "GameTickPacket");
            var first := m.script(cls, [TableRef(packet)], h1);
            var fn := Get(old(m.heap), bot.ref, KStr("get_output"));
            var second := m.script(fn, [bot, obj], h2);
            first.Returned? ==>
              && obj == Adjust(first.values, 1)[0] && h2 == first.heap
              && m.log == old(m.log) + [Called(cls, [TableRef(packet)], h1)] + [Called(fn, [bot, obj], h2)]
              && m.heap == second.heap && r == TickOf(second)
  {
    obj, h2 := Nil, map[];
    ghost var bot := m.stack[0];
    ghost var fn := Get(m.heap, bot.ref, KStr("get_output"));
    ghost var cls := ClassOf(m.heap, m.globals, "GameTickPacket");
    PushMethod(m, "get_output");
    var ok;
    ok, packet, h1 := CreateLuaPacket(m, p);
    if !ok {
      r := Panicked;
      return;
    }
    obj, h2 := m.stack[3], m.heap;
    r := CallGetOutput(m, bot, fn, obj);
  }

  // ---- the forecast callback ----

  /** getBallPrediction, called from Lua with Bot on top: reads the agent
      pointer Bot.___agentptr, builds the forecast table of what the agent's
      host bot returns from get_ball_prediction_struct (forecastOf stands for
      that call), and leaves BallPrediction(table) on top of the stack,
      exactly one value more than it found. */
  method GetBallPrediction(m: Machine, forecastOf: nat -> HostVal) returns (ok: bool, ghost table: Ref, ghost h: Heap)
    requires m.Valid() && |m.stack| >= 1 && m.stack[|m.stack| - 1].TableRef?
    requires Get(m.heap, m.stack[|m.stack| - 1].ref, KStr("___agentptr")).LightUserdata?
    requires IsPrediction(forecastOf(Get(m.heap, m.stack[|m.stack| - 1].ref, KStr("___agentptr")).ptr))
    modifies m
    ensures m.Valid() && table !in old(m.heap) && KeepsOld(old(m.heap), h)
    ensures var agent := Get(old(m.heap), old(m.stack)[|old(m.stack)| - 1].ref, KStr("___agentptr")).ptr;
            Filling(h, table, PredictionTree(forecastOf(agent)).fields, old(m.heap).Keys)
    ensures var f := Get(h, m.globals, KStr("BallPrediction"));
            var res := m.script(f, [TableRef(table)], h);
            && m.log == old(m.log) + [Called(f, [TableRef(table)], h)]
            && m.heap == res.heap && ok == res.Returned?
            && (ok ==> m.stack == old(m.stack) + [Adjust(res.values, 1)[0]])
  {
    m.GetField(-1, "___agentptr");
    var agent := m.ToUserdata(-1);
    m.Pop(1);
    table := PushPrediction(m, forecastOf(agent.value));
    h := m.heap;
    m.GetGlobal("BallPrediction");
    m.Insert(-2);
    ok := m.Call(1, 1);
  }

  // ---- creating an agent ----

  /** The raw field k of table t, nil when there is none. */
  function RawGet(h: Heap, t: Ref, k: string): Val
  {
    if t in h && KStr(k) in h[t].fields then h[t].fields[KStr(k)] else Nil
  }

  /** run_file: loads and runs file in protected mode with ret results. On
      failure luaL_error raises outside any protected call, so the state
      panics (ok is false). */
  method RunFile(m: Machine, file: string, ret: nat) returns (ok: bool)
    requires m.Valid()
    modifies m
    ensures m.Valid()
    ensures var res := m.loader(file, old(m.heap));
            && m.log == old(m.log) + [Loaded(file, old(m.heap))]
            && m.heap == res.heap && ok == res.Returned?
            && (ok ==> m.stack == old(m.stack) + Adjust(res.values, ret))
  {
    ok := m.LoadAndRun(file, ret);
  }

  /** The heap of a fresh state after luaL_openlibs, as far as the bridge
      reads it: the global table naming itself _G. */
  function InitialHeap(globals: Ref): Heap
  {
    map[globals := LuaTable(map[KStr("_G") := TableRef(globals)], None)]
  }

  /** The globals table after the three lua_setfield(L, 1, ...) calls of
      createAgent bind the results of classes.lua: class, super, dump. */
  function BindClasses(h: Heap, g: Ref, r: seq<Val>): (h': Heap)
    requires g in h && |r| == 3
    ensures h'.Keys == h.Keys
    ensures forall t :: t in h && t != g ==> h'[t] == h[t]
    ensures RawGet(h', g, "class") == r[0] && RawGet(h', g, "super") == r[1] && RawGet(h', g, "dump") == r[2]
  {
    h[g := Store(Store(Store(h[g], KStr("dump"), r[2]), KStr("super"), r[1]), KStr("class"), r[0])]
  }

  /** The first lines of createAgent on a fresh state: _G pushed, classes.lua
      run for three results, which are bound in _G, and the stack emptied. */
  method LoadClasses(m: Machine) returns (ok: bool)
    requires m.Valid() && m.stack == [] && m.heap == InitialHeap(m.globals)
    modifies m
    ensures m.Valid()
    ensures var res := m.loader("classes.lua", old(m.heap));
            && m.log == old(m.log) + [Loaded("classes.lua", old(m.heap))]
            && ok == res.Returned?
            && (ok ==> m.stack == [] && m.heap == BindClasses(res.heap, m.globals, Adjust(res.values, 3)))
  {
    m.GetGlobal("_G");
    assert m.stack == [TableRef(m.globals)];
    ok := RunFile(m, "classes.lua", 3);
    if !ok {
      return;
    }
    ghost var r := m.stack[1..];
    ghost var h := m.heap;
    m.SetField(1, "dump");
    m.SetField(1, "super");
    m.SetField(1, "class");
    m.SetTop(0);
    assert m.heap == BindClasses(h, m.globals, r);
  }

  /** The lines of createAgent between bot.lua and lua_call: the bot gets
      ___agentptr and get_ball_prediction, and the stack is laid out as
      [Bot, Bot.bot_init, Bot, index + 1]. */
  method PrepareBot(m: Machine, agent: nat, index: int)
    requires m.Valid() && |m.stack| == 1 && m.stack[0].TableRef? && m.stack[0].ref in m.heap
    modifies m
    ensures m.Valid() && m.log == old(m.log)
    ensures var b := old(m.stack)[0].ref;
            m.heap == old(m.heap)[b := Store(Store(old(m.heap)[b], KStr("___agentptr"), LightUserdata(agent)),
                                             KStr("get_ball_prediction"), Function(CFunction("getBallPrediction")))]
    ensures |m.stack| == 4 && m.stack[0] == old(m.stack)[0] && m.stack[2] == old(m.stack)[0]
    ensures m.stack[1] == Get(m.heap, old(m.stack)[0].ref, KStr("bot_init"))
    ensures m.stack[3] == Number(FromInteger(index + 1))
  {
    m.Push(LightUserdata(agent));
    m.SetField(-2, "___agentptr");
    m.PushValue(-1);
    m.Push(Function(CFunction("getBallPrediction")));
    m.SetField(-2, "get_ball_prediction");
    m.GetField(-1, "bot_init");
    m.Insert(-2);
    m.Push(Number(FromInteger(index + 1)));
  }

  /** structs.lua run for no result, then bot.lua for the one result that
      is the bot. */
  method LoadBot(m: Machine) returns (ok: bool)
    requires m.Valid() && m.stack == []
    modifies m
    ensures m.Valid()
    ensures var structs := m.loader("structs.lua", old(m.heap));
            var bots := m.loader("bot.lua", structs.heap);
            && ok == (structs.Returned? && bots.Returned?)
            && (ok ==> && m.log == old(m.log) + [Loaded("structs.lua", old(m.heap)), Loaded("bot.lua", structs.heap)]
                       && m.heap == bots.heap && m.stack == [Adjust(bots.values, 1)[0]])
  {
    ok := RunFile(m, "structs.lua", 0);
    if !ok {
      return;
    }
    ok := RunFile(m, "bot.lua", 1);
  }

  /** The end of createAgent: the bot on the stack is given ___agentptr and
      get_ball_prediction, and bot_init(Bot, index + 1) is called with
      lua_call, leaving [Bot]. h is the heap the call starts from. */
  method StartBot(m: Machine, agent: nat, index: int) returns (ok: bool, ghost h: Heap)
    requires m.Valid() && |m.stack| == 1 && m.stack[0].TableRef? && m.stack[0].ref in m.heap
    modifies m
    ensures m.Valid()
    ensures var b := old(m.stack)[0];
            && RawGet(h, b.ref, "___agentptr") == LightUserdata(agent)
            && RawGet(h, b.ref, "get_ball_prediction") == Function(CFunction("getBallPrediction"))
            && h.Keys == old(m.heap).Keys
    ensures var b := old(m.stack)[0];
            var init := Get(h, b.ref, KStr("bot_init"));
            var args := [b, Number(FromInteger(index + 1))];
            && m.log == old(m.log) + [Called(init, args, h)]
            && ok == m.script(init, args, h).Returned?
            && m.heap == m.script(init, args, h).heap
            && (ok ==> m.stack == [b])
  {
    ghost var b := m.stack[0];
    PrepareBot(m, agent, index);
    h := m.heap;
    assert m.stack[2..] == [b, Number(FromInteger(index + 1))];
    ok := m.Call(2, 0);
    assert ok ==> m.stack == [b];
  }

  /** The rest of createAgent once the classes are bound: structs.lua and
      bot.lua run, then the bot they return is started. Starting a value
      that is not a table fails in lua_setfield, which panics. */
  method RunBot(m: Machine, agent: nat, index: int) returns (ok: bool, ghost bot: Val, ghost h3: Heap)
    requires m.Valid() && m.stack == []
    modifies m
    ensures m.Valid()
    ensures ok ==>
              var structs := m.loader("structs.lua", old(m.heap));
              var bots := m.loader("bot.lua", structs.heap);
              && structs.Returned? && bots.Returned?
              && bot == Adjust(bots.values, 1)[0] && bot.TableRef?
              && RawGet(h3, bot.ref, "___agentptr") == LightUserdata(agent)
              && RawGet(h3, bot.ref, "get_ball_prediction") == Function(CFunction("getBallPrediction"))
    ensures ok ==>
              var structs := m.loader("structs.lua", old(m.heap));
              var init := Get(h3, bot.ref, KStr("bot_init"));
              var args := [bot, Number(FromInteger(index + 1))];
              && m.log == old(m.log) + [Loaded("structs.lua", old(m.heap)), Loaded("bot.lua", structs.heap),
                                        Called(init, args, h3)]
              && m.script(init, args, h3).Returned?
              && m.heap == m.script(init, args, h3).heap
              && m.stack == [bot]
  {
    bot, h3 := Nil, map[];
    ok := LoadBot(m);
    if !ok {
      return;
    }
    var top := m.stack[0];
    bot := top;
    if !(top.TableRef? && top.ref in m.heap) {
      // lua_setfield on a value that is not a table
      ok := false;
      return;
    }
    ok, h3 := StartBot(m, agent, index);
  }

  /** The fourth thing the state m did was to call bot_init(bot, index + 1)
      from heap h, and that call returned. */
  ghost predicate InitCalled(m: Machine, bot: Val, index: int, h: Heap)
    reads m
  {
    && bot.TableRef? && |m.log| == 4
    && var init := Get(h, bot.ref, KStr("bot_init"));
       var args := [bot, Number(FromInteger(index + 1))];
       m.log[3] == Called(init, args, h) && m.script(init, args, h).Returned?
  }

  /** createAgent: a new Lua state with the three results of classes.lua
      bound as class, super and dump, structs.lua run, and the bot that
      bot.lua returns given ___agentptr and get_ball_prediction before
      bot_init(Bot, index + 1) is called; the stack ends as [Bot]. ok is
      false when the state panics on the way. */
  method CreateAgent(script: Script, loader: Loader, agent: nat, index: int)
    returns (m: Machine, ok: bool, ghost h1: Heap, ghost bot: Val, ghost h3: Heap)
    requires KeepsTables(script, loader)
    ensures fresh(m) && m.Valid() && m.script == script && m.loader == loader
    ensures ok ==>
              var classes := loader("classes.lua", InitialHeap(m.globals));
              var structs := loader("structs.lua", h1);
              var bots := loader("bot.lua", structs.heap);
              && classes.Returned?
              && h1 == BindClasses(classes.heap, m.globals, Adjust(classes.values, 3))
              && structs.Returned? && bots.Returned?
              && bot == Adjust(bots.values, 1)[0] && bot.TableRef?
              && RawGet(h3, bot.ref, "___agentptr") == LightUserdata(agent)
              && RawGet(h3, bot.ref, "get_ball_prediction") == Function(CFunction("getBallPrediction"))
              && |m.log| == 4
              && m.log[0] == Loaded("classes.lua", InitialHeap(m.globals))
              && m.log[1] == Loaded("structs.lua", h1)
              && m.log[2] == Loaded("bot.lua", structs.heap)
    ensures ok ==> InitCalled(m, bot, index, h3)
    ensures ok ==>
              var init := Get(h3, bot.ref, KStr("bot_init"));
              var args := [bot, Number(FromInteger(index + 1))];
              && m.heap == script(init, args, h3).heap
              && m.stack == [bot]
  {
    h1, bot, h3 := map[], Nil, map[];
    m := new Machine.NewState(script, loader);
    ok := LoadClasses(m);
    if !ok {
      return;
    }
    h1 := m.heap;
    ok, bot, h3 := RunBot(m, agent, index);
  }

  // ---- Agent_tp_init ----

  /** The range of a C int. */
  const IntMin: int := -0x8000_0000
  const IntMax: int := 0x7fff_ffff

  /** The "i" conversion of PyArg_ParseTupleAndKeywords: an int (a bool
      counts as 0 or 1) that fits a C int, and an error otherwise. */
  function IntArg(v: HostVal): (r: Option<int>)
    ensures r.Some? ==> IntMin <= r.value <= IntMax
    ensures v.HInt? ==> (r.Some? <==> IntMin <= v.i <= IntMax)
    ensures v.HInt? && r.Some? ==> r.value == v.i
    ensures !v.HInt? && !v.HBool? ==> r.None?
  {
    match v
    case HInt(i) => if IntMin <= i <= IntMax then Some(i) else None
    case HBool(b) => Some(if b then 1 else 0)
    case _ => None
  }

  /** The argument for parameter number pos named name: positional if there
      are more than pos positional arguments, else by keyword. */
  function ArgAt(args: seq<HostVal>, kwargs: map<string, HostVal>, pos: nat, name: string): Option<HostVal>
  {
    if pos < |args| then Some(args[pos]) else if name in kwargs then Some(kwargs[name]) else None
  }

  /** Parameter number pos, named name, is given exactly once: either
      positionally or by keyword, not both. */
  predicate GivenOnce(args: seq<HostVal>, kwargs: map<string, HostVal>, pos: nat, name: string)
  {
    (pos < |args|) != (name in kwargs)
  }

  /** PyArg_ParseTupleAndKeywords(args, kwargs, "Oi:__init__", {"bot",
      "index"}): both parameters given exactly once, positionally or by
      keyword, no other argument, and an index that fits a C int. */
  function ParseInit(args: seq<HostVal>, kwargs: map<string, HostVal>): (r: Option<(HostVal, int)>)
    ensures |args| > 2 ==> r.None?
    ensures !(kwargs.Keys <= {"bot", "index"}) ==> r.None?
    ensures r.Some? <==>
              && |args| <= 2 && kwargs.Keys <= {"bot", "index"}
              && GivenOnce(args, kwargs, 0, "bot") && GivenOnce(args, kwargs, 1, "index")
              && IntArg(if 1 < |args| then args[1] else kwargs["index"]).Some?
    ensures r.Some? ==>
              && r.value.0 == (if 0 < |args| then args[0] else kwargs["bot"])
              && Some(r.value.1) == IntArg(if 1 < |args| then args[1] else kwargs["index"])
    ensures r.Some? ==> |args| + |kwargs| == 2
    ensures r.Some? ==> IntMin <= r.value.1 <= IntMax
  {
    if |args| > 2 || !(kwargs.Keys <= {"bot", "index"}) then None
    else if (|args| >= 1 && "bot" in kwargs) || (|args| >= 2 && "index" in kwargs) then None
    else
      var bot, index := ArgAt(args, kwargs, 0, "bot"), ArgAt(args, kwargs, 1, "index");
      if bot.None? || index.None? then None
      else match IntArg(index.value)
        case None => None
        case Some(i) =>
          assert kwargs.Keys == (if |args| == 0 then {"bot", "index"} else if |args| == 1 then {"index"} else {});
          Some((bot.value, i))
  }

  /** The two arguments parse the same whether passed by position or by
      keyword, in any mix. */
  lemma {:induction false} ParseInitAnyForm(b: HostVal, v: HostVal)
    ensures ParseInit([b, v], map[]) == ParseInit([b], map["index" := v])
    ensures ParseInit([b], map["index" := v]) == ParseInit([], map["bot" := b, "index" := v])
    ensures ParseInit([b, v], map[]) == if IntArg(v).Some? then Some((b, IntArg(v).value)) else None
  {
    assert map["index" := v].Keys == {"index"};
    assert map["bot" := b, "index" := v].Keys == {"bot", "index"};
  }

  /** The host object behind a LuaAgent: its bot and its Lua state, both
      NULL until tp_init runs. address is where the struct lives, which
      createAgent stores as the bot's ___agentptr. */
  class LuaAgent {
    var bot: Option<HostVal>
    var L: Machine?
    const address: nat

    /** tp_alloc: zero-filled fields. */
    constructor (address: nat)
      ensures this.address == address && bot.None? && L == null
    {
      this.address := address;
      bot := None;
      L := null;
    }

    /** Agent_tp_init: -1 when the arguments do not parse; otherwise the
        bot is stored, a new agent state is created for it with this
        struct's address, and 0 is returned. aborted is true when the new
        state panicked, which ends the process. Otherwise the state's only
        value is the Lua bot luaBot, whose ___agentptr is this struct and
        whose bot_init was called, from heap h, with the parsed index + 1
        after the three files ran. */
    method Init(args: seq<HostVal>, kwargs: map<string, HostVal>, script: Script, loader: Loader)
      returns (status: int, aborted: bool, ghost luaBot: Val, ghost h: Heap)
      requires KeepsTables(script, loader)
      modifies this
      ensures ParseInit(args, kwargs).None? ==> status == -1 && !aborted && bot == old(bot) && L == old(L)
      ensures ParseInit(args, kwargs).Some? ==>
                && status == 0 && bot == Some(ParseInit(args, kwargs).value.0)
                && L != null && fresh(L) && L.Valid() && L.script == script && L.loader == loader
      ensures ParseInit(args, kwargs).Some? && !aborted ==>
                && L != null && L.stack == [luaBot] && luaBot.TableRef?
                && RawGet(h, luaBot.ref, "___agentptr") == LightUserdata(address)
                && RawGet(h, luaBot.ref, "get_ball_prediction") == Function(CFunction("getBallPrediction"))
                && |L.log| == 4
                && L.log[0] == Loaded("classes.lua", InitialHeap(L.globals))
                && L.log[1].Loaded? && L.log[1].file == "structs.lua"
                && L.log[2].Loaded? && L.log[2].file == "bot.lua"
      ensures ParseInit(args, kwargs).Some? && !aborted ==>
                L != null && InitCalled(L, luaBot, ParseInit(args, kwargs).value.1, h)
    {
      luaBot, h := Nil, map[];
      var parsed := ParseInit(args, kwargs);
      if parsed.None? {
        return -1, false, luaBot, h;
      }
      bot := Some(parsed.value.0);
      var m, ok, h1, b, h3 := CreateAgent(script, loader, address, parsed.value.1);
      L := m;
      return 0, !ok, b, h3;
    }
  }
}
