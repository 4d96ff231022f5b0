# A model of the Python–Lua agent bridge

The bridge is a CPython extension module written in C++ (`src/main.cpp`). It
lets a Rocket League bot written in Lua run inside a Python framework. Each
`LuaAgent` object owns a Lua 5.3 state:

- **Creating an agent:** the state loads `classes.lua`, `structs.lua` and
  `bot.lua`. The bot table is given a pointer back to its host object and a
  C function `get_ball_prediction`. Then `bot_init(Bot, index + 1)` runs.
- **Each tick:** the host packet is copied, attribute by attribute, into
  nested Lua tables. The packet is wrapped by the Lua class `GameTickPacket`
  and handed to `Bot:get_output` in a protected call. The nine controls are
  read back from the returned table.
- **The forecast callback:** when the bot asks for the ball forecast, the
  host forecast is copied into Lua tables in the same way.

The project models that core in six modules:

- `LuaApi` (`lua.dfy`) is an abstract Lua state, class `Machine`. It holds
  a value stack, a heap of tables, and a ghost log of every call into Lua
  code. Each C API function the bridge uses is a method whose contract gives
  its effect on the stack and heap. Lua code the bridge only calls is a
  fixed oracle, `script` for functions and `loader` for files. Each call
  appends an event to the log.
- `Host` (`host.dfy`) is a read-only snapshot of host objects. It also has
  the coercions the bridge applies to them: `PyLong_AsLong`,
  `PyFloat_AsDouble`, `PyObject_IsTrue` and `PyUnicode_AsUTF8`.
- `Shape` (`shape.dfy`) says what it means for a heap table to hold a tree
  of values (`Denotes`, `Filling`). It also has the framing lemmas that keep
  finished tables intact while new ones are built.
- `Schema` (`schema.dfy`) is the hand-written schema: for each host entity,
  the tree of Lua values the bridge builds from it. There is one tree for
  the packet as intended, one for the packet as written, and one for the
  ball forecast.
- `Decode` (`decode.dfy`) holds the decoding routines as imperative methods
  on the machine. Each is proved to leave on the stack a fresh table that
  holds exactly its schema tree, without disturbing existing tables.
- `Agent` (`agent.dfy`) holds the rest:
  - `createLuaPacket`, `runAgent` and `getBallPrediction`;
  - `createAgent`;
  - `Agent_tp_init`, with its argument parsing.

## Model

| member | source | states |
|---|---|---|
| Host.AsLong | src/main.cpp:75 | `PyLong_AsLong` gives an in-range int itself and a bool as 0/1; anything else, overflow included, gives the error value -1; the result always fits a C long |
| Host.AsDouble | src/main.cpp:83 | `PyFloat_AsDouble` gives a float itself, an int through its conversion, and -1.0 for a non-number |
| Host.IsTrue | src/main.cpp:91 | `PyObject_IsTrue` of a bool is that bool, of an int is "not zero", and of None is false |
| Host.CString | src/main.cpp:99-101 | the string `lua_pushstring` copies is the longest NUL-free prefix of the UTF-8 text; it stops at the first NUL |
| Host.Utf8 | src/main.cpp:97-103 | a host string becomes a Lua string of its C-string prefix; any other value makes `PyUnicode_AsUTF8` fail, and the NULL is pushed as nil |
| LuaApi.Slot | src/main.cpp:78 | a negative stack index counts from the top, a positive one from the bottom |
| LuaApi.Adjust | src/main.cpp:184 | a call's results are truncated or padded with nil to exactly the requested count, keeping the leading values |
| LuaApi.Store | src/main.cpp:78 | a raw store binds exactly the one key and leaves every other key as it was; storing nil removes the key |
| LuaApi.ToNumber | src/main.cpp:506 | `lua_tonumber` gives a number itself, an integer as a float, and 0 for anything else |
| LuaApi.ToBoolean | src/main.cpp:521 | `lua_toboolean` is false exactly for nil and false |
| LuaApi.Machine.NewState | src/main.cpp:190-191 | a new state has an empty stack and a global table whose `_G` names itself |
| LuaApi.Machine.NewTable | src/main.cpp:233 | pushes a reference to a fresh, empty table; nothing else in the heap changes |
| LuaApi.Machine.Push | src/main.cpp:77 | pushes exactly one value and changes nothing else |
| LuaApi.Machine.PushValue | src/main.cpp:486 | pushes a copy of the indexed slot |
| LuaApi.Machine.GetField | src/main.cpp:231 | pushes `t[k]`, following `__index` tables |
| LuaApi.Machine.GetGlobal | src/main.cpp:229 | pushes the global `k` |
| LuaApi.Machine.SetField | src/main.cpp:78 | binds the top value as field `k` of the indexed table (index resolved before the pop), then pops it; no other table changes |
| LuaApi.Machine.RawSetI | src/main.cpp:303 | binds the top value at integer key `n` of the indexed table, then pops it |
| LuaApi.Machine.Insert | src/main.cpp:489 | moves the top value down to the indexed position, shifting the values above it up |
| LuaApi.Machine.SetTop | src/main.cpp:499 | the stack gets exactly the named size; lost slots are dropped and new slots are nil |
| LuaApi.Machine.Pop | src/main.cpp:535 | removes exactly `n` values from the top |
| LuaApi.Machine.ToNumberAt | src/main.cpp:506 | reads `lua_tonumber` of the indexed slot |
| LuaApi.Machine.ToBooleanAt | src/main.cpp:521 | the flag is false exactly when the slot holds nil or false |
| LuaApi.Machine.ToUserdata | src/main.cpp:137 | yields the pointer exactly when the slot holds a light userdata, and NULL otherwise |
| LuaApi.Machine.Call | src/main.cpp:184 | the function is called on exactly the arguments above it, which the log records; on success it and its arguments are replaced by exactly `nresults` values; an error propagates |
| LuaApi.Machine.PCall | src/main.cpp:496 | as `Call`, but an error is caught and replaces the function and arguments with the one error object |
| LuaApi.Machine.LoadAndRun | src/main.cpp:69 | the file is loaded and run in protected mode; its results, or its error object, are pushed |
| Shape.DenotesFrame | src/main.cpp:244-307 | a table tree stays intact when the heap only grows and changes tables outside the tree |
| Shape.Close | src/main.cpp:303 | a table being filled, once complete, denotes its tree over a footprint that contains it |
| Shape.BindLeaf | src/main.cpp:77-78 | binding a leaf value in the table being filled extends its fields by exactly that key |
| Shape.BindChild | src/main.cpp:112 | binding a finished child table extends the parent's fields by exactly that key, and the child tree stays intact |
| Shape.EntriesShape | src/main.cpp:244-307 | the map built by storing item `i` at key `i + 1` has exactly the keys 1..n, key `j` holding item `j - 1` |
| Schema.ListOfShape | src/main.cpp:318-337 | an indexed decoding loop builds a Lua sequence: exactly the keys 1..n (none when n <= 0), key `j` holding the table of host item `j - 1` |
| Schema.PacketLists | src/main.cpp:236-468 | in the corrected packet table, `num_teams` reports the host team count; each of `game_cars`, `game_boosts` and `teams` is a sequence exactly as long as its own count |
| Schema.PacketTeamsAsWritten | src/main.cpp:441-468 | as written, a packet with fewer teams than cars gets a wrong `num_teams`, and a `teams` entry beyond the last team; to avoid failing, the host must hold at least `num_cars` teams |
| Schema.SliceKeys | src/main.cpp:159-170 | a forecast slice table holds exactly location, velocity, angular_velocity, rotation and game_seconds |
| Schema.PredictionSlices | src/main.cpp:144-176 | the forecast table reports `num_slices` and holds a sequence of exactly that many slices, each with the five slice keys |
| Decode.GetInt | src/main.cpp:73-79 | the table on top gains the field `name`, holding the `PyLong_AsLong` value pushed as a float; the stack and every other table are unchanged |
| Decode.GetDouble | src/main.cpp:81-87 | the table on top gains the field `name`, holding the `PyFloat_AsDouble` value; the stack and every other table are unchanged |
| Decode.GetBool | src/main.cpp:89-95 | the table on top gains the field `name`, holding the `PyObject_IsTrue` flag; the stack and every other table are unchanged |
| Decode.GetString | src/main.cpp:97-103 | the table on top gains the field `name`, holding the text of the string; the stack and every other table are unchanged |
| Decode.SetChild | src/main.cpp:112 | a finished child table on top becomes the field `name` of the table below it, and is popped |
| Decode.PushVector | src/main.cpp:106-111 | pushes a fresh table holding exactly x, y and z as floats |
| Decode.GetVector | src/main.cpp:105-113 | the table on top gains the field `name`, holding the vector's table |
| Decode.PushRotation | src/main.cpp:116-121 | pushes a fresh table holding exactly pitch, yaw and roll |
| Decode.GetRotation | src/main.cpp:115-123 | the table on top gains the field `name`, holding the rotation's table |
| Decode.PhysicsUpToAll | src/main.cpp:256-268 | the four physics fields read in source order give exactly the physics tree |
| Decode.DecodePhysicsKey | src/main.cpp:259-267 | one more physics field is bound, in source order |
| Decode.PushPhysics | src/main.cpp:256-268 | pushes a fresh table holding exactly the physics tree: location, rotation, velocity, angular_velocity |
| Decode.DecodePhysics | src/main.cpp:256-270 | the table on top gains the field `physics`, holding the physics tree |
| Decode.FlagsUpToAll | src/main.cpp:273-283 | the flag loop binds exactly the six car flags, in source order |
| Decode.DecodeCarFlags | src/main.cpp:273-283 | the car table gains the six flags |
| Decode.PushHitbox | src/main.cpp:290-298 | pushes a fresh table holding exactly length, width and height |
| Decode.DecodeHitbox | src/main.cpp:290-299 | the car table gains the field `hitbox` |
| Decode.DecodeCar | src/main.cpp:252-301 | pushes a fresh table holding exactly the car's tree, fresh sub-tables included |
| Decode.DecodeBoost | src/main.cpp:325-330 | pushes a fresh table holding exactly the boost pad's tree |
| Decode.DecodeTeam | src/main.cpp:457-462 | pushes a fresh table holding exactly the team's tree |
| Decode.DecodeSlice | src/main.cpp:159-171 | pushes a fresh table holding exactly the slice's tree |
| Decode.DecodeItem | src/main.cpp:249-301 | pushes a fresh table holding exactly the tree of host item `i` |
| Decode.StoreItem | src/main.cpp:303 | the list on top gains key `i + 1`, holding item `i`'s table |
| Decode.DecodeEntries | src/main.cpp:244-305 | the loop pushes a fresh table whose fields are exactly the entries 1..n of the item trees |
| Decode.PushList | src/main.cpp:244-307 | pushes a fresh table that is the Lua sequence of the first `n` host items |
| Decode.PushTouch | src/main.cpp:360-370 | pushes a fresh table holding exactly the latest-touch tree |
| Decode.PushDropShot | src/main.cpp:375-380 | pushes a fresh table holding exactly the drop-shot tree |
| Decode.PushBox | src/main.cpp:390-397 | pushes a fresh table holding exactly length, width and height |
| Decode.PushSphere | src/main.cpp:400-405 | pushes a fresh table holding exactly the diameter |
| Decode.PushCylinder | src/main.cpp:408-414 | pushes a fresh table holding exactly diameter and height |
| Decode.PushCollision | src/main.cpp:385-416 | pushes a fresh table holding the shape type and all three shape tables |
| Decode.DecodeTouch | src/main.cpp:360-372 | the ball table gains the field `latest_touch` |
| Decode.DecodeDropShot | src/main.cpp:375-382 | the ball table gains the field `drop_shot_info` |
| Decode.DecodeCollision | src/main.cpp:385-417 | the ball table gains the field `collision_shape` |
| Decode.PushBall | src/main.cpp:340-419 | pushes a fresh table holding exactly the ball's tree |
| Decode.PushGameInfo | src/main.cpp:424-436 | pushes a fresh table holding exactly the game info tree |
| Decode.DecodeBall | src/main.cpp:340-421 | the packet table gains the field `game_ball` |
| Decode.DecodeGameInfo | src/main.cpp:424-438 | the packet table gains the field `game_info` |
| Decode.SetCount | src/main.cpp:236-241 | the table on top gains a count, pushed as a Lua integer |
| Decode.DecodeCars | src/main.cpp:236-307 | the packet table gains `num_cars`, and `game_cars` with that many car tables |
| Decode.DecodeBoosts | src/main.cpp:310-337 | the packet table gains `num_boost`, and `game_boosts` with that many boost tables |
| Decode.DecodeTeams | src/main.cpp:441-468 | the packet table gains the given team count, and `teams` with that many team tables |
| Decode.PushPacket | src/main.cpp:233-468 | pushes a fresh table holding exactly the corrected packet tree; the stack grows by one and no earlier table changes |
| Decode.PushPacketAsWritten | src/main.cpp:233-468 | the same, with the team count read from `num_cars` as on line 442 |
| Decode.PushPrediction | src/main.cpp:141-176 | pushes a fresh table holding exactly the forecast tree: `num_slices` and the sequence of slices |
| Agent.CallReplacing | src/main.cpp:473-477 | the class is called on exactly the packet table; its one result replaces the class, the table and the `_G` below them |
| Agent.CreateLuaPacket | src/main.cpp:226-479 | `GameTickPacket` is called once, on a fresh table that holds exactly the packet tree as line 442 builds it (`num_teams` and the length of `teams` both taken from `num_cars`); on success the stack grows by exactly its one result |
| Agent.BuildValue | src/main.cpp:533 | the 9-tuple holds five floats and four 0/1 ints; the host reads back every control it was built from |
| Agent.TickOf | src/main.cpp:496-533 | a tick fails exactly when `get_output` raised an error; a successful tick yields a 9-tuple |
| Agent.ReadNumber | src/main.cpp:505-507 | reads `lua_tonumber` of one controller field; the stack and heap are unchanged |
| Agent.ReadFlag | src/main.cpp:520-522 | reads `lua_toboolean` of one controller field; the stack and heap are unchanged |
| Agent.CallGetOutput | src/main.cpp:496-535 | `get_output(Bot, packet)` is called once; the tick is the controls of its result or its error; unless Lua panics, the stack is `[Bot]` again |
| Agent.PushMethod | src/main.cpp:486-489 | `[.., t]` becomes `[.., t, t.get_output, t]` |
| Agent.RunAgent | src/main.cpp:481-538 | the packet class is called on the packet table as line 442 builds it, then `Bot:get_output` on its result; the log records exactly these calls; unless Lua panics, the stack is `[Bot]` again, so ticks never grow it |
| Agent.GetBallPrediction | src/main.cpp:131-187 | the forecast of the agent named by `Bot.___agentptr` is copied into a fresh table; `BallPrediction(table)` is called; on success the stack grows by exactly its one result |
| Agent.RunFile | src/main.cpp:68-71 | the file runs once; its results are appended; failure is a panic |
| Agent.BindClasses | src/main.cpp:198-200 | `class`, `super` and `dump` of the globals table become the three results of `classes.lua`; no other table changes |
| Agent.LoadClasses | src/main.cpp:193-201 | `classes.lua` runs on the fresh state; on success its three results are bound and the stack is empty |
| Agent.PrepareBot | src/main.cpp:208-219 | the bot gains `___agentptr` and `get_ball_prediction`; the stack becomes `[Bot, Bot.bot_init, Bot, index + 1]` |
| Agent.LoadBot | src/main.cpp:204-207 | `structs.lua` and then `bot.lua` run in order; the stack is `[Bot]` |
| Agent.StartBot | src/main.cpp:208-221 | `bot_init(Bot, index + 1)` is called once, after the two fields are set; on success the stack is `[Bot]` |
| Agent.RunBot | src/main.cpp:204-221 | `structs.lua`, `bot.lua` and `bot_init` run in order; a bot that is not a table panics |
| Agent.CreateAgent | src/main.cpp:189-224 | a new state runs exactly the three files and `bot_init`, in source order, with `class`, `super` and `dump` bound first; the stack ends as `[Bot]` |
| Agent.IntArg | src/main.cpp:547 | the `i` conversion accepts exactly the ints (and bools) that fit a C int, and keeps their value |
| Agent.ParseInit | src/main.cpp:543-549 | a call parses exactly when it has at most two positional arguments, no keywords but `bot` and `index`, each of the two given exactly once (by position or by keyword), and an index that converts to a C int; the result is then that bot and that index |
| Agent.ParseInitAnyForm | src/main.cpp:545-547 | positional and keyword forms of the two arguments parse alike |
| Agent.LuaAgent.constructor | src/main.cpp:125-129 | a new object has neither a bot nor a state |
| Agent.LuaAgent.Init | src/main.cpp:540-554 | bad arguments return -1 and change nothing; otherwise the bot is stored, a new state is created for this object, and 0 is returned; unless that state panicked, its stack is `[Bot]`, `Bot.___agentptr` is this object's address, and the last of its four steps called `bot_init(Bot, index + 1)`, which returned |

## Left out

- The model assumes the host snapshot is well formed. Every attribute the
  bridge fetches exists, and every list holds at least its count of items
  (`IsPacket`, `IsPrediction`). A missing attribute makes the source pass
  NULL on to the next call, which the model does not follow.
- Every attribute the bridge reads with `getString` (a player's name, a
  touch's player name) must be a host string (`StringAt`). The source
  accepts any object: `PyUnicode_AsUTF8` then returns NULL with a Python
  error pending, `lua_pushstring` pushes nil for it, and the field stays
  unset. The model does not follow that path.
- Reference counting is not modelled. `Py_DECREF`, the reference leaked for
  `num_slices` (line 144), `num_cars` read after its `Py_DECREF` (lines 241
  and 442), and the UTF-8 buffer used after its string's `Py_DECREF`
  (lines 99-101) are all outside the model. In the model every host value
  stays alive.
- Host.AsLong: a pending Python exception after a coercion error is not
  modelled. Only the error value is.
- Host.Utf8: host strings are Dafny strings. UTF-8 encoding and surrogate
  errors are not modelled.
- Floating point is opaque. `Double` is either a non-integer token or the
  double nearest to an integer. Rounding, NaN and the exact ranges of
  `PyFloat_AsDouble` and `PyObject_IsTrue` on floats are not modelled.
- LuaApi.ToNumber: the coercion `lua_tonumber` applies to numeric strings
  is not modelled. Such a string reads as 0.
- LuaApi.Machine.GetField: `__index` is followed only through tables.
  `__index` functions and other metamethods are left out, and a cycle
  reads as nil.
- LuaApi.Machine.SetField: stores raw. A `__newindex` metamethod on a
  table the bridge writes to is not modelled.
- LuaApi.Machine.Call: an error raised outside a protected call is not
  modelled. The panic handler aborts the process, so the model only reports
  `ok` false and says nothing more about the state.
- `luaL_openlibs` is reduced to the global table naming itself as `_G`.
  The standard libraries are not modelled.
- Lua code (`classes.lua`, `structs.lua`, `bot.lua` and the functions they
  define) is an oracle: one function from arguments and heap to results
  and heap. The oracle may only add tables (`KeepsTables`).
- Agent.GetBallPrediction: the host call `get_ball_prediction_struct`
  (line 140) is the parameter `forecastOf`, and its failure is not
  modelled.
- Agent.RunAgent: the RuntimeError message is not modelled. The model
  keeps the error value itself (`Failed`). In the source `lua_tostring`
  turns a number into its text and yields NULL for an error object that is
  neither a string nor a number.
- Agent.TickOf: a controller result that is a string is treated as a Lua
  panic. In the source `lua_getfield` looks the fields up through the
  string library's metatable, finds nil for each, and the tick reads zeros
  and falses. Any other result that is not a table does raise outside a
  protected call and panics, as modelled.
- Agent.PrepareBot: `index + 1` is computed on a C int in the source. At
  `INT_MAX` that addition overflows; the model uses the exact integer.
- Agent.BuildValue: `Py_BuildValue` packing of C shorts (`h`) is modelled
  only for the values 0 and 1 the bridge passes.
- Agent.ClassOf: `_G` is required to be a table (`lua_getfield` on
  anything else would panic).
- Extension boilerplate is left out: type and module registration, the
  argument parsing of `Agent_GetOutput`, and `Agent_tp_clear` and
  `Agent_tp_dealloc`, which never close the Lua state. The `stackDump`
  diagnostic, which prints with `printf`, is also left out.
- `setup.py` (build configuration) and `src/lua_bot.py` (the host adapter)
  are not part of this model.

## Findings

| source | as written | input that shows it | evidently intended | confidence | as-written member | corrected member |
|---|---|---|---|---|---|---|
| src/main.cpp:442 | the team count is `PyLong_AsLong(num_cars)`, so `num_teams` is reported as the car count and the teams loop runs once per car | a 2v2 packet: `num_cars` = 4, `num_teams` = 2, two teams; the table reports 4 teams, and the loop reads `teams[2]` and `teams[3]` past the end | `PyLong_AsLong(num_teams)` | not executed | Schema.PacketTeamsAsWritten | Schema.PacketLists |

Agent.CreateLuaPacket and Agent.RunAgent follow line 442 as written
(Decode.PushPacketAsWritten): they build the table this row describes and
need a host packet with at least `num_cars` teams. Decode.PushPacket builds
the corrected table.
