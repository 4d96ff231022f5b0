/** The decode primitives and the structural decoder: each routine works on
    the Lua stack step by step, exactly as the bridge does, and is proved
    to build the table its schema tree describes. */
module Decode {
  import opened LuaApi
  import opened Shape
  import opened Host
  import opened Schema

  /** The table on top of the stack, 0 when the top is not a table. */
  function TopRef(s: seq<Val>): Ref
  {
    if |s| >= 1 && s[|s| - 1].TableRef? then s[|s| - 1].ref else 0
  }

  /** A table is on top of the stack; it holds exactly fields, whose
      subtables were all allocated after base. */
  ghost predicate FillingTop(m: Machine, fields: map<Key, LuaTree>, base: set<Ref>)
    reads m
  {
    && m.Valid() && |m.stack| >= 1 && m.stack[|m.stack| - 1].TableRef?
    && base <= m.heap.Keys
    && Filling(m.heap, TopRef(m.stack), fields, base)
  }

  /** getInt: binds field name of the table on top to the host integer, as
      a Lua float; nothing else changes. */
  method GetInt(m: Machine, obj: HostVal, name: string, ghost fields: map<Key, LuaTree>, ghost base: set<Ref>)
    requires FillingTop(m, fields, base) && HasAttr(obj, name)
    modifies m
    ensures FillingTop(m, fields[KStr(name) := IntLeaf(obj, name)], base)
    ensures m.stack == old(m.stack) && m.log == old(m.log)
    ensures OnlyTouches(old(m.heap), m.heap, TopRef(old(m.stack)))
  {
    var x := AsLong(Attr(obj, name));
    m.Push(Number(FromInteger(x)));
    m.SetField(-2, name);
    BindLeaf(old(m.heap), m.heap, TopRef(old(m.stack)), fields, base, KStr(name), Number(FromInteger(x)));
  }

  /** getDouble: binds field name to the host float. */
  method GetDouble(m: Machine, obj: HostVal, name: string, ghost fields: map<Key, LuaTree>, ghost base: set<Ref>)
    requires FillingTop(m, fields, base) && HasAttr(obj, name)
    modifies m
    ensures FillingTop(m, fields[KStr(name) := DoubleLeaf(obj, name)], base)
    ensures m.stack == old(m.stack) && m.log == old(m.log)
    ensures OnlyTouches(old(m.heap), m.heap, TopRef(old(m.stack)))
  {
    var x := AsDouble(Attr(obj, name));
    m.Push(Number(x));
    m.SetField(-2, name);
    BindLeaf(old(m.heap), m.heap, TopRef(old(m.stack)), fields, base, KStr(name), Number(x));
  }

  /** getBool: binds field name to the host value's truth. */
  method GetBool(m: Machine, obj: HostVal, name: string, ghost fields: map<Key, LuaTree>, ghost base: set<Ref>)
    requires FillingTop(m, fields, base) && HasAttr(obj, name)
    modifies m
    ensures FillingTop(m, fields[KStr(name) := BoolLeaf(obj, name)], base)
    ensures m.stack == old(m.stack) && m.log == old(m.log)
    ensures OnlyTouches(old(m.heap), m.heap, TopRef(old(m.stack)))
  {
    var x := IsTrue(Attr(obj, name));
    m.Push(Boolean(x));
    m.SetField(-2, name);
    BindLeaf(old(m.heap), m.heap, TopRef(old(m.stack)), fields, base, KStr(name), Boolean(x));
  }

  /** getString: binds field name to the host string, cut at its first NUL. */
  method GetString(m: Machine, obj: HostVal, name: string, ghost fields: map<Key, LuaTree>, ghost base: set<Ref>)
    requires FillingTop(m, fields, base) && StringAt(obj, name)
    modifies m
    ensures FillingTop(m, fields[KStr(name) := StringLeaf(obj, name)], base)
    ensures m.stack == old(m.stack) && m.log == old(m.log)
    ensures OnlyTouches(old(m.heap), m.heap, TopRef(old(m.stack)))
  {
    var x := Utf8(Attr(obj, name));
    m.Push(x);
    m.SetField(-2, name);
    BindLeaf(old(m.heap), m.heap, TopRef(old(m.stack)), fields, base, KStr(name), x);
  }

  /** lua_setfield(L, -2, name) once a child table c, built after h0, is on
      top: pops c and binds it under name in the table below, which held
      fields at h0. */
  method SetChild(m: Machine, name: string, ghost fields: map<Key, LuaTree>, ghost base: set<Ref>,
                  ghost h0: Heap, ghost c: Ref, ghost child: map<Key, LuaTree>)
    requires m.Valid() && |m.stack| >= 2 && m.stack[|m.stack| - 1] == TableRef(c)
    requires m.stack[|m.stack| - 2].TableRef?
    requires Filling(h0, m.stack[|m.stack| - 2].ref, fields, base) && base <= h0.Keys && c !in h0
    requires KeepsOld(h0, m.heap) && Filling(m.heap, c, child, h0.Keys)
    modifies m
    ensures FillingTop(m, fields[KStr(name) := Node(child)], base)
    ensures m.stack == old(m.stack)[..|old(m.stack)| - 1] && m.log == old(m.log)
    ensures OnlyTouches(h0, m.heap, old(m.stack)[|old(m.stack)| - 2].ref)
  {
    ghost var h1 := m.heap;
    m.SetField(-2, name);
    BindChild(h0, h1, m.heap, old(m.stack)[|old(m.stack)| - 2].ref, fields, base, c, child, KStr(name));
  }

  /** The body of getVector before lua_setfield: a new table {x, y, z}
      copied from the host vector v. */
  method PushVector(m: Machine, v: HostVal) returns (ghost c: Ref)
    requires m.Valid() && IsVector(v)
    modifies m
    ensures m.Valid() && c !in old(m.heap)
    ensures m.stack == old(m.stack) + [TableRef(c)] && m.log == old(m.log)
    ensures KeepsOld(old(m.heap), m.heap)
    ensures Filling(m.heap, c, VectorTree(v).fields, old(m.heap).Keys)
  {
    ghost var h0 := m.heap;
    c := m.NewTable();
    ghost var f: map<Key, LuaTree> := map[];
    GetDouble(m, v, "x", f, h0.Keys);
    f := f[KStr("x") := DoubleLeaf(v, "x")];
    GetDouble(m, v, "y", f, h0.Keys);
    f := f[KStr("y") := DoubleLeaf(v, "y")];
    GetDouble(m, v, "z", f, h0.Keys);
  }

  /** getVector: binds field name to a new table {x, y, z} copied from the
      host object's attribute name. */
  method GetVector(m: Machine, obj: HostVal, name: string, ghost fields: map<Key, LuaTree>, ghost base: set<Ref>)
    returns (ghost g: map<Key, LuaTree>)
    requires FillingTop(m, fields, base) && VectorAt(obj, name)
    modifies m
    ensures g == fields[KStr(name) := VectorTree(Attr(obj, name))]
    ensures FillingTop(m, g, base)
    ensures m.stack == old(m.stack) && m.log == old(m.log)
    ensures OnlyTouches(old(m.heap), m.heap, TopRef(old(m.stack)))
  {
    ghost var h0 := m.heap;
    ghost var c := PushVector(m, Attr(obj, name));
    SetChild(m, name, fields, base, h0, c, VectorTree(Attr(obj, name)).fields);
    g := fields[KStr(name) := VectorTree(Attr(obj, name))];
  }

  /** The body of getRotation before lua_setfield. */
  method PushRotation(m: Machine, v: HostVal) returns (ghost c: Ref)
    requires m.Valid() && IsRotation(v)
    modifies m
    ensures m.Valid() && c !in old(m.heap)
    ensures m.stack == old(m.stack) + [TableRef(c)] && m.log == old(m.log)
    ensures KeepsOld(old(m.heap), m.heap)
    ensures Filling(m.heap, c, RotationTree(v).fields, old(m.heap).Keys)
  {
    ghost var h0 := m.heap;
    c := m.NewTable();
    ghost var f: map<Key, LuaTree> := map[];
    GetDouble(m, v, "pitch", f, h0.Keys);
    f := f[KStr("pitch") := DoubleLeaf(v, "pitch")];
    GetDouble(m, v, "yaw", f, h0.Keys);
    f := f[KStr("yaw") := DoubleLeaf(v, "yaw")];
    GetDouble(m, v, "roll", f, h0.Keys);
  }

  /** getRotation: as getVector, with the fields pitch, yaw and roll. */
  method GetRotation(m: Machine, obj: HostVal, name: string, ghost fields: map<Key, LuaTree>, ghost base: set<Ref>)
    returns (ghost g: map<Key, LuaTree>)
    requires FillingTop(m, fields, base) && RotationAt(obj, name)
    modifies m
    ensures g == fields[KStr(name) := RotationTree(Attr(obj, name))]
    ensures FillingTop(m, g, base)
    ensures m.stack == old(m.stack) && m.log == old(m.log)
    ensures OnlyTouches(old(m.heap), m.heap, TopRef(old(m.stack)))
  {
    ghost var h0 := m.heap;
    ghost var c := PushRotation(m, Attr(obj, name));
    SetChild(m, name, fields, base, h0, c, RotationTree(Attr(obj, name)).fields);
    g := fields[KStr(name) := RotationTree(Attr(obj, name))];
  }

  // ---- physics blocks ----

  /** The keys the physics loop walks, in source order. */
  const PhysicsKeys: seq<string> := ["location", "velocity", "angular_velocity", "rotation"]

  function PhysicsEntry(p: HostVal, key: string): LuaTree
    requires IsPhysics(p) && key in PhysicsKeys
  {
    if key == "rotation" then RotationTree(Attr(p, key)) else VectorTree(Attr(p, key))
  }

  /** The physics fields bound after the first i loop rounds. */
  function PhysicsUpTo(p: HostVal, i: nat): map<Key, LuaTree>
    requires IsPhysics(p) && i <= |PhysicsKeys|
  {
    if i == 0 then map[]
    else PhysicsUpTo(p, i - 1)[KStr(PhysicsKeys[i - 1]) := PhysicsEntry(p, PhysicsKeys[i - 1])]
  }

  lemma PhysicsUpToAll(p: HostVal)
    requires IsPhysics(p)
    ensures PhysicsUpTo(p, |PhysicsKeys|) == PhysicsTree(p).fields
  {
    assert PhysicsKeys[0] == "location" && PhysicsKeys[1] == "velocity";
    assert PhysicsKeys[2] == "angular_velocity" && PhysicsKeys[3] == "rotation";
    var loc := KStr("location");
    assert PhysicsUpTo(p, 1) == map[loc := VectorTree(Attr(p, "location"))];
    assert PhysicsUpTo(p, 2) == PhysicsUpTo(p, 1)[KStr("velocity") := VectorTree(Attr(p, "velocity"))];
    assert PhysicsUpTo(p, 3)
        == PhysicsUpTo(p, 2)[KStr("angular_velocity") := VectorTree(Attr(p, "angular_velocity"))];
    assert PhysicsUpTo(p, 4) == PhysicsUpTo(p, 3)[KStr("rotation") := RotationTree(Attr(p, "rotation"))];
  }

  /** One round of the physics loop: getRotation for "rotation", getVector
      for the other keys. */
  method DecodePhysicsKey(m: Machine, physics: HostVal, k: nat, ghost base: set<Ref>)
    requires IsPhysics(physics) && k < |PhysicsKeys|
    requires FillingTop(m, PhysicsUpTo(physics, k), base)
    modifies m
    ensures FillingTop(m, PhysicsUpTo(physics, k + 1), base)
    ensures m.stack == old(m.stack) && m.log == old(m.log)
    ensures OnlyTouches(old(m.heap), m.heap, TopRef(old(m.stack)))
  {
    var key := PhysicsKeys[k];
    assert k == 0 || k == 1 || k == 2 || k == 3;
    if key == "rotation" {
      ghost var g := GetRotation(m, physics, key, PhysicsUpTo(physics, k), base);
    } else {
      ghost var g := GetVector(m, physics, key, PhysicsUpTo(physics, k), base);
    }
  }

  /** The physics loop before lua_setfield: a new table holding the three
      vectors and the rotation of host physics block physics. */
  method PushPhysics(m: Machine, physics: HostVal) returns (ghost c: Ref)
    requires m.Valid() && IsPhysics(physics)
    modifies m
    ensures m.Valid() && c !in old(m.heap)
    ensures m.stack == old(m.stack) + [TableRef(c)] && m.log == old(m.log)
    ensures KeepsOld(old(m.heap), m.heap)
    ensures Filling(m.heap, c, PhysicsTree(physics).fields, old(m.heap).Keys)
  {
    ghost var h0 := m.heap;
    c := m.NewTable();
    var k := 0;
    while k < |PhysicsKeys|
      invariant 0 <= k <= |PhysicsKeys|
      invariant m.stack == old(m.stack) + [TableRef(c)] && m.log == old(m.log)
      invariant KeepsOld(h0, m.heap)
      invariant FillingTop(m, PhysicsUpTo(physics, k), h0.Keys)
    {
      DecodePhysicsKey(m, physics, k, h0.Keys);
      k := k + 1;
    }
    PhysicsUpToAll(physics);
  }

  /** The physics block of a car or of the ball: a new table bound under
      "physics", holding the three vectors and the rotation. */
  method DecodePhysics(m: Machine, obj: HostVal, ghost fields: map<Key, LuaTree>, ghost base: set<Ref>)
    returns (ghost g: map<Key, LuaTree>)
    requires FillingTop(m, fields, base) && HasAttr(obj, "physics") && IsPhysics(Attr(obj, "physics"))
    modifies m
    ensures g == fields[KStr("physics") := Tree(Physics, Attr(obj, "physics"))]
    ensures FillingTop(m, g, base)
    ensures m.stack == old(m.stack) && m.log == old(m.log)
    ensures OnlyTouches(old(m.heap), m.heap, TopRef(old(m.stack)))
  {
    ghost var h0 := m.heap;
    ghost var c := PushPhysics(m, Attr(obj, "physics"));
    SetChild(m, "physics", fields, base, h0, c, PhysicsTree(Attr(obj, "physics")).fields);
    g := fields[KStr("physics") := Tree(Physics, Attr(obj, "physics"))];
  }

  // ---- cars ----

  /** The boolean car attributes the flag loop walks, in source order. */
  const CarFlagKeys: seq<string> :=
    ["is_demolished", "has_wheel_contact", "is_super_sonic", "is_bot", "jumped", "double_jumped"]

  lemma CarFlagsReadable(c: HostVal)
    requires IsCar(c)
    ensures forall j :: 0 <= j < |CarFlagKeys| ==> HasAttr(c, CarFlagKeys[j])
  {
    forall j | 0 <= j < |CarFlagKeys|
      ensures HasAttr(c, CarFlagKeys[j])
    {
      assert j == 0 || j == 1 || j == 2 || j == 3 || j == 4 || j == 5;
    }
  }

  /** f0 with the first i flags of the car bound. */
  function FlagsUpTo(f0: map<Key, LuaTree>, c: HostVal, i: nat): map<Key, LuaTree>
    requires i <= |CarFlagKeys| && forall j :: 0 <= j < |CarFlagKeys| ==> HasAttr(c, CarFlagKeys[j])
  {
    if i == 0 then f0
    else FlagsUpTo(f0, c, i - 1)[KStr(CarFlagKeys[i - 1]) := BoolLeaf(c, CarFlagKeys[i - 1])]
  }

  lemma FlagsUpToAll(f0: map<Key, LuaTree>, c: HostVal)
    requires IsCar(c)
    ensures CarFlagKeys[0] == "is_demolished"
    ensures forall j :: 0 <= j < |CarFlagKeys| ==> HasAttr(c, CarFlagKeys[j])
    ensures FlagsUpTo(f0, c, |CarFlagKeys|) ==
      f0[KStr("is_demolished") := BoolLeaf(c, "is_demolished")]
        [KStr("has_wheel_contact") := BoolLeaf(c, "has_wheel_contact")]
        [KStr("is_super_sonic") := BoolLeaf(c, "is_super_sonic")]
        [KStr("is_bot") := BoolLeaf(c, "is_bot")]
        [KStr("jumped") := BoolLeaf(c, "jumped")]
        [KStr("double_jumped") := BoolLeaf(c, "double_jumped")]
  {
    CarFlagsReadable(c);
    assert FlagsUpTo(f0, c, 1) == f0[KStr("is_demolished") := BoolLeaf(c, "is_demolished")];
    assert FlagsUpTo(f0, c, 2) == FlagsUpTo(f0, c, 1)[KStr("has_wheel_contact") := BoolLeaf(c, "has_wheel_contact")];
    assert FlagsUpTo(f0, c, 3) == FlagsUpTo(f0, c, 2)[KStr("is_super_sonic") := BoolLeaf(c, "is_super_sonic")];
    assert FlagsUpTo(f0, c, 4) == FlagsUpTo(f0, c, 3)[KStr("is_bot") := BoolLeaf(c, "is_bot")];
    assert FlagsUpTo(f0, c, 5) == FlagsUpTo(f0, c, 4)[KStr("jumped") := BoolLeaf(c, "jumped")];
    assert FlagsUpTo(f0, c, 6) == FlagsUpTo(f0, c, 5)[KStr("double_jumped") := BoolLeaf(c, "double_jumped")];
  }

  /** The car's flag loop: binds the six boolean attributes, in order. */
  method DecodeCarFlags(m: Machine, car: HostVal, ghost fields: map<Key, LuaTree>, ghost base: set<Ref>)
    requires FillingTop(m, fields, base) && IsCar(car)
    modifies m
    ensures FillingTop(m, FlagsUpTo(fields, car, |CarFlagKeys|), base)
    ensures m.stack == old(m.stack) && m.log == old(m.log)
    ensures OnlyTouches(old(m.heap), m.heap, TopRef(old(m.stack)))
  {
    CarFlagsReadable(car);
    var k := 0;
    while k < |CarFlagKeys|
      invariant 0 <= k <= |CarFlagKeys|
      invariant FillingTop(m, FlagsUpTo(fields, car, k), base)
      invariant m.stack == old(m.stack) && m.log == old(m.log)
      invariant OnlyTouches(old(m.heap), m.heap, TopRef(old(m.stack)))
    {
      GetBool(m, car, CarFlagKeys[k], FlagsUpTo(fields, car, k), base);
      k := k + 1;
    }
  }

  /** The hitbox lines of the car loop before lua_setfield: a new table of
      the three integer extents. */
  method PushHitbox(m: Machine, hitbox: HostVal) returns (ghost c: Ref)
    requires m.Valid() && IsHitbox(hitbox)
    modifies m
    ensures m.Valid() && c !in old(m.heap)
    ensures m.stack == old(m.stack) + [TableRef(c)] && m.log == old(m.log)
    ensures KeepsOld(old(m.heap), m.heap)
    ensures Filling(m.heap, c, HitboxTree(hitbox).fields, old(m.heap).Keys)
  {
    ghost var h0 := m.heap;
    c := m.NewTable();
    ghost var f: map<Key, LuaTree> := map[];
    GetInt(m, hitbox, "length", f, h0.Keys);
    f := f[KStr("length") := IntLeaf(hitbox, "length")];
    GetInt(m, hitbox, "width", f, h0.Keys);
    f := f[KStr("width") := IntLeaf(hitbox, "width")];
    GetInt(m, hitbox, "height", f, h0.Keys);
  }

  /** The car's hitbox: a new table {length, width, height} bound under "hitbox". */
  method DecodeHitbox(m: Machine, car: HostVal, ghost fields: map<Key, LuaTree>, ghost base: set<Ref>)
    returns (ghost g: map<Key, LuaTree>)
    requires FillingTop(m, fields, base) && HasAttr(car, "hitbox") && IsHitbox(Attr(car, "hitbox"))
    modifies m
    ensures g == fields[KStr("hitbox") := HitboxTree(Attr(car, "hitbox"))]
    ensures FillingTop(m, g, base)
    ensures m.stack == old(m.stack) && m.log == old(m.log)
    ensures OnlyTouches(old(m.heap), m.heap, TopRef(old(m.stack)))
  {
    ghost var h0 := m.heap;
    ghost var c := PushHitbox(m, Attr(car, "hitbox"));
    SetChild(m, "hitbox", fields, base, h0, c, HitboxTree(Attr(car, "hitbox")).fields);
    g := fields[KStr("hitbox") := HitboxTree(Attr(car, "hitbox"))];
  }

  /** One car, lines of the cars loop before lua_rawseti: pushes a new
      table holding exactly the car's schema tree; no existing table changes. */
  method DecodeCar(m: Machine, car: HostVal) returns (ghost r: Ref)
    requires m.Valid() && IsCar(car)
    modifies m
    ensures m.Valid() && r !in old(m.heap)
    ensures m.stack == old(m.stack) + [TableRef(r)] && m.log == old(m.log)
    ensures KeepsOld(old(m.heap), m.heap)
    ensures Filling(m.heap, r, Tree(Car, car).fields, old(m.heap).Keys)
  {
    ghost var h0 := m.heap;
    r := m.NewTable();
    ghost var f: map<Key, LuaTree> := map[];
    f := DecodePhysics(m, car, f, h0.Keys);
    DecodeCarFlags(m, car, f, h0.Keys);
    FlagsUpToAll(f, car);
    f := FlagsUpTo(f, car, |CarFlagKeys|);
    GetString(m, car, "name", f, h0.Keys);
    f := f[KStr("name") := StringLeaf(car, "name")];
    GetInt(m, car, "team", f, h0.Keys);
    f := f[KStr("team") := IntLeaf(car, "team")];
    GetDouble(m, car, "boost", f, h0.Keys);
    f := f[KStr("boost") := DoubleLeaf(car, "boost")];
    f := DecodeHitbox(m, car, f, h0.Keys);
    assert f == Tree(Car, car).fields;
  }

  // ---- boosts, teams, forecast slices ----

  /** One boost pad: pushes a new table {is_active, timer}. */
  method DecodeBoost(m: Machine, boost: HostVal) returns (ghost r: Ref)
    requires m.Valid() && IsBoost(boost)
    modifies m
    ensures m.Valid() && r !in old(m.heap)
    ensures m.stack == old(m.stack) + [TableRef(r)] && m.log == old(m.log)
    ensures KeepsOld(old(m.heap), m.heap)
    ensures Filling(m.heap, r, BoostTree(boost).fields, old(m.heap).Keys)
  {
    ghost var h0 := m.heap;
    r := m.NewTable();
    ghost var f: map<Key, LuaTree> := map[];
    GetBool(m, boost, "is_active", f, h0.Keys);
    f := f[KStr("is_active") := BoolLeaf(boost, "is_active")];
    GetDouble(m, boost, "timer", f, h0.Keys);
  }

  /** One team: pushes a new table {team_index, score}. */
  method DecodeTeam(m: Machine, team: HostVal) returns (ghost r: Ref)
    requires m.Valid() && IsTeam(team)
    modifies m
    ensures m.Valid() && r !in old(m.heap)
    ensures m.stack == old(m.stack) + [TableRef(r)] && m.log == old(m.log)
    ensures KeepsOld(old(m.heap), m.heap)
    ensures Filling(m.heap, r, TeamTree(team).fields, old(m.heap).Keys)
  {
    ghost var h0 := m.heap;
    r := m.NewTable();
    ghost var f: map<Key, LuaTree> := map[];
    GetInt(m, team, "team_index", f, h0.Keys);
    f := f[KStr("team_index") := IntLeaf(team, "team_index")];
    GetInt(m, team, "score", f, h0.Keys);
  }

  /** One forecast slice: pushes a new table holding the physics vectors
      of the slice directly, and game_seconds. */
  method DecodeSlice(m: Machine, slice: HostVal) returns (ghost r: Ref)
    requires m.Valid() && IsSlice(slice)
    modifies m
    ensures m.Valid() && r !in old(m.heap)
    ensures m.stack == old(m.stack) + [TableRef(r)] && m.log == old(m.log)
    ensures KeepsOld(old(m.heap), m.heap)
    ensures Filling(m.heap, r, Tree(Slice, slice).fields, old(m.heap).Keys)
  {
    ghost var h0 := m.heap;
    r := m.NewTable();
    var physics := Attr(slice, "physics");
    ghost var f: map<Key, LuaTree> := map[];
    f := GetVector(m, physics, "location", f, h0.Keys);
    f := GetVector(m, physics, "velocity", f, h0.Keys);
    f := GetVector(m, physics, "angular_velocity", f, h0.Keys);
    f := GetRotation(m, physics, "rotation", f, h0.Keys);
    GetDouble(m, slice, "game_seconds", f, h0.Keys);
  }

  /** Each of trees is the table of the host item at its index, and that
      item is well-formed. The trigger asks for both sequences to be indexed,
      so that a proof which only moves trees around does not unfold them. */
  ghost predicate Decodes(e: Entity, items: seq<HostVal>, trees: seq<LuaTree>)
  {
    && |trees| <= |items|
    && (forall j :: 0 <= j < |trees| ==> trees[j].Node?)
    && forall j {:trigger trees[j], items[j]} :: 0 <= j < |trees| ==>
         Is(e, items[j]) && trees[j] == Tree(e, items[j])
  }

  lemma DecodesAt(e: Entity, items: seq<HostVal>, trees: seq<LuaTree>, i: nat)
    requires Decodes(e, items, trees) && i < |trees|
    ensures Is(e, items[i]) && trees[i] == Tree(e, items[i])
  {
    assert trees[i] == trees[i] && items[i] == items[i];
  }

  lemma ItemTreesDecode(e: Entity, items: seq<HostVal>, n: int)
    requires ItemsOk(e, items, n)
    ensures Decodes(e, items, ItemTrees(e, items, n))
  {
  }

  /** The body of an indexed loop before lua_rawseti: the item's table. */
  method DecodeItem(m: Machine, e: Entity, items: seq<HostVal>, ghost trees: seq<LuaTree>, i: nat)
    returns (ghost r: Ref)
    requires m.Valid() && Listed(e) && Decodes(e, items, trees) && i < |trees|
    modifies m
    ensures m.Valid() && r !in old(m.heap)
    ensures m.stack == old(m.stack) + [TableRef(r)] && m.log == old(m.log)
    ensures KeepsOld(old(m.heap), m.heap)
    ensures Filling(m.heap, r, trees[i].fields, old(m.heap).Keys)
  {
    DecodesAt(e, items, trees, i);
    match e
    case Car => r := DecodeCar(m, items[i]);
    case Boost => r := DecodeBoost(m, items[i]);
    case Team => r := DecodeTeam(m, items[i]);
    case Slice => r := DecodeSlice(m, items[i]);
    case _ => assert false;
  }

  /** One round of an indexed loop: the item's table, stored at i + 1 with
      lua_rawseti. */
  method StoreItem(m: Machine, e: Entity, items: seq<HostVal>, ghost trees: seq<LuaTree>, i: nat,
                   ghost base: set<Ref>)
    requires Listed(e) && Decodes(e, items, trees) && i < |trees|
    requires FillingTop(m, Entries(trees, i), base)
    modifies m
    ensures FillingTop(m, Entries(trees, i + 1), base)
    ensures m.stack == old(m.stack) && m.log == old(m.log)
    ensures OnlyTouches(old(m.heap), m.heap, TopRef(old(m.stack)))
  {
    ghost var r := DecodeItem(m, e, items, trees, i);
    ghost var h1 := m.heap;
    m.RawSetI(-2, i + 1);
    BindChild(old(m.heap), h1, m.heap, TopRef(old(m.stack)), Entries(trees, i), base, r,
              trees[i].fields, KInt(i + 1));
  }

  /** An indexed loop: pushes a new table whose entries 1..n are built from
      host items 0..n-1, in host order, trees being their tables. A count of
      zero or less leaves the table empty. */
  method DecodeEntries(m: Machine, e: Entity, items: seq<HostVal>, n: int, ghost trees: seq<LuaTree>)
    returns (ghost c: Ref)
    requires m.Valid() && Listed(e) && Decodes(e, items, trees)
    requires |trees| == if n <= 0 then 0 else n
    modifies m
    ensures m.Valid() && c !in old(m.heap)
    ensures m.stack == old(m.stack) + [TableRef(c)] && m.log == old(m.log)
    ensures KeepsOld(old(m.heap), m.heap)
    ensures Filling(m.heap, c, Entries(trees, |trees|), old(m.heap).Keys)
  {
    ghost var h0 := m.heap;
    c := m.NewTable();
    var i := 0;
    while i < n
      invariant 0 <= i <= |trees|
      invariant m.stack == old(m.stack) + [TableRef(c)] && m.log == old(m.log)
      invariant KeepsOld(h0, m.heap)
      invariant FillingTop(m, Entries(trees, i), h0.Keys)
    {
      StoreItem(m, e, items, trees, i, h0.Keys);
      i := i + 1;
    }
  }

  /** The loop of one list, as a new table on top: the Lua sequence of the
      first n host items. */
  method PushList(m: Machine, e: Entity, items: seq<HostVal>, n: int) returns (ghost c: Ref)
    requires m.Valid() && Listed(e) && ItemsOk(e, items, n)
    modifies m
    ensures m.Valid() && c !in old(m.heap)
    ensures m.stack == old(m.stack) + [TableRef(c)] && m.log == old(m.log)
    ensures KeepsOld(old(m.heap), m.heap)
    ensures Filling(m.heap, c, ListOf(e, items, n).fields, old(m.heap).Keys)
  {
    ghost var trees := ItemTrees(e, items, n);
    ItemTreesDecode(e, items, n);
    c := DecodeEntries(m, e, items, n, trees);
  }

  // ---- the ball and the game info ----

  /** The latest_touch lines before lua_setfield: a new table of the touch. */
  method PushTouch(m: Machine, t: HostVal) returns (ghost c: Ref)
    requires m.Valid() && IsTouch(t)
    modifies m
    ensures m.Valid() && c !in old(m.heap)
    ensures m.stack == old(m.stack) + [TableRef(c)] && m.log == old(m.log)
    ensures KeepsOld(old(m.heap), m.heap)
    ensures Filling(m.heap, c, TouchTree(t).fields, old(m.heap).Keys)
  {
    ghost var h0 := m.heap;
    c := m.NewTable();
    ghost var f: map<Key, LuaTree> := map[];
    GetString(m, t, "player_name", f, h0.Keys);
    f := f[KStr("player_name") := StringLeaf(t, "player_name")];
    GetDouble(m, t, "time_seconds", f, h0.Keys);
    f := f[KStr("time_seconds") := DoubleLeaf(t, "time_seconds")];
    GetInt(m, t, "team", f, h0.Keys);
    f := f[KStr("team") := IntLeaf(t, "team")];
    GetInt(m, t, "player_index", f, h0.Keys);
    f := f[KStr("player_index") := IntLeaf(t, "player_index")];
    f := GetVector(m, t, "hit_location", f, h0.Keys);
    f := GetVector(m, t, "hit_normal", f, h0.Keys);
  }

  /** The drop_shot_info lines before lua_setfield. */
  method PushDropShot(m: Machine, d: HostVal) returns (ghost c: Ref)
    requires m.Valid() && IsDropShot(d)
    modifies m
    ensures m.Valid() && c !in old(m.heap)
    ensures m.stack == old(m.stack) + [TableRef(c)] && m.log == old(m.log)
    ensures KeepsOld(old(m.heap), m.heap)
    ensures Filling(m.heap, c, DropShotTree(d).fields, old(m.heap).Keys)
  {
    ghost var h0 := m.heap;
    c := m.NewTable();
    ghost var f: map<Key, LuaTree> := map[];
    GetInt(m, d, "damage_index", f, h0.Keys);
    f := f[KStr("damage_index") := IntLeaf(d, "damage_index")];
    GetInt(m, d, "absorbed_force", f, h0.Keys);
    f := f[KStr("absorbed_force") := IntLeaf(d, "absorbed_force")];
    GetInt(m, d, "force_accum_recent", f, h0.Keys);
  }

  /** The box lines of the collision shape before lua_setfield. */
  method PushBox(m: Machine, b: HostVal) returns (ghost c: Ref)
    requires m.Valid() && IsBox(b)
    modifies m
    ensures m.Valid() && c !in old(m.heap)
    ensures m.stack == old(m.stack) + [TableRef(c)] && m.log == old(m.log)
    ensures KeepsOld(old(m.heap), m.heap)
    ensures Filling(m.heap, c, BoxTree(b).fields, old(m.heap).Keys)
  {
    ghost var h0 := m.heap;
    c := m.NewTable();
    ghost var f: map<Key, LuaTree> := map[];
    GetDouble(m, b, "length", f, h0.Keys);
    f := f[KStr("length") := DoubleLeaf(b, "length")];
    GetDouble(m, b, "width", f, h0.Keys);
    f := f[KStr("width") := DoubleLeaf(b, "width")];
    GetDouble(m, b, "height", f, h0.Keys);
  }

  /** The sphere lines of the collision shape before lua_setfield. */
  method PushSphere(m: Machine, sphere: HostVal) returns (ghost c: Ref)
    requires m.Valid() && IsSphere(sphere)
    modifies m
    ensures m.Valid() && c !in old(m.heap)
    ensures m.stack == old(m.stack) + [TableRef(c)] && m.log == old(m.log)
    ensures KeepsOld(old(m.heap), m.heap)
    ensures Filling(m.heap, c, SphereTree(sphere).fields, old(m.heap).Keys)
  {
    ghost var h0 := m.heap;
    c := m.NewTable();
    GetDouble(m, sphere, "diameter", map[], h0.Keys);
  }

  /** The cylinder lines of the collision shape before lua_setfield. */
  method PushCylinder(m: Machine, cylinder: HostVal) returns (ghost c: Ref)
    requires m.Valid() && IsCylinder(cylinder)
    modifies m
    ensures m.Valid() && c !in old(m.heap)
    ensures m.stack == old(m.stack) + [TableRef(c)] && m.log == old(m.log)
    ensures KeepsOld(old(m.heap), m.heap)
    ensures Filling(m.heap, c, CylinderTree(cylinder).fields, old(m.heap).Keys)
  {
    ghost var h0 := m.heap;
    c := m.NewTable();
    GetDouble(m, cylinder, "diameter", map[], h0.Keys);
    GetDouble(m, cylinder, "height", map[KStr("diameter") := DoubleLeaf(cylinder, "diameter")], h0.Keys);
  }

  /** The collision_shape lines before lua_setfield: the shape type and its
      box, sphere and cylinder tables. */
  method PushCollision(m: Machine, col: HostVal) returns (ghost c: Ref)
    requires m.Valid() && IsCollision(col)
    modifies m
    ensures m.Valid() && c !in old(m.heap)
    ensures m.stack == old(m.stack) + [TableRef(c)] && m.log == old(m.log)
    ensures KeepsOld(old(m.heap), m.heap)
    ensures Filling(m.heap, c, CollisionTree(col).fields, old(m.heap).Keys)
  {
    ghost var h0 := m.heap;
    c := m.NewTable();
    GetInt(m, col, "type", map[], h0.Keys);
    ghost var f: map<Key, LuaTree> := map[KStr("type") := IntLeaf(col, "type")];
    ghost var h1 := m.heap;
    ghost var b := PushBox(m, Attr(col, "box"));
    SetChild(m, "box", f, h0.Keys, h1, b, BoxTree(Attr(col, "box")).fields);
    f := f[KStr("box") := BoxTree(Attr(col, "box"))];
    h1 := m.heap;
    b := PushSphere(m, Attr(col, "sphere"));
    SetChild(m, "sphere", f, h0.Keys, h1, b, SphereTree(Attr(col, "sphere")).fields);
    f := f[KStr("sphere") := SphereTree(Attr(col, "sphere"))];
    h1 := m.heap;
    b := PushCylinder(m, Attr(col, "cylinder"));
    SetChild(m, "cylinder", f, h0.Keys, h1, b, CylinderTree(Attr(col, "cylinder")).fields);
  }

  /** Binds "latest_touch" of the table on top to the ball's latest touch. */
  method DecodeTouch(m: Machine, ball: HostVal, ghost fields: map<Key, LuaTree>, ghost base: set<Ref>)
    returns (ghost g: map<Key, LuaTree>)
    requires FillingTop(m, fields, base) && HasAttr(ball, "latest_touch") && IsTouch(Attr(ball, "latest_touch"))
    modifies m
    ensures g == fields[KStr("latest_touch") := Tree(Touch, Attr(ball, "latest_touch"))]
    ensures FillingTop(m, g, base)
    ensures m.stack == old(m.stack) && m.log == old(m.log)
    ensures OnlyTouches(old(m.heap), m.heap, TopRef(old(m.stack)))
  {
    ghost var h0 := m.heap;
    ghost var c := PushTouch(m, Attr(ball, "latest_touch"));
    SetChild(m, "latest_touch", fields, base, h0, c, TouchTree(Attr(ball, "latest_touch")).fields);
    g := fields[KStr("latest_touch") := Tree(Touch, Attr(ball, "latest_touch"))];
  }

  /** Binds "drop_shot_info" of the table on top to the ball's drop shot state. */
  method DecodeDropShot(m: Machine, ball: HostVal, ghost fields: map<Key, LuaTree>, ghost base: set<Ref>)
    returns (ghost g: map<Key, LuaTree>)
    requires FillingTop(m, fields, base)
    requires HasAttr(ball, "drop_shot_info") && IsDropShot(Attr(ball, "drop_shot_info"))
    modifies m
    ensures g == fields[KStr("drop_shot_info") := DropShotTree(Attr(ball, "drop_shot_info"))]
    ensures FillingTop(m, g, base)
    ensures m.stack == old(m.stack) && m.log == old(m.log)
    ensures OnlyTouches(old(m.heap), m.heap, TopRef(old(m.stack)))
  {
    ghost var h0 := m.heap;
    ghost var c := PushDropShot(m, Attr(ball, "drop_shot_info"));
    SetChild(m, "drop_shot_info", fields, base, h0, c, DropShotTree(Attr(ball, "drop_shot_info")).fields);
    g := fields[KStr("drop_shot_info") := DropShotTree(Attr(ball, "drop_shot_info"))];
  }

  /** Binds "collision_shape" of the table on top to the ball's collision shape. */
  method DecodeCollision(m: Machine, ball: HostVal, ghost fields: map<Key, LuaTree>, ghost base: set<Ref>)
    returns (ghost g: map<Key, LuaTree>)
    requires FillingTop(m, fields, base)
    requires HasAttr(ball, "collision_shape") && IsCollision(Attr(ball, "collision_shape"))
    modifies m
    ensures g == fields[KStr("collision_shape") := Tree(Collision, Attr(ball, "collision_shape"))]
    ensures FillingTop(m, g, base)
    ensures m.stack == old(m.stack) && m.log == old(m.log)
    ensures OnlyTouches(old(m.heap), m.heap, TopRef(old(m.stack)))
  {
    ghost var h0 := m.heap;
    ghost var c := PushCollision(m, Attr(ball, "collision_shape"));
    SetChild(m, "collision_shape", fields, base, h0, c, CollisionTree(Attr(ball, "collision_shape")).fields);
    g := fields[KStr("collision_shape") := Tree(Collision, Attr(ball, "collision_shape"))];
  }

  /** The game_ball lines of createLuaPacket before lua_setfield. */
  method PushBall(m: Machine, ball: HostVal) returns (ghost c: Ref)
    requires m.Valid() && IsBall(ball)
    modifies m
    ensures m.Valid() && c !in old(m.heap)
    ensures m.stack == old(m.stack) + [TableRef(c)] && m.log == old(m.log)
    ensures KeepsOld(old(m.heap), m.heap)
    ensures Filling(m.heap, c, Tree(Ball, ball).fields, old(m.heap).Keys)
  {
    ghost var h0 := m.heap;
    c := m.NewTable();
    ghost var f := DecodePhysics(m, ball, map[], h0.Keys);
    f := DecodeTouch(m, ball, f, h0.Keys);
    f := DecodeDropShot(m, ball, f, h0.Keys);
    f := DecodeCollision(m, ball, f, h0.Keys);
  }

  /** The game_info lines of createLuaPacket before lua_setfield. */
  method PushGameInfo(m: Machine, g: HostVal) returns (ghost c: Ref)
    requires m.Valid() && IsGameInfo(g)
    modifies m
    ensures m.Valid() && c !in old(m.heap)
    ensures m.stack == old(m.stack) + [TableRef(c)] && m.log == old(m.log)
    ensures KeepsOld(old(m.heap), m.heap)
    ensures Filling(m.heap, c, GameInfoTree(g).fields, old(m.heap).Keys)
  {
    ghost var h0 := m.heap;
    c := m.NewTable();
    ghost var f: map<Key, LuaTree> := map[];
    GetDouble(m, g, "seconds_elapsed", f, h0.Keys);
    f := f[KStr("seconds_elapsed") := DoubleLeaf(g, "seconds_elapsed")];
    GetDouble(m, g, "game_time_remaining", f, h0.Keys);
    f := f[KStr("game_time_remaining") := DoubleLeaf(g, "game_time_remaining")];
    GetDouble(m, g, "world_gravity_z", f, h0.Keys);
    f := f[KStr("world_gravity_z") := DoubleLeaf(g, "world_gravity_z")];
    GetDouble(m, g, "game_speed", f, h0.Keys);
    f := f[KStr("game_speed") := DoubleLeaf(g, "game_speed")];
    GetBool(m, g, "is_overtime", f, h0.Keys);
    f := f[KStr("is_overtime") := BoolLeaf(g, "is_overtime")];
    GetBool(m, g, "is_unlimited_time", f, h0.Keys);
    f := f[KStr("is_unlimited_time") := BoolLeaf(g, "is_unlimited_time")];
    GetBool(m, g, "is_round_active", f, h0.Keys);
    f := f[KStr("is_round_active") := BoolLeaf(g, "is_round_active")];
    GetBool(m, g, "is_kickoff_pause", f, h0.Keys);
    f := f[KStr("is_kickoff_pause") := BoolLeaf(g, "is_kickoff_pause")];
    GetBool(m, g, "is_match_ended", f, h0.Keys);
  }

  /** Binds "game_ball" of the table on top to the ball. */
  method DecodeBall(m: Machine, p: HostVal, ghost fields: map<Key, LuaTree>, ghost base: set<Ref>)
    returns (ghost g: map<Key, LuaTree>)
    requires FillingTop(m, fields, base) && HasAttr(p, "game_ball") && IsBall(Attr(p, "game_ball"))
    modifies m
    ensures g == fields[KStr("game_ball") := Tree(Ball, Attr(p, "game_ball"))]
    ensures FillingTop(m, g, base)
    ensures m.stack == old(m.stack) && m.log == old(m.log)
    ensures OnlyTouches(old(m.heap), m.heap, TopRef(old(m.stack)))
  {
    ghost var h0 := m.heap;
    ghost var c := PushBall(m, Attr(p, "game_ball"));
    SetChild(m, "game_ball", fields, base, h0, c, Tree(Ball, Attr(p, "game_ball")).fields);
    g := fields[KStr("game_ball") := Tree(Ball, Attr(p, "game_ball"))];
  }

  /** Binds "game_info" of the table on top to the game info. */
  method DecodeGameInfo(m: Machine, p: HostVal, ghost fields: map<Key, LuaTree>, ghost base: set<Ref>)
    returns (ghost g: map<Key, LuaTree>)
    requires FillingTop(m, fields, base) && HasAttr(p, "game_info") && IsGameInfo(Attr(p, "game_info"))
    modifies m
    ensures g == fields[KStr("game_info") := GameInfoTree(Attr(p, "game_info"))]
    ensures FillingTop(m, g, base)
    ensures m.stack == old(m.stack) && m.log == old(m.log)
    ensures OnlyTouches(old(m.heap), m.heap, TopRef(old(m.stack)))
  {
    ghost var h0 := m.heap;
    ghost var c := PushGameInfo(m, Attr(p, "game_info"));
    SetChild(m, "game_info", fields, base, h0, c, GameInfoTree(Attr(p, "game_info")).fields);
    g := fields[KStr("game_info") := GameInfoTree(Attr(p, "game_info"))];
  }

  // ---- the packet ----

  /** lua_pushinteger followed by lua_setfield(L, -2, name): a count field. */
  method SetCount(m: Machine, name: string, n: int, ghost fields: map<Key, LuaTree>, ghost base: set<Ref>)
    requires FillingTop(m, fields, base)
    modifies m
    ensures FillingTop(m, fields[KStr(name) := Leaf(Integer(n))], base)
    ensures m.stack == old(m.stack) && m.log == old(m.log)
    ensures OnlyTouches(old(m.heap), m.heap, TopRef(old(m.stack)))
  {
    m.Push(Integer(n));
    m.SetField(-2, name);
    BindLeaf(old(m.heap), m.heap, TopRef(old(m.stack)), fields, base, KStr(name), Integer(n));
  }

  /** The cars lines of createLuaPacket: num_cars, then the cars loop. */
  method DecodeCars(m: Machine, p: HostVal, ghost fields: map<Key, LuaTree>, ghost base: set<Ref>)
    returns (ghost g: map<Key, LuaTree>)
    requires FillingTop(m, fields, base)
    requires HasAttr(p, "num_cars") && ListOk(p, "game_cars", Car, NumCars(p))
    modifies m
    ensures g == fields[KStr("num_cars") := Leaf(Integer(NumCars(p)))]
                                [KStr("game_cars") := ListOf(Car, Attr(p, "game_cars").items, NumCars(p))]
    ensures FillingTop(m, g, base)
    ensures m.stack == old(m.stack) && m.log == old(m.log)
    ensures OnlyTouches(old(m.heap), m.heap, TopRef(old(m.stack)))
  {
    var n := AsLong(Attr(p, "num_cars"));
    SetCount(m, "num_cars", n, fields, base);
    ghost var h1 := m.heap;
    ghost var c := PushList(m, Car, Attr(p, "game_cars").items, n);
    SetChild(m, "game_cars", fields[KStr("num_cars") := Leaf(Integer(n))], base, h1, c,
             ListOf(Car, Attr(p, "game_cars").items, n).fields);
    g := fields[KStr("num_cars") := Leaf(Integer(n))]
          [KStr("game_cars") := ListOf(Car, Attr(p, "game_cars").items, n)];
  }

  /** The boost pad lines of createLuaPacket: num_boost, then the boosts loop. */
  method DecodeBoosts(m: Machine, p: HostVal, ghost fields: map<Key, LuaTree>, ghost base: set<Ref>)
    returns (ghost g: map<Key, LuaTree>)
    requires FillingTop(m, fields, base)
    requires HasAttr(p, "num_boost") && ListOk(p, "game_boosts", Boost, NumBoosts(p))
    modifies m
    ensures g == fields[KStr("num_boost") := Leaf(Integer(NumBoosts(p)))]
                                [KStr("game_boosts") := ListOf(Boost, Attr(p, "game_boosts").items, NumBoosts(p))]
    ensures FillingTop(m, g, base)
    ensures m.stack == old(m.stack) && m.log == old(m.log)
    ensures OnlyTouches(old(m.heap), m.heap, TopRef(old(m.stack)))
  {
    var n := AsLong(Attr(p, "num_boost"));
    SetCount(m, "num_boost", n, fields, base);
    ghost var h1 := m.heap;
    ghost var c := PushList(m, Boost, Attr(p, "game_boosts").items, n);
    SetChild(m, "game_boosts", fields[KStr("num_boost") := Leaf(Integer(n))], base, h1, c,
             ListOf(Boost, Attr(p, "game_boosts").items, n).fields);
    g := fields[KStr("num_boost") := Leaf(Integer(n))]
          [KStr("game_boosts") := ListOf(Boost, Attr(p, "game_boosts").items, n)];
  }

  /** The team lines of createLuaPacket with the team count n: num_teams,
      then the teams loop run n times. */
  method DecodeTeams(m: Machine, p: HostVal, n: int, ghost fields: map<Key, LuaTree>, ghost base: set<Ref>)
    returns (ghost g: map<Key, LuaTree>)
    requires FillingTop(m, fields, base)
    requires HasAttr(p, "num_teams") && ListOk(p, "teams", Team, n)
    modifies m
    ensures g == fields[KStr("num_teams") := Leaf(Integer(n))]
                                [KStr("teams") := ListOf(Team, Attr(p, "teams").items, n)]
    ensures FillingTop(m, g, base)
    ensures m.stack == old(m.stack) && m.log == old(m.log)
    ensures OnlyTouches(old(m.heap), m.heap, TopRef(old(m.stack)))
  {
    SetCount(m, "num_teams", n, fields, base);
    ghost var h1 := m.heap;
    ghost var c := PushList(m, Team, Attr(p, "teams").items, n);
    SetChild(m, "teams", fields[KStr("num_teams") := Leaf(Integer(n))], base, h1, c,
             ListOf(Team, Attr(p, "teams").items, n).fields);
    g := fields[KStr("num_teams") := Leaf(Integer(n))]
          [KStr("teams") := ListOf(Team, Attr(p, "teams").items, n)];
  }

  /** The packet table createLuaPacket evidently means to build, before
      the GameTickPacket constructor is called on it: each list as long
      as its own count. */
  method PushPacket(m: Machine, p: HostVal) returns (ghost c: Ref)
    requires m.Valid() && IsPacket(p)
    modifies m
    ensures m.Valid() && c !in old(m.heap)
    ensures m.stack == old(m.stack) + [TableRef(c)] && m.log == old(m.log)
    ensures KeepsOld(old(m.heap), m.heap)
    ensures Filling(m.heap, c, PacketTree(p).fields, old(m.heap).Keys)
  {
    ghost var h0 := m.heap;
    c := m.NewTable();
    ghost var f := DecodeCars(m, p, map[], h0.Keys);
    f := DecodeBoosts(m, p, f, h0.Keys);
    f := DecodeBall(m, p, f, h0.Keys);
    f := DecodeGameInfo(m, p, f, h0.Keys);
    var nt := AsLong(Attr(p, "num_teams"));
    f := DecodeTeams(m, p, nt, f, h0.Keys);
  }

  /** The packet table createLuaPacket builds as written: the team count
      is PyLong_AsLong applied to num_cars, not to num_teams. */
  method PushPacketAsWritten(m: Machine, p: HostVal) returns (ghost c: Ref)
    requires m.Valid() && IsPacketAsWritten(p)
    modifies m
    ensures m.Valid() && c !in old(m.heap)
    ensures m.stack == old(m.stack) + [TableRef(c)] && m.log == old(m.log)
    ensures KeepsOld(old(m.heap), m.heap)
    ensures Filling(m.heap, c, PacketAsWrittenTree(p).fields, old(m.heap).Keys)
  {
    ghost var h0 := m.heap;
    c := m.NewTable();
    ghost var f := DecodeCars(m, p, map[], h0.Keys);
    f := DecodeBoosts(m, p, f, h0.Keys);
    f := DecodeBall(m, p, f, h0.Keys);
    f := DecodeGameInfo(m, p, f, h0.Keys);
    var nt := AsLong(Attr(p, "num_cars"));
    f := DecodeTeams(m, p, nt, f, h0.Keys);
  }

  // ---- the ball forecast ----

  /** The table getBallPrediction builds before BallPrediction is called on
      it: num_slices, then the slices loop. */
  method PushPrediction(m: Machine, v: HostVal) returns (ghost c: Ref)
    requires m.Valid() && IsPrediction(v)
    modifies m
    ensures m.Valid() && c !in old(m.heap)
    ensures m.stack == old(m.stack) + [TableRef(c)] && m.log == old(m.log)
    ensures KeepsOld(old(m.heap), m.heap)
    ensures Filling(m.heap, c, PredictionTree(v).fields, old(m.heap).Keys)
  {
    ghost var h0 := m.heap;
    c := m.NewTable();
    var n := AsLong(Attr(v, "num_slices"));
    SetCount(m, "num_slices", n, map[], h0.Keys);
    ghost var h1 := m.heap;
    ghost var list := PushList(m, Slice, Attr(v, "slices").items, n);
    SetChild(m, "slices", map[KStr("num_slices") := Leaf(Integer(n))], h0.Keys, h1, list,
             ListOf(Slice, Attr(v, "slices").items, n).fields);
  }
}
