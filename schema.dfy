/** The hand-enumerated schema of the tables the bridge builds from a host
    snapshot, as trees: what each decode routine must produce. */
module Schema {
  import opened LuaApi
  import opened Shape
  import opened Host

  // ---- leaves: one host attribute, coerced and converted ----

  /** getInt: PyLong_AsLong, then lua_pushnumber (a float). */
  function IntLeaf(o: HostVal, name: string): LuaTree
  {
    Leaf(Number(FromInteger(AsLong(Attr(o, name)))))
  }

  /** getDouble: PyFloat_AsDouble, then lua_pushnumber. */
  function DoubleLeaf(o: HostVal, name: string): LuaTree
  {
    Leaf(Number(AsDouble(Attr(o, name))))
  }

  /** getBool: PyObject_IsTrue, then lua_pushboolean. */
  function BoolLeaf(o: HostVal, name: string): LuaTree
  {
    Leaf(Boolean(IsTrue(Attr(o, name))))
  }

  /** getString: PyUnicode_AsUTF8, then lua_pushstring. */
  function StringLeaf(o: HostVal, name: string): LuaTree
  {
    Leaf(Utf8(Attr(o, name)))
  }

  // ---- entities ----

  /** The host entities whose tables the bridge builds from nested tables
      of other entities, or copies one per host item in an indexed loop,
      and the two top-level tables, the packet and the ball forecast.
      Their trees are reached through Tree, so that a tree is expanded
      only as deep as a proof needs it. */
  datatype Entity = Physics | Car | Boost | Team | Slice | Touch | Collision | Ball | Packet | Prediction

  /** How deeply an entity's table nests the tables of other entities. */
  function Depth(e: Entity): nat
  {
    match e
    case Car | Slice | Ball => 1
    case Packet | Prediction => 2
    case _ => 0
  }

  /** The entities an indexed loop copies, one table per host item. */
  predicate Listed(e: Entity)
  {
    e == Car || e == Boost || e == Team || e == Slice
  }

  /** What the decoder reads of a host value of entity e: every attribute
      it fetches exists (a failed PyObject_GetAttrString would hand NULL to
      the next call), nested objects are well-formed, and getString reads
      host strings. */
  predicate Is(e: Entity, v: HostVal)
    decreases Depth(e), 1
  {
    match e
    case Physics => IsPhysics(v)
    case Car => IsCar(v)
    case Boost => IsBoost(v)
    case Team => IsTeam(v)
    case Slice => IsSlice(v)
    case Touch => IsTouch(v)
    case Collision => IsCollision(v)
    case Ball => IsBall(v)
    case Packet => IsPacketWith(v, NumTeams(v))
    case Prediction => IsPrediction(v)
  }

  /** The table the bridge builds from a well-formed host value of entity e. */
  function Tree(e: Entity, v: HostVal): (t: LuaTree)
    requires Is(e, v)
    ensures t.Node?
    decreases Depth(e), 1
  {
    match e
    case Physics => PhysicsTree(v)
    case Car => CarTree(v)
    case Boost => BoostTree(v)
    case Team => TeamTree(v)
    case Slice => SliceTree(v)
    case Touch => TouchTree(v)
    case Collision => CollisionTree(v)
    case Ball => BallTree(v)
    case Packet => PacketTreeWith(v, NumTeams(v))
    case Prediction => PredictionTree(v)
  }

  // a location, velocity or angular velocity: getVector

  predicate IsVector(v: HostVal)
  {
    HasAttr(v, "x") && HasAttr(v, "y") && HasAttr(v, "z")
  }

  function VectorTree(v: HostVal): (t: LuaTree)
    requires IsVector(v)
    ensures t.Node?
  {
    Node(map[KStr("x") := DoubleLeaf(v, "x"), KStr("y") := DoubleLeaf(v, "y"),
             KStr("z") := DoubleLeaf(v, "z")])
  }

  // an orientation: getRotation

  predicate IsRotation(v: HostVal)
  {
    HasAttr(v, "pitch") && HasAttr(v, "yaw") && HasAttr(v, "roll")
  }

  function RotationTree(v: HostVal): (t: LuaTree)
    requires IsRotation(v)
    ensures t.Node?
  {
    Node(map[KStr("pitch") := DoubleLeaf(v, "pitch"), KStr("yaw") := DoubleLeaf(v, "yaw"),
             KStr("roll") := DoubleLeaf(v, "roll")])
  }

  /** Attribute name holds a vector, a rotation. */
  predicate VectorAt(o: HostVal, name: string)
  {
    HasAttr(o, name) && IsVector(Attr(o, name))
  }

  predicate RotationAt(o: HostVal, name: string)
  {
    HasAttr(o, name) && IsRotation(Attr(o, name))
  }

  // a physics block, as the physics loop copies it

  predicate IsPhysics(v: HostVal)
  {
    && VectorAt(v, "location") && VectorAt(v, "velocity")
    && VectorAt(v, "angular_velocity") && RotationAt(v, "rotation")
  }

  function PhysicsTree(v: HostVal): (t: LuaTree)
    requires IsPhysics(v)
    ensures t.Node?
  {
    Node(map[KStr("location") := VectorTree(Attr(v, "location")),
             KStr("velocity") := VectorTree(Attr(v, "velocity")),
             KStr("angular_velocity") := VectorTree(Attr(v, "angular_velocity")),
             KStr("rotation") := RotationTree(Attr(v, "rotation"))])
  }

  // a car's hitbox extents, read with getInt

  predicate IsHitbox(v: HostVal)
  {
    HasAttr(v, "length") && HasAttr(v, "width") && HasAttr(v, "height")
  }

  function HitboxTree(v: HostVal): (t: LuaTree)
    requires IsHitbox(v)
    ensures t.Node?
  {
    Node(map[KStr("length") := IntLeaf(v, "length"), KStr("width") := IntLeaf(v, "width"),
             KStr("height") := IntLeaf(v, "height")])
  }

  // one car of the cars loop

  predicate IsCar(v: HostVal)
  {
    && HasAttr(v, "physics") && IsPhysics(Attr(v, "physics"))
    && HasAttr(v, "is_demolished") && HasAttr(v, "has_wheel_contact") && HasAttr(v, "is_super_sonic")
    && HasAttr(v, "is_bot") && HasAttr(v, "jumped") && HasAttr(v, "double_jumped")
    && StringAt(v, "name") && HasAttr(v, "team") && HasAttr(v, "boost")
    && HasAttr(v, "hitbox") && IsHitbox(Attr(v, "hitbox"))
  }

  function CarTree(v: HostVal): (t: LuaTree)
    requires IsCar(v)
    ensures t.Node?
    decreases Depth(Car), 0
  {
    Node(map[
      KStr("physics") := Tree(Physics, Attr(v, "physics")),
      KStr("is_demolished") := BoolLeaf(v, "is_demolished"),
      KStr("has_wheel_contact") := BoolLeaf(v, "has_wheel_contact"),
      KStr("is_super_sonic") := BoolLeaf(v, "is_super_sonic"),
      KStr("is_bot") := BoolLeaf(v, "is_bot"),
      KStr("jumped") := BoolLeaf(v, "jumped"),
      KStr("double_jumped") := BoolLeaf(v, "double_jumped"),
      KStr("name") := StringLeaf(v, "name"),
      KStr("team") := IntLeaf(v, "team"),
      KStr("boost") := DoubleLeaf(v, "boost"),
      KStr("hitbox") := HitboxTree(Attr(v, "hitbox"))])
  }

  // one boost pad of the boosts loop

  predicate IsBoost(v: HostVal)
  {
    HasAttr(v, "is_active") && HasAttr(v, "timer")
  }

  function BoostTree(v: HostVal): (t: LuaTree)
    requires IsBoost(v)
    ensures t.Node?
  {
    Node(map[KStr("is_active") := BoolLeaf(v, "is_active"), KStr("timer") := DoubleLeaf(v, "timer")])
  }

  // one team of the teams loop

  predicate IsTeam(v: HostVal)
  {
    HasAttr(v, "team_index") && HasAttr(v, "score")
  }

  function TeamTree(v: HostVal): (t: LuaTree)
    requires IsTeam(v)
    ensures t.Node?
  {
    Node(map[KStr("team_index") := IntLeaf(v, "team_index"), KStr("score") := IntLeaf(v, "score")])
  }

  // one forecast slice of getBallPrediction

  predicate IsSlice(v: HostVal)
  {
    HasAttr(v, "physics") && IsPhysics(Attr(v, "physics")) && HasAttr(v, "game_seconds")
  }

  function SliceTree(v: HostVal): (t: LuaTree)
    requires IsSlice(v)
    ensures t.Node?
    decreases Depth(Slice), 0
  {
    // the physics vectors are stored on the slice table itself
    Node(Tree(Physics, Attr(v, "physics")).fields[KStr("game_seconds") := DoubleLeaf(v, "game_seconds")])
  }

  // the ball's latest touch

  predicate IsTouch(v: HostVal)
  {
    && StringAt(v, "player_name") && HasAttr(v, "time_seconds") && HasAttr(v, "team")
    && HasAttr(v, "player_index") && VectorAt(v, "hit_location") && VectorAt(v, "hit_normal")
  }

  function TouchTree(v: HostVal): (t: LuaTree)
    requires IsTouch(v)
    ensures t.Node?
  {
    Node(map[
      KStr("player_name") := StringLeaf(v, "player_name"),
      KStr("time_seconds") := DoubleLeaf(v, "time_seconds"),
      KStr("team") := IntLeaf(v, "team"),
      KStr("player_index") := IntLeaf(v, "player_index"),
      KStr("hit_location") := VectorTree(Attr(v, "hit_location")),
      KStr("hit_normal") := VectorTree(Attr(v, "hit_normal"))])
  }

  // the ball's drop shot state

  predicate IsDropShot(v: HostVal)
  {
    HasAttr(v, "damage_index") && HasAttr(v, "absorbed_force") && HasAttr(v, "force_accum_recent")
  }

  function DropShotTree(v: HostVal): (t: LuaTree)
    requires IsDropShot(v)
    ensures t.Node?
  {
    Node(map[
      KStr("damage_index") := IntLeaf(v, "damage_index"),
      KStr("absorbed_force") := IntLeaf(v, "absorbed_force"),
      KStr("force_accum_recent") := IntLeaf(v, "force_accum_recent")])
  }

  // the three solids of the ball's collision shape

  predicate IsBox(v: HostVal)
  {
    HasAttr(v, "length") && HasAttr(v, "width") && HasAttr(v, "height")
  }

  function BoxTree(v: HostVal): (t: LuaTree)
    requires IsBox(v)
    ensures t.Node?
  {
    Node(map[KStr("length") := DoubleLeaf(v, "length"), KStr("width") := DoubleLeaf(v, "width"),
             KStr("height") := DoubleLeaf(v, "height")])
  }

  predicate IsSphere(v: HostVal)
  {
    HasAttr(v, "diameter")
  }

  function SphereTree(v: HostVal): (t: LuaTree)
    requires IsSphere(v)
    ensures t.Node?
  {
    Node(map[KStr("diameter") := DoubleLeaf(v, "diameter")])
  }

  predicate IsCylinder(v: HostVal)
  {
    HasAttr(v, "diameter") && HasAttr(v, "height")
  }

  function CylinderTree(v: HostVal): (t: LuaTree)
    requires IsCylinder(v)
    ensures t.Node?
  {
    Node(map[KStr("diameter") := DoubleLeaf(v, "diameter"), KStr("height") := DoubleLeaf(v, "height")])
  }

  // the ball's collision shape

  predicate IsCollision(v: HostVal)
  {
    && HasAttr(v, "type")
    && HasAttr(v, "box") && IsBox(Attr(v, "box"))
    && HasAttr(v, "sphere") && IsSphere(Attr(v, "sphere"))
    && HasAttr(v, "cylinder") && IsCylinder(Attr(v, "cylinder"))
  }

  function CollisionTree(v: HostVal): (t: LuaTree)
    requires IsCollision(v)
    ensures t.Node?
  {
    Node(map[
      KStr("type") := IntLeaf(v, "type"),
      KStr("box") := BoxTree(Attr(v, "box")),
      KStr("sphere") := SphereTree(Attr(v, "sphere")),
      KStr("cylinder") := CylinderTree(Attr(v, "cylinder"))])
  }

  // the ball

  predicate IsBall(v: HostVal)
  {
    && HasAttr(v, "physics") && IsPhysics(Attr(v, "physics"))
    && HasAttr(v, "latest_touch") && IsTouch(Attr(v, "latest_touch"))
    && HasAttr(v, "drop_shot_info") && IsDropShot(Attr(v, "drop_shot_info"))
    && HasAttr(v, "collision_shape") && IsCollision(Attr(v, "collision_shape"))
  }

  function BallTree(v: HostVal): (t: LuaTree)
    requires IsBall(v)
    ensures t.Node?
    decreases Depth(Ball), 0
  {
    Node(map[
      KStr("physics") := Tree(Physics, Attr(v, "physics")),
      KStr("latest_touch") := Tree(Touch, Attr(v, "latest_touch")),
      KStr("drop_shot_info") := DropShotTree(Attr(v, "drop_shot_info")),
      KStr("collision_shape") := Tree(Collision, Attr(v, "collision_shape"))])
  }

  // the game info

  predicate IsGameInfo(v: HostVal)
  {
    && HasAttr(v, "seconds_elapsed") && HasAttr(v, "game_time_remaining")
    && HasAttr(v, "world_gravity_z") && HasAttr(v, "game_speed")
    && HasAttr(v, "is_overtime") && HasAttr(v, "is_unlimited_time") && HasAttr(v, "is_round_active")
    && HasAttr(v, "is_kickoff_pause") && HasAttr(v, "is_match_ended")
  }

  function GameInfoTree(v: HostVal): (t: LuaTree)
    requires IsGameInfo(v)
    ensures t.Node?
  {
    Node(map[
      KStr("seconds_elapsed") := DoubleLeaf(v, "seconds_elapsed"),
      KStr("game_time_remaining") := DoubleLeaf(v, "game_time_remaining"),
      KStr("world_gravity_z") := DoubleLeaf(v, "world_gravity_z"),
      KStr("game_speed") := DoubleLeaf(v, "game_speed"),
      KStr("is_overtime") := BoolLeaf(v, "is_overtime"),
      KStr("is_unlimited_time") := BoolLeaf(v, "is_unlimited_time"),
      KStr("is_round_active") := BoolLeaf(v, "is_round_active"),
      KStr("is_kickoff_pause") := BoolLeaf(v, "is_kickoff_pause"),
      KStr("is_match_ended") := BoolLeaf(v, "is_match_ended")])
  }

  // ---- indexed lists ----

  /** The first n host items (none when n <= 0) exist and are well-formed. */
  predicate ItemsOk(e: Entity, items: seq<HostVal>, n: int)
    decreases Depth(e), 2
  {
    n <= |items| && forall i :: 0 <= i < n ==> Is(e, items[i])
  }

  /** Attribute name is a host sequence whose first n items are entities e. */
  predicate ListOk(o: HostVal, name: string, e: Entity, n: int)
  {
    ListAt(o, name, n) && ItemsOk(e, Attr(o, name).items, n)
  }

  /** The tables of the first n host items, in host order (none when n <= 0). */
  function ItemTrees(e: Entity, items: seq<HostVal>, n: int): (ts: seq<LuaTree>)
    requires ItemsOk(e, items, n)
    ensures |ts| == if n <= 0 then 0 else n
    decreases Depth(e), 2
    ensures forall i :: 0 <= i < |ts| ==> ts[i] == Tree(e, items[i])
  {
    if n <= 0 then [] else seq(n, i requires 0 <= i < n => Tree(e, items[i]))
  }

  /** The table an indexed loop `for (i = 0; i < n; i++)` builds: key i+1
      holds the table of host item i. */
  function ListOf(e: Entity, items: seq<HostVal>, n: int): (t: LuaTree)
    requires ItemsOk(e, items, n)
    ensures t.Node?
    decreases Depth(e), 3
  {
    var ts := ItemTrees(e, items, n);
    Node(Entries(ts, |ts|))
  }

  /** An indexed loop builds a Lua sequence: exactly the keys 1..n (none
      when n <= 0), key j holding the table of host item j-1 (the j-th of
      ItemTrees). */
  lemma {:induction false} ListOfShape(e: Entity, items: seq<HostVal>, n: int)
    requires ItemsOk(e, items, n)
    ensures forall k :: k in ListOf(e, items, n).fields <==> k.KInt? && 1 <= k.n <= n
    ensures forall j :: 1 <= j <= n ==> ListOf(e, items, n).fields[KInt(j)] == ItemTrees(e, items, n)[j - 1]
  {
    var ts := ItemTrees(e, items, n);
    EntriesShape(ts, |ts|);
  }

  // ---- the packet and the ball forecast ----

  /** The count the decoder reads from the packet: PyLong_AsLong(num_cars). */
  function NumCars(p: HostVal): int
  {
    AsLong(Attr(p, "num_cars"))
  }

  function NumBoosts(p: HostVal): int
  {
    AsLong(Attr(p, "num_boost"))
  }

  function NumTeams(p: HostVal): int
  {
    AsLong(Attr(p, "num_teams"))
  }

  /** The game tick packet as the decoder reads it when its team count is
      teams: the teams loop reads that many host teams. */
  predicate IsPacketWith(v: HostVal, teams: int)
    decreases Depth(Packet), 0
  {
    && HasAttr(v, "num_cars") && ListAt(v, "game_cars", NumCars(v))
    && ItemsOk(Car, Attr(v, "game_cars").items, NumCars(v))
    && HasAttr(v, "num_boost") && ListAt(v, "game_boosts", NumBoosts(v))
    && ItemsOk(Boost, Attr(v, "game_boosts").items, NumBoosts(v))
    && HasAttr(v, "game_ball") && IsBall(Attr(v, "game_ball"))
    && HasAttr(v, "game_info") && IsGameInfo(Attr(v, "game_info"))
    && HasAttr(v, "num_teams") && ListAt(v, "teams", teams)
    && ItemsOk(Team, Attr(v, "teams").items, teams)
  }

  /** The packet table for team count teams: three counts, three lists,
      the ball and the game info; num_teams reports teams. */
  function PacketTreeWith(v: HostVal, teams: int): (t: LuaTree)
    requires IsPacketWith(v, teams)
    ensures t.Node?
    decreases Depth(Packet), 0
  {
    Node(map[
      KStr("num_cars") := Leaf(Integer(NumCars(v))),
      KStr("game_cars") := ListOf(Car, Attr(v, "game_cars").items, NumCars(v)),
      KStr("num_boost") := Leaf(Integer(NumBoosts(v))),
      KStr("game_boosts") := ListOf(Boost, Attr(v, "game_boosts").items, NumBoosts(v)),
      KStr("game_ball") := Tree(Ball, Attr(v, "game_ball")),
      KStr("game_info") := GameInfoTree(Attr(v, "game_info")),
      KStr("num_teams") := Leaf(Integer(teams)),
      KStr("teams") := ListOf(Team, Attr(v, "teams").items, teams)])
  }

  /** The game tick packet, with each list as long as its own count says. */
  predicate IsPacket(v: HostVal)
  {
    IsPacketWith(v, NumTeams(v))
  }

  /** The packet table as evidently intended: the team count is num_teams. */
  function PacketTree(v: HostVal): (t: LuaTree)
    requires IsPacket(v)
    ensures t.Node?
  {
    PacketTreeWith(v, NumTeams(v))
  }

  /** The packet as createLuaPacket reads it: the teams loop runs num_cars
      times. */
  predicate IsPacketAsWritten(v: HostVal)
  {
    IsPacketWith(v, NumCars(v))
  }

  /** The packet table createLuaPacket builds: num_teams and the teams list
      both take their length from num_cars. */
  function PacketAsWrittenTree(v: HostVal): (t: LuaTree)
    requires IsPacketAsWritten(v)
    ensures t.Node?
  {
    PacketTreeWith(v, NumCars(v))
  }

  function NumSlices(p: HostVal): int
  {
    AsLong(Attr(p, "num_slices"))
  }

  /** The ball forecast getBallPrediction reads. */
  predicate IsPrediction(v: HostVal)
    decreases Depth(Prediction), 0
  {
    && HasAttr(v, "num_slices") && ListAt(v, "slices", NumSlices(v))
    && ItemsOk(Slice, Attr(v, "slices").items, NumSlices(v))
  }

  /** The forecast table: the slice count and the list of slices. */
  function PredictionTree(v: HostVal): (t: LuaTree)
    requires IsPrediction(v)
    ensures t.Node?
    decreases Depth(Prediction), 0
  {
    Node(map[KStr("num_slices") := Leaf(Integer(NumSlices(v))),
             KStr("slices") := ListOf(Slice, Attr(v, "slices").items, NumSlices(v))])
  }

  // ---- the team count ----

  /** In the corrected packet table each list is a Lua sequence as long
      as its own count, and num_teams reports the team count. */
  lemma PacketLists(v: HostVal)
    requires IsPacket(v)
    ensures var t := PacketTree(v);
            && t.fields[KStr("num_teams")] == Leaf(Integer(NumTeams(v)))
            && (forall k :: k in t.fields[KStr("game_cars")].fields <==> k.KInt? && 1 <= k.n <= NumCars(v))
            && (forall k :: k in t.fields[KStr("game_boosts")].fields <==> k.KInt? && 1 <= k.n <= NumBoosts(v))
            && (forall k :: k in t.fields[KStr("teams")].fields <==> k.KInt? && 1 <= k.n <= NumTeams(v))
  {
    var cars, boosts, teams := Attr(v, "game_cars").items, Attr(v, "game_boosts").items, Attr(v, "teams").items;
    assert PacketTree(v).fields[KStr("game_cars")] == ListOf(Car, cars, NumCars(v));
    assert PacketTree(v).fields[KStr("game_boosts")] == ListOf(Boost, boosts, NumBoosts(v));
    assert PacketTree(v).fields[KStr("teams")] == ListOf(Team, teams, NumTeams(v));
    ListOfShape(Car, cars, NumCars(v));
    ListOfShape(Boost, boosts, NumBoosts(v));
    ListOfShape(Team, teams, NumTeams(v));
  }

  /** As written, a packet with more cars than teams (every match larger
      than 1v1) is decoded with a wrong num_teams and with team entries
      past the last team, which the host sequence must then supply. */
  lemma PacketTeamsAsWritten(v: HostVal)
    requires IsPacketAsWritten(v) && 0 <= NumTeams(v) < NumCars(v)
    ensures NumCars(v) <= |Attr(v, "teams").items|
    ensures var t := PacketAsWrittenTree(v);
            && t.fields[KStr("num_teams")] != Leaf(Integer(NumTeams(v)))
            && KInt(NumTeams(v) + 1) in t.fields[KStr("teams")].fields
  {
    var items := Attr(v, "teams").items;
    assert PacketAsWrittenTree(v).fields[KStr("teams")] == ListOf(Team, items, NumCars(v));
    ListOfShape(Team, items, NumCars(v));
  }

  // ---- the forecast ----

  /** A slice table holds the four physics fields and game_seconds, and
      nothing else. */
  lemma SliceKeys(v: HostVal)
    requires IsSlice(v)
    ensures Tree(Slice, v).fields.Keys
         == {KStr("location"), KStr("velocity"), KStr("angular_velocity"), KStr("rotation"), KStr("game_seconds")}
  {
    assert Tree(Physics, Attr(v, "physics")) == PhysicsTree(Attr(v, "physics"));
  }

  /** The forecast table reports num_slices and lists exactly that many
      slices, each a table of the five slice fields. */
  lemma PredictionSlices(v: HostVal)
    requires IsPrediction(v)
    ensures var t := PredictionTree(v);
            && t.fields[KStr("num_slices")] == Leaf(Integer(NumSlices(v)))
            && (forall k :: k in t.fields[KStr("slices")].fields <==> k.KInt? && 1 <= k.n <= NumSlices(v))
            && forall j :: 1 <= j <= NumSlices(v) ==>
                 && t.fields[KStr("slices")].fields[KInt(j)].Node?
                 && t.fields[KStr("slices")].fields[KInt(j)].fields.Keys
                   == {KStr("location"), KStr("velocity"), KStr("angular_velocity"), KStr("rotation"),
                       KStr("game_seconds")}
  {
    var items := Attr(v, "slices").items;
    var n := NumSlices(v);
    assert PredictionTree(v).fields[KStr("slices")] == ListOf(Slice, items, n);
    ListOfShape(Slice, items, n);
    forall j | 1 <= j <= n
      ensures ListOf(Slice, items, n).fields[KInt(j)].Node?
      ensures ListOf(Slice, items, n).fields[KInt(j)].fields.Keys
           == {KStr("location"), KStr("velocity"), KStr("angular_velocity"), KStr("rotation"), KStr("game_seconds")}
    {
      assert ItemTrees(Slice, items, n)[j - 1] == Tree(Slice, items[j - 1]);
      SliceKeys(items[j - 1]);
    }
  }
}
