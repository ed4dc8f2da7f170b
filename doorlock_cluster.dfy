/**
 * The schema of the vendor-extended Door Lock cluster: the attributes and the
 * commands the lock understands, with their ids, data types, directions and
 * argument order. Only the tables are modelled; framing bytes on the wire is
 * the Zigbee library's job.
 */
module DoorLockCluster {
  import opened Results
  import opened JsValues

  /** One named value of an 8-bit enumeration. */
  datatype EnumMember = EnumMember(name: string, value: nat)

  /** The ZCL data types the cluster declares. */
  datatype ZclType =
    | UInt8
    | UInt16
    | UInt32
    | Boolean
    | Buffer
    | Enum8(members: seq<EnumMember>)

  datatype AttributeDef = AttributeDef(name: string, id: nat, dataType: ZclType)

  /** Who sends a command: the client (the hub) or the server (the lock). */
  datatype Direction = ClientToServer | ServerToClient

  datatype ArgDef = ArgDef(name: string, dataType: ZclType)

  /** A command of the cluster; `direction` is None where the table leaves it to the library default. */
  datatype CommandDef = CommandDef(name: string, id: nat, direction: Option<Direction>, args: seq<ArgDef>)

  // Attributes

  const LockStateValues: seq<EnumMember> := [EnumMember("LOCKED", 0x01), EnumMember("UNLOCKED", 0x02)]

  const LockState := AttributeDef("lockState", 0x0000, Enum8(LockStateValues))
  /** Auto-relock flag in device units (0 disabled, 1 enabled). */
  const AutoRelockTime := AttributeDef("autoRelockTime", 0x0023, UInt32)
  /** Sound volume in device units (0 off, 1 low, 2 normal). */
  const SoundVolume := AttributeDef("soundVolume", 0x0024, UInt8)
  /** The undocumented event report: user id, reserved, reason, source. */
  const EventReport := AttributeDef("eventReport", 0x0100, Buffer)

  const Attributes: seq<AttributeDef> := [LockState, AutoRelockTime, SoundVolume, EventReport]

  // Commands

  const UserStatusValues: seq<EnumMember> := [EnumMember("AVAILABLE", 0x00), EnumMember("OCCUPIED", 0x01)]
  const UserTypeValues: seq<EnumMember> := [EnumMember("UNRESTRICTED", 0x00)]

  const Lock := CommandDef("lock", 0x00, None, [])
  const Unlock := CommandDef("unlock", 0x01, None, [])
  const SetPinCode := CommandDef("setPinCode", 0x05, Some(ClientToServer), [
    ArgDef("userId", UInt16),
    ArgDef("userStatus", Enum8(UserStatusValues)),
    ArgDef("userType", Enum8(UserTypeValues)),
    ArgDef("pinLength", UInt8),
    ArgDef("pin", Buffer)
  ])
  const SetPinCodeResponse := CommandDef("setPinCodeResponse", 0x05, Some(ServerToClient), [ArgDef("success", UInt8)])
  const ClearPinCode := CommandDef("clearPinCode", 0x07, Some(ClientToServer), [ArgDef("userId", UInt16)])
  const ClearPinCodeResponse := CommandDef("clearPinCodeResponse", 0x07, Some(ServerToClient), [ArgDef("success", Boolean)])

  const Commands: seq<CommandDef> := [Lock, Unlock, SetPinCode, SetPinCodeResponse, ClearPinCode, ClearPinCodeResponse]

  // Lookups

  function AttributeWithId(table: seq<AttributeDef>, id: nat): Option<AttributeDef> {
    if table == [] then None
    else if table[0].id == id then Some(table[0])
    else AttributeWithId(table[1..], id)
  }

  function AttributeNamed(table: seq<AttributeDef>, name: string): Option<AttributeDef> {
    if table == [] then None
    else if table[0].name == name then Some(table[0])
    else AttributeNamed(table[1..], name)
  }

  function CommandWith(table: seq<CommandDef>, id: nat, direction: Option<Direction>): Option<CommandDef> {
    if table == [] then None
    else if table[0].id == id && table[0].direction == direction then Some(table[0])
    else CommandWith(table[1..], id, direction)
  }

  function CommandNamed(table: seq<CommandDef>, name: string): Option<CommandDef> {
    if table == [] then None
    else if table[0].name == name then Some(table[0])
    else CommandNamed(table[1..], name)
  }

  ghost predicate AttributeIdsDistinct(table: seq<AttributeDef>) {
    forall i, j :: 0 <= i < j < |table| ==> table[i].id != table[j].id
  }

  ghost predicate AttributeNamesDistinct(table: seq<AttributeDef>) {
    forall i, j :: 0 <= i < j < |table| ==> table[i].name != table[j].name
  }

  ghost predicate CommandKeysDistinct(table: seq<CommandDef>) {
    forall i, j :: 0 <= i < j < |table| ==>
      (table[i].id, table[i].direction) != (table[j].id, table[j].direction)
  }

  ghost predicate CommandNamesDistinct(table: seq<CommandDef>) {
    forall i, j :: 0 <= i < j < |table| ==> table[i].name != table[j].name
  }

  /** In a table with unique ids, looking up an entry's id finds that entry; an unused id finds nothing. */
  lemma {:induction false} AttributeWithIdFinds(table: seq<AttributeDef>, id: nat)
    requires AttributeIdsDistinct(table)
    ensures forall i :: 0 <= i < |table| && table[i].id == id ==> AttributeWithId(table, id) == Some(table[i])
    ensures (forall i :: 0 <= i < |table| ==> table[i].id != id) ==> AttributeWithId(table, id) == None
  {
    if table != [] {
      AttributeWithIdFinds(table[1..], id);
      forall i | 1 <= i < |table| && table[i].id == id
        ensures AttributeWithId(table, id) == Some(table[i])
      {
        assert table[1..][i - 1] == table[i];
      }
    }
  }

  /** In a table with unique names, looking up an entry's name finds that entry; an unused name finds nothing. */
  lemma {:induction false} AttributeNamedFinds(table: seq<AttributeDef>, name: string)
    requires AttributeNamesDistinct(table)
    ensures forall i :: 0 <= i < |table| && table[i].name == name ==> AttributeNamed(table, name) == Some(table[i])
    ensures (forall i :: 0 <= i < |table| ==> table[i].name != name) ==> AttributeNamed(table, name) == None
  {
    if table != [] {
      AttributeNamedFinds(table[1..], name);
      forall i | 1 <= i < |table| && table[i].name == name
        ensures AttributeNamed(table, name) == Some(table[i])
      {
        assert table[1..][i - 1] == table[i];
      }
    }
  }

  /** In a table whose (id, direction) pairs are unique, looking up a pair finds its one command. */
  lemma {:induction false} CommandWithFinds(table: seq<CommandDef>, id: nat, direction: Option<Direction>)
    requires CommandKeysDistinct(table)
    ensures forall i :: 0 <= i < |table| && table[i].id == id && table[i].direction == direction ==>
      CommandWith(table, id, direction) == Some(table[i])
    ensures (forall i :: 0 <= i < |table| ==> (table[i].id, table[i].direction) != (id, direction)) ==>
      CommandWith(table, id, direction) == None
  {
    if table != [] {
      CommandWithFinds(table[1..], id, direction);
      forall i | 1 <= i < |table| && table[i].id == id && table[i].direction == direction
        ensures CommandWith(table, id, direction) == Some(table[i])
      {
        assert table[1..][i - 1] == table[i];
      }
    }
  }

  /** In a table with unique names, looking up a command's name finds that command. */
  lemma {:induction false} CommandNamedFinds(table: seq<CommandDef>, name: string)
    requires CommandNamesDistinct(table)
    ensures forall i :: 0 <= i < |table| && table[i].name == name ==> CommandNamed(table, name) == Some(table[i])
    ensures (forall i :: 0 <= i < |table| ==> table[i].name != name) ==> CommandNamed(table, name) == None
  {
    if table != [] {
      CommandNamedFinds(table[1..], name);
      forall i | 1 <= i < |table| && table[i].name == name
        ensures CommandNamed(table, name) == Some(table[i])
      {
        assert table[1..][i - 1] == table[i];
      }
    }
  }

  /** The cluster's attributes have pairwise distinct ids and names, so each is found by either. */
  lemma AttributeTableUnique()
    ensures AttributeIdsDistinct(Attributes) && AttributeNamesDistinct(Attributes)
    ensures forall a :: a in Attributes ==> AttributeWithId(Attributes, a.id) == Some(a)
    ensures forall a :: a in Attributes ==> AttributeNamed(Attributes, a.name) == Some(a)
  {
    AttributeWithIdFinds(Attributes, LockState.id);
    AttributeWithIdFinds(Attributes, AutoRelockTime.id);
    AttributeWithIdFinds(Attributes, SoundVolume.id);
    AttributeWithIdFinds(Attributes, EventReport.id);
    AttributeNamedFinds(Attributes, LockState.name);
    AttributeNamedFinds(Attributes, AutoRelockTime.name);
    AttributeNamedFinds(Attributes, SoundVolume.name);
    AttributeNamedFinds(Attributes, EventReport.name);
  }

  /** The ids, types and lock-state values the lock firmware expects; no other id names an attribute. */
  lemma AttributeLayout()
    ensures AttributeNamed(Attributes, "lockState") == Some(AttributeDef("lockState", 0x0000, Enum8(LockStateValues)))
    ensures LockStateValues == [EnumMember("LOCKED", 0x01), EnumMember("UNLOCKED", 0x02)]
    ensures AttributeNamed(Attributes, "autoRelockTime") == Some(AttributeDef("autoRelockTime", 0x0023, UInt32))
    ensures AttributeNamed(Attributes, "soundVolume") == Some(AttributeDef("soundVolume", 0x0024, UInt8))
    ensures AttributeNamed(Attributes, "eventReport") == Some(AttributeDef("eventReport", 0x0100, Buffer))
    ensures forall id: nat :: id !in {0x0000, 0x0023, 0x0024, 0x0100} ==> AttributeWithId(Attributes, id) == None
  {
    AttributeTableUnique();
    forall id: nat | id !in {0x0000, 0x0023, 0x0024, 0x0100} ensures AttributeWithId(Attributes, id) == None {
      AttributeWithIdFinds(Attributes, id);
    }
  }

  /** No two commands share both id and direction, and no two share a name. */
  lemma CommandTableDistinct()
    ensures CommandKeysDistinct(Commands) && CommandNamesDistinct(Commands)
  {
    assert Commands[0].name != Commands[1].name && Commands[0].name != Commands[2].name;
    assert Commands[2].name != Commands[3].name && Commands[4].name != Commands[5].name;
  }

  /**
   * Command ids are shared between a request and its response, but (id, direction) is unique
   * and so is every name, so each command is found by either; lock is 0 and unlock is 1.
   */
  lemma CommandTableUnique()
    ensures CommandKeysDistinct(Commands) && CommandNamesDistinct(Commands)
    ensures forall c :: c in Commands ==> CommandWith(Commands, c.id, c.direction) == Some(c)
    ensures forall c :: c in Commands ==> CommandNamed(Commands, c.name) == Some(c)
    ensures Lock.id == 0 && Unlock.id == 1
    ensures SetPinCode.id == SetPinCodeResponse.id == 0x05
    ensures SetPinCode.direction == Some(ClientToServer) && SetPinCodeResponse.direction == Some(ServerToClient)
    ensures ClearPinCode.id == ClearPinCodeResponse.id == 0x07
    ensures ClearPinCode.direction == Some(ClientToServer) && ClearPinCodeResponse.direction == Some(ServerToClient)
  {
    CommandTableDistinct();
    forall i | 0 <= i < |Commands|
      ensures CommandWith(Commands, Commands[i].id, Commands[i].direction) == Some(Commands[i])
      ensures CommandNamed(Commands, Commands[i].name) == Some(Commands[i])
    {
      CommandWithFinds(Commands, Commands[i].id, Commands[i].direction);
      CommandNamedFinds(Commands, Commands[i].name);
    }
  }

  /** The argument names of a command, in declaration (and so wire) order. */
  function ArgNames(args: seq<ArgDef>): (names: seq<string>)
    ensures |names| == |args|
    ensures forall i :: 0 <= i < |args| ==> names[i] == args[i].name
  {
    if args == [] then [] else [args[0].name] + ArgNames(args[1..])
  }

  /** The pin commands' argument layouts: positional, fixed order, no optional fields. */
  lemma PinCommandLayouts()
    ensures ArgNames(SetPinCode.args) == ["userId", "userStatus", "userType", "pinLength", "pin"]
    ensures SetPinCode.args[0].dataType == UInt16 && SetPinCode.args[3].dataType == UInt8
    ensures SetPinCode.args[4].dataType == Buffer
    ensures SetPinCode.args[1].dataType == Enum8([EnumMember("AVAILABLE", 0), EnumMember("OCCUPIED", 1)])
    ensures SetPinCode.args[2].dataType == Enum8([EnumMember("UNRESTRICTED", 0)])
    ensures ClearPinCode.args == [ArgDef("userId", UInt16)]
  {
  }

  // Conformance of argument values to a layout

  /** A command argument value as handed to the cluster. */
  datatype ArgValue = IntValue(n: int) | BufferValue(bytes: seq<uint8>)

  /** The value is acceptable for the declared type. */
  predicate Fits(t: ZclType, v: ArgValue) {
    match t
    case UInt8 => v.IntValue? && 0 <= v.n < 0x100
    case UInt16 => v.IntValue? && 0 <= v.n < 0x1_0000
    case UInt32 => v.IntValue? && 0 <= v.n < 0x1_0000_0000
    case Boolean => v.IntValue? && 0 <= v.n <= 1
    case Buffer => v.BufferValue?
    case Enum8(members) => v.IntValue? && exists m :: m in members && m.value == v.n
  }

  /** Named values match the layout position by position, each fitting its declared type. */
  predicate Conforms(args: seq<ArgDef>, values: seq<(string, ArgValue)>) {
    |values| == |args| &&
    forall i :: 0 <= i < |args| ==> values[i].0 == args[i].name && Fits(args[i].dataType, values[i].1)
  }
}
