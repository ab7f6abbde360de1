/** The sensor platform: the fixed catalogue of twelve player metrics, the
    entity built for each of them, and the coercion that turns the value
    read from the coordinator's data into the sensor's state. */
module Sensor {
  import opened Wrappers
  import Json

  /** Home Assistant's `SensorStateClass`; the catalogue uses one member. */
  datatype StateClass = TotalIncreasing

  /** One catalogue row: JSON key, display name, icon, unit, state class. */
  datatype Row = Row(key: string, name: string, icon: string, unit: Option<string>,
                     stateClass: Option<StateClass>)

  const Sensors: seq<Row> := [
    Row("money", "Money", "mdi:cash", None, None),
    Row("shards", "Shards", "mdi:diamond-stone", None, None),
    Row("kills", "Kills", "mdi:sword", Some("kills"), Some(TotalIncreasing)),
    Row("deaths", "Deaths", "mdi:skull", Some("deaths"), Some(TotalIncreasing)),
    Row("playtime", "Playtime", "mdi:clock-outline", Some("raw"), Some(TotalIncreasing)),
    Row("placed_blocks", "Placed Blocks", "mdi:cube-outline", Some("blocks"), Some(TotalIncreasing)),
    Row("broken_blocks", "Broken Blocks", "mdi:pickaxe", Some("blocks"), Some(TotalIncreasing)),
    Row("mobs_killed", "Mobs Killed", "mdi:spider", Some("mobs"), Some(TotalIncreasing)),
    Row("money_spent_on_shop", "Money Spent (Shop)", "mdi:cash-minus", None, Some(TotalIncreasing)),
    Row("money_made_from_sell", "Money Made (Sell)", "mdi:cash-plus", None, Some(TotalIncreasing)),
    Row("location", "Location", "mdi:map-marker", None, None),
    Row("rank", "Rank", "mdi:crown", None, None)
  ]

  /** The keys `native_value` converts to a float. */
  const MoneyKeys: seq<string> := ["money", "money_spent_on_shop", "money_made_from_sell"]

  /** The keys `native_value` converts to an integer by way of a float. */
  const CountKeys: seq<string> :=
    ["kills", "deaths", "shards", "mobs_killed", "placed_blocks", "broken_blocks", "playtime"]

  /** The catalogue's keys, in table order. */
  function Keys(): (keys: seq<string>)
    ensures |keys| == |Sensors|
    ensures forall i :: 0 <= i < |Sensors| ==> keys[i] == Sensors[i].key
  {
    seq(|Sensors|, i requires 0 <= i < |Sensors| => Sensors[i].key)
  }

  lemma KeysValue()
    ensures Keys() == ["money", "shards", "kills", "deaths", "playtime", "placed_blocks",
                       "broken_blocks", "mobs_killed", "money_spent_on_shop",
                       "money_made_from_sell", "location", "rank"]
  {
  }

  /** The catalogue has twelve rows and no key occurs in two of them. */
  lemma CatalogueKeysDistinct()
    ensures |Sensors| == 12
    ensures forall i, j :: 0 <= i < j < |Sensors| ==> Sensors[i].key != Sensors[j].key
  {
    KeysValue();
    var keys := Keys();
    forall i, j | 0 <= i < j < |Sensors| ensures Sensors[i].key != Sensors[j].key {
      assert keys[i] == Sensors[i].key && keys[j] == Sensors[j].key;
    }
  }

  /** The two conversion lists are disjoint and both lie in the catalogue;
      `location` and `rank` are in neither, and every other catalogue key is
      in one of them. */
  lemma KeyListsPartition()
    ensures forall k :: k in MoneyKeys ==> k !in CountKeys
    ensures forall k :: k in MoneyKeys || k in CountKeys ==> k in Keys()
    ensures "location" !in MoneyKeys + CountKeys && "rank" !in MoneyKeys + CountKeys
    ensures |MoneyKeys| + |CountKeys| + 2 == |Keys()|
    ensures forall k :: k in Keys() ==> k in MoneyKeys || k in CountKeys || k == "location" || k == "rank"
  {
    KeysValue();
  }

  /** The state `native_value` reports: None, a float, an int, or the value
      read, unchanged. */
  datatype NativeValue = Unknown | FloatState(x: real) | IntState(n: int) | Unchanged(raw: Json.Value)

  /** Python's `float(v)` on a value read from the coordinator's data.
      Parsing a string is the abstract `parse`; `None`, lists and dicts
      raise `TypeError`, here `None`. */
  function FloatOf(v: Json.Value, parse: string -> Option<real>): (r: Option<real>)
    ensures v.Null? || v.Array? || v.Object? ==> r.None?
    ensures v.Str? ==> r == parse(v.s)
    ensures v.Bool? || v.Int? || v.Float? ==> r.Some? && (r.value == 0.0 <==> !Json.Truthy(v))
    ensures v.Int? ==> r == Some(v.i as real) && Trunc(r.value) == v.i
    ensures v.Float? ==> r == Some(v.f)
    ensures v.Bool? ==> r == Some(if v.b then 1.0 else 0.0)
  {
    match v
    case Bool(b) => Some(if b then 1.0 else 0.0)
    case Int(i) => Some(i as real)
    case Float(f) => Some(f)
    case Str(s) => parse(s)
    case _ => None
  }

  /** Python's `int(x)` on a finite float: truncation toward zero. */
  function Trunc(x: real): (n: int)
    ensures x >= 0.0 ==> 0 <= n && n as real <= x < n as real + 1.0
    ensures x <= 0.0 ==> n <= 0 && n as real - 1.0 < x <= n as real
  {
    if x >= 0.0 then x.Floor else -((-x).Floor)
  }

  /** `DonutSMPSensor.native_value` for the sensor of `key`, with `data` the
      coordinator's data: a missing or `None` value is Unknown; a money key
      becomes `float(value)`, a count key `int(float(value))`; any other key,
      and a conversion that raises, gives the value back unchanged. */
  function NativeValueOf(key: string, data: map<string, Json.Value>,
                         parse: string -> Option<real>): (r: NativeValue)
    ensures r.Unknown? <==> key !in data || data[key] == Json.Null
    ensures r.Unchanged? ==> key in data && r.raw == data[key]
    ensures r.FloatState? ==> key in MoneyKeys && key in data && FloatOf(data[key], parse) == Some(r.x)
    ensures r.IntState? ==>
      key in CountKeys && key in data && exists x :: FloatOf(data[key], parse) == Some(x) && r.n == Trunc(x)
  {
    var value := if key in data then data[key] else Json.Null;
    if value == Json.Null then Unknown
    else if key in MoneyKeys then
      match FloatOf(value, parse)
      case Some(x) => FloatState(x)
      case None => Unchanged(value)
    else if key in CountKeys then
      match FloatOf(value, parse)
      case Some(x) => IntState(Trunc(x))
      case None => Unchanged(value)
    else Unchanged(value)
  }

  /** A money key whose value converts reports that float. */
  lemma MoneyConverted(key: string, data: map<string, Json.Value>, parse: string -> Option<real>, x: real)
    requires key in MoneyKeys && key in data
    requires FloatOf(data[key], parse) == Some(x)
    ensures NativeValueOf(key, data, parse) == FloatState(x)
  {
  }

  /** A count key whose value converts reports the truncated float. */
  lemma CountConverted(key: string, data: map<string, Json.Value>, parse: string -> Option<real>, x: real)
    requires key in CountKeys && key in data
    requires FloatOf(data[key], parse) == Some(x)
    ensures NativeValueOf(key, data, parse) == IntState(Trunc(x))
  {
    KeyListsPartition();
  }

  /** A present value that is not converted, because its key is in neither
      list or because its conversion raises, is reported as read. */
  lemma PassThrough(key: string, data: map<string, Json.Value>, parse: string -> Option<real>)
    requires key in data && data[key] != Json.Null
    requires (key !in MoneyKeys && key !in CountKeys) || FloatOf(data[key], parse).None?
    ensures NativeValueOf(key, data, parse) == Unchanged(data[key])
  {
  }

  /** `native_value` with its two list tests in the other order. */
  function NativeValueCountFirst(key: string, data: map<string, Json.Value>,
                                 parse: string -> Option<real>): NativeValue
  {
    var value := if key in data then data[key] else Json.Null;
    if value == Json.Null then Unknown
    else if key in CountKeys then
      match FloatOf(value, parse)
      case Some(x) => IntState(Trunc(x))
      case None => Unchanged(value)
    else if key in MoneyKeys then
      match FloatOf(value, parse)
      case Some(x) => FloatState(x)
      case None => Unchanged(value)
    else Unchanged(value)
  }

  /** Because the lists are disjoint, the order of the two tests never
      changes the state reported. */
  lemma TestOrderIrrelevant(key: string, data: map<string, Json.Value>, parse: string -> Option<real>)
    ensures NativeValueOf(key, data, parse) == NativeValueCountFirst(key, data, parse)
  {
    KeyListsPartition();
  }

  /** A count value written in scientific notation is truncated to an
      integer; a value that does not parse is left as it is. */
  lemma CountExamples(parse: string -> Option<real>)
    requires parse("1.2e5") == Some(120000.0) && parse("abc") == None
    ensures NativeValueOf("kills", map["kills" := Json.Str("1.2e5")], parse) == IntState(120000)
    ensures NativeValueOf("kills", map["kills" := Json.Str("abc")], parse) == Unchanged(Json.Str("abc"))
  {
    CountConverted("kills", map["kills" := Json.Str("1.2e5")], parse, 120000.0);
    assert Trunc(120000.0) == 120000;
  }

  /** The entity's unique id: the user name, an underscore, the key. */
  function UniqueId(username: string, key: string): (id: string)
    ensures |id| == |username| + 1 + |key|
    ensures id[..|username|] == username && id[|username|] == '_' && id[|username| + 1..] == key
  {
    username + "_" + key
  }

  /** For one user, different keys give different unique ids. */
  lemma UniqueIdKeyInjective(username: string, k1: string, k2: string)
    requires UniqueId(username, k1) == UniqueId(username, k2)
    ensures k1 == k2
  {
    assert k1 == UniqueId(username, k1)[|username| + 1..];
  }

  /** What `DonutSMPSensor.__init__` stores. */
  datatype DonutSensor = DonutSensor(username: string, key: string, name: string, icon: string,
                                     unit: Option<string>, stateClass: Option<StateClass>,
                                     uniqueId: string, hasEntityName: bool)

  /** `DonutSMPSensor.__init__` for one catalogue row: the row's key, name,
      icon, unit and state class, an entity name, and the unique id of the
      user and the key. */
  function NewSensor(username: string, row: Row): (s: DonutSensor)
    ensures s.username == username && s.key == row.key && s.hasEntityName
    ensures s.name == row.name && s.icon == row.icon && s.unit == row.unit && s.stateClass == row.stateClass
    ensures |s.uniqueId| == |username| + 1 + |row.key|
    ensures s.uniqueId[..|username|] == username && s.uniqueId[|username|] == '_'
    ensures s.uniqueId[|username| + 1..] == row.key
  {
    DonutSensor(username, row.key, row.name, row.icon, row.unit, row.stateClass,
                UniqueId(username, row.key), true)
  }

  /** `async_setup_entry`: one sensor per catalogue row, in table order, all
      for the entry's user; their unique ids are pairwise different. */
  method SetupEntry(username: string) returns (entities: seq<DonutSensor>)
    ensures |entities| == |Sensors|
    ensures forall i :: 0 <= i < |Sensors| ==> entities[i] == NewSensor(username, Sensors[i])
    ensures forall i, j :: 0 <= i < j < |entities| ==> entities[i].uniqueId != entities[j].uniqueId
  {
    entities := [];
    for i := 0 to |Sensors|
      invariant |entities| == i
      invariant forall k :: 0 <= k < i ==> entities[k] == NewSensor(username, Sensors[k])
    {
      entities := entities + [NewSensor(username, Sensors[i])];
    }
    CatalogueKeysDistinct();
    forall i, j | 0 <= i < j < |entities| ensures entities[i].uniqueId != entities[j].uniqueId {
      if entities[i].uniqueId == entities[j].uniqueId {
        UniqueIdKeyInjective(username, Sensors[i].key, Sensors[j].key);
      }
    }
  }
}
