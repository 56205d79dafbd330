/**
 * The configuration helpers of `src-tauri/src/config.rs`: the records of the
 * configuration, the list of explicitly configured session names, the
 * conversion between a YAML document tree and a serde value tree, and the
 * in-place update of a YAML document from a configuration.
 */
module Config {
  import opened Wrappers
  import opened Text

  datatype ArduinoConfig = ArduinoConfig(enabled: bool, comPort: string, baudRate: U32)
  datatype KeybindConfig = KeybindConfig(key: string, action: string)
  datatype MixerConfig = MixerConfig(enabled: bool, hotkey: Option<string>)
  datatype SystemConfig = SystemConfig(autostart: bool, showConsole: bool)

  /** A configured session; `encoder` is the position of its field on a serial line. */
  datatype SessionConfig = SessionConfig(name: string, encoder: U8, keybinds: Option<seq<KeybindConfig>>)

  datatype Config = Config(arduino: ArduinoConfig, sessions: seq<SessionConfig>, mixer: MixerConfig, system: SystemConfig)

  /** The reserved session name standing for every session not configured explicitly. */
  const Other: string := "other"

  predicate IsOther(name: string) {
    ToLower(name) == Other
  }

  /**
   * `get_defined_session_names`: the lower-cased names of the configured
   * sessions, in configuration order, leaving out every session named
   * "other" in any letter case.
   */
  function DefinedSessionNames(sessions: seq<SessionConfig>): (names: seq<string>)
    ensures Other !in names
    ensures |names| <= |sessions|
    ensures forall i :: 0 <= i < |sessions| && !IsOther(sessions[i].name) ==> ToLower(sessions[i].name) in names
    ensures forall n :: n in names ==> exists i :: 0 <= i < |sessions| && n == ToLower(sessions[i].name)
  {
    if sessions == [] then []
    else
      var rest := DefinedSessionNames(sessions[1..]);
      assert forall i :: 1 <= i < |sessions| ==> sessions[i] == sessions[1..][i - 1];
      if IsOther(sessions[0].name) then rest else [ToLower(sessions[0].name)] + rest
  }

  /** The names of a concatenation are the names of each part, in order. */
  lemma {:induction false} DefinedSessionNamesAppend(a: seq<SessionConfig>, b: seq<SessionConfig>)
    ensures DefinedSessionNames(a + b) == DefinedSessionNames(a) + DefinedSessionNames(b)
  {
    if a != [] {
      var head := if IsOther(a[0].name) then [] else [ToLower(a[0].name)];
      assert (a + b)[1..] == a[1..] + b && (a + b)[0] == a[0];
      assert DefinedSessionNames(a) == head + DefinedSessionNames(a[1..]);
      assert DefinedSessionNames(a + b) == head + DefinedSessionNames(a[1..] + b);
      DefinedSessionNamesAppend(a[1..], b);
      assert head + (DefinedSessionNames(a[1..]) + DefinedSessionNames(b))
          == (head + DefinedSessionNames(a[1..])) + DefinedSessionNames(b);
    } else {
      assert a + b == b;
    }
  }

  /** A session contributes exactly one name, unless it is "other". */
  lemma DefinedSessionNamesOne(s: SessionConfig)
    ensures DefinedSessionNames([s]) == if IsOther(s.name) then [] else [ToLower(s.name)]
  {
    assert [s][1..] == [];
  }

  // ----- YAML document trees (yaml_rust::Yaml) and serde values (serde_yaml::Value) -----

  /** A YAML node; `Hash` keeps its entries in insertion order. Floating-point nodes are not modelled. */
  datatype Yaml =
    | Integer(i: I64)
    | String(s: string)
    | Boolean(b: bool)
    | Array(items: seq<Yaml>)
    | Hash(entries: seq<YamlEntry>)
    | Null
    | Alias(id: nat)
    | BadValue

  datatype YamlEntry = YamlEntry(key: Yaml, value: Yaml)

  /** A serde value; `Mapping` keeps its entries in insertion order. */
  datatype Value =
    | Null
    | Bool(b: bool)
    | Number(n: I64)
    | String(s: string)
    | Sequence(items: seq<Value>)
    | Mapping(entries: seq<ValueEntry>)
    | Tagged(tag: string, value: Value)

  datatype ValueEntry = ValueEntry(key: Value, value: Value)

  function HashKeys(entries: seq<YamlEntry>): (keys: seq<Yaml>)
    ensures |keys| == |entries|
    ensures forall k :: 0 <= k < |entries| ==> keys[k] == entries[k].key
  {
    seq(|entries|, k requires 0 <= k < |entries| => entries[k].key)
  }

  /** A YAML hash never holds one key twice. */
  predicate DistinctKeys(entries: seq<YamlEntry>) {
    forall i, j :: 0 <= i < j < |entries| ==> entries[i].key != entries[j].key
  }

  /** True of a YAML tree without alias or bad-value nodes: exactly the trees that convert. */
  predicate Convertible(y: Yaml) {
    match y
    case Alias(_) => false
    case BadValue => false
    case Array(items) => forall k :: 0 <= k < |items| ==> Convertible(items[k])
    case Hash(entries) => forall k :: 0 <= k < |entries| ==> ConvertibleEntry(entries[k], y)
    case _ => true
  }

  predicate ConvertibleEntry(e: YamlEntry, ghost parent: Yaml)
    requires parent.Hash? && e in parent.entries
    decreases parent, 0
  {
    assert e.key < e && e.value < e;
    Convertible(e.key) && Convertible(e.value)
  }

  /** True of a YAML tree whose hashes, at every depth, hold each key once, as a loaded document does. */
  predicate WellFormed(y: Yaml) {
    match y
    case Array(items) => forall k :: 0 <= k < |items| ==> WellFormed(items[k])
    case Hash(entries) =>
      DistinctKeys(entries) && forall k :: 0 <= k < |entries| ==> WellFormedEntry(entries[k], y)
    case _ => true
  }

  predicate WellFormedEntry(e: YamlEntry, ghost parent: Yaml)
    requires parent.Hash? && e in parent.entries
    decreases parent, 0
  {
    assert e.key < e && e.value < e;
    WellFormed(e.key) && WellFormed(e.value)
  }

  /** `yaml_to_value`: converts node by node; an alias or bad node panics (`None`). */
  function YamlToValue(y: Yaml): (r: Option<Value>)
    decreases y
  {
    match y
    case Integer(i) => Some(Value.Number(i))
    case String(s) => Some(Value.String(s))
    case Boolean(b) => Some(Value.Bool(b))
    case Array(items) =>
      (match ItemsToValues(items)
       case Some(vs) => Some(Value.Sequence(vs))
       case None => None)
    case Hash(entries) =>
      (match EntriesToValues(entries)
       case Some(ves) => Some(Value.Mapping(ves))
       case None => None)
    case Null => Some(Value.Null)
    case Alias(_) => None
    case BadValue => None
  }

  function ItemsToValues(items: seq<Yaml>): (r: Option<seq<Value>>)
    ensures r.Some? ==> |r.value| == |items|
    decreases items
  {
    if items == [] then Some([])
    else
      match (YamlToValue(items[0]), ItemsToValues(items[1..]))
      case (Some(v), Some(vs)) => Some([v] + vs)
      case _ => None
  }

  function EntriesToValues(entries: seq<YamlEntry>): (r: Option<seq<ValueEntry>>)
    ensures r.Some? ==> |r.value| == |entries|
    decreases entries
  {
    if entries == [] then Some([])
    else
      var e := entries[0];
      assert e in entries && e.key < e && e.value < e;
      match (YamlToValue(e.key), YamlToValue(e.value), EntriesToValues(entries[1..]))
      case (Some(k), Some(v), Some(rest)) => Some([ValueEntry(k, v)] + rest)
      case _ => None
  }

  /** The value stored under `key` in a YAML hash. */
  function Lookup(entries: seq<YamlEntry>, key: Yaml): (r: Option<Yaml>)
    ensures r.None? <==> key !in HashKeys(entries)
  {
    if entries == [] then None
    else if entries[0].key == key then Some(entries[0].value)
    else Lookup(entries[1..], key)
  }

  function RemoveKey(entries: seq<YamlEntry>, key: Yaml): (r: seq<YamlEntry>)
    ensures key !in HashKeys(r)
    ensures forall e :: e in r ==> e in entries
    ensures key !in HashKeys(entries) ==> r == entries
  {
    if entries == [] then []
    else if entries[0].key == key then RemoveKey(entries[1..], key)
    else [entries[0]] + RemoveKey(entries[1..], key)
  }

  /**
   * `LinkedHashMap::insert` on a YAML hash: a new key is appended; an
   * existing key gets the new value and moves to the end.
   */
  function HashInsert(entries: seq<YamlEntry>, key: Yaml, value: Yaml): seq<YamlEntry> {
    RemoveKey(entries, key) + [YamlEntry(key, value)]
  }

  /** Lookup after insert: the inserted key has the new value, every other key is unchanged. */
  lemma {:induction false} LookupHashInsert(entries: seq<YamlEntry>, key: Yaml, value: Yaml, other: Yaml)
    ensures Lookup(HashInsert(entries, key, value), key) == Some(value)
    ensures other != key ==> Lookup(HashInsert(entries, key, value), other) == Lookup(entries, other)
  {
    LookupRemoveKey(entries, key, other);
    LookupAppend(RemoveKey(entries, key), YamlEntry(key, value), key);
    LookupAppend(RemoveKey(entries, key), YamlEntry(key, value), other);
  }

  lemma {:induction false} LookupRemoveKey(entries: seq<YamlEntry>, key: Yaml, other: Yaml)
    ensures other != key ==> Lookup(RemoveKey(entries, key), other) == Lookup(entries, other)
  {
    if entries != [] {
      LookupRemoveKey(entries[1..], key, other);
    }
  }

  lemma {:induction false} LookupAppend(entries: seq<YamlEntry>, e: YamlEntry, key: Yaml)
    ensures Lookup(entries + [e], key) ==
      if key in HashKeys(entries) then Lookup(entries, key)
      else if e.key == key then Some(e.value) else None
  {
    if entries != [] {
      assert (entries + [e])[1..] == entries[1..] + [e];
      LookupAppend(entries[1..], e, key);
    } else {
      assert [] + [e] == [e];
    }
  }

  /** Inserting keeps the keys of a hash distinct. */
  lemma {:induction false} HashInsertDistinct(entries: seq<YamlEntry>, key: Yaml, value: Yaml)
    requires DistinctKeys(entries)
    ensures DistinctKeys(HashInsert(entries, key, value))
  {
    RemoveKeyDistinct(entries, key);
  }

  lemma {:induction false} RemoveKeyDistinct(entries: seq<YamlEntry>, key: Yaml)
    requires DistinctKeys(entries)
    ensures DistinctKeys(RemoveKey(entries, key))
  {
    if entries != [] {
      var tail := entries[1..];
      RemoveKeyDistinct(tail, key);
      var rest := RemoveKey(tail, key);
      if entries[0].key != key {
        forall e | e in rest ensures e.key != entries[0].key {
          var m :| 0 <= m < |tail| && tail[m] == e;
          assert entries[m + 1] == e;
        }
        ConsDistinct(entries[0], rest);
      }
    }
  }

  /** An entry whose key no later entry has, in front of distinct entries. */
  lemma ConsDistinct(x: YamlEntry, rest: seq<YamlEntry>)
    requires DistinctKeys(rest)
    requires forall e :: e in rest ==> e.key != x.key
    ensures DistinctKeys([x] + rest)
  {
    var r := [x] + rest;
    forall i, j | 0 <= i < j < |r| ensures r[i].key != r[j].key {
      assert r[j] == rest[j - 1];
      if i > 0 {
        assert r[i] == rest[i - 1];
      }
    }
  }

  /** `value_to_yaml`: converts node by node, dropping tags; a mapping is rebuilt by successive inserts. */
  function ValueToYaml(v: Value): (r: Yaml)
    decreases v
  {
    match v
    case Null => Yaml.Null
    case Bool(b) => Yaml.Boolean(b)
    case Number(n) => Yaml.Integer(n)
    case String(s) => Yaml.String(s)
    case Sequence(items) => Yaml.Array(ValuesToYamls(items))
    case Mapping(entries) => Yaml.Hash(InsertAll([], entries, v))
    case Tagged(_, inner) => ValueToYaml(inner)
  }

  function ValuesToYamls(items: seq<Value>): (r: seq<Yaml>)
    ensures |r| == |items|
    decreases items
  {
    if items == [] then [] else [ValueToYaml(items[0])] + ValuesToYamls(items[1..])
  }

  /** The hash `hash` after inserting the converted `entries` one after another. */
  function InsertAll(hash: seq<YamlEntry>, entries: seq<ValueEntry>, ghost parent: Value): seq<YamlEntry>
    requires parent.Mapping? && forall e :: e in entries ==> e in parent.entries
    decreases parent, |entries|
  {
    if entries == [] then hash
    else
      var e := entries[0];
      assert e in parent.entries && e.key < e && e.value < e;
      InsertAll(HashInsert(hash, ValueToYaml(e.key), ValueToYaml(e.value)), entries[1..], parent)
  }

  // ----- Properties of the conversions -----

  /** `yaml_to_value` keeps the length and order of an array, converting item by item. */
  lemma {:induction false} ItemsToValuesPointwise(items: seq<Yaml>)
    requires forall k :: 0 <= k < |items| ==> YamlToValue(items[k]).Some?
    ensures ItemsToValues(items).Some?
    ensures forall k :: 0 <= k < |items| ==> ItemsToValues(items).value[k] == YamlToValue(items[k]).value
  {
    if items != [] {
      ItemsToValuesPointwise(items[1..]);
    }
  }

  /** `yaml_to_value` keeps the order of a hash, converting each key and value. */
  lemma {:induction false} EntriesToValuesPointwise(entries: seq<YamlEntry>)
    requires forall k :: 0 <= k < |entries| ==> YamlToValue(entries[k].key).Some? && YamlToValue(entries[k].value).Some?
    ensures EntriesToValues(entries).Some?
    ensures forall k :: 0 <= k < |entries| ==>
      EntriesToValues(entries).value[k] == ValueEntry(YamlToValue(entries[k].key).value, YamlToValue(entries[k].value).value)
  {
    if entries != [] {
      EntriesToValuesPointwise(entries[1..]);
    }
  }

  lemma {:induction false} ValuesToYamlsPointwise(items: seq<Value>)
    ensures forall k :: 0 <= k < |items| ==> ValuesToYamls(items)[k] == ValueToYaml(items[k])
  {
    if items != [] {
      ValuesToYamlsPointwise(items[1..]);
    }
  }

  /** A node converts, rather than panicking, exactly when it holds no alias or bad-value node. */
  lemma {:induction false} YamlToValueSucceeds(y: Yaml)
    ensures YamlToValue(y).Some? <==> Convertible(y)
    decreases y
  {
    match y
    case Array(items) =>
      forall k | 0 <= k < |items| ensures YamlToValue(items[k]).Some? <==> Convertible(items[k]) {
        YamlToValueSucceeds(items[k]);
      }
      if Convertible(y) {
        ItemsToValuesPointwise(items);
      } else {
        var k :| 0 <= k < |items| && !Convertible(items[k]);
        ItemsFailAt(items, k);
      }
    case Hash(entries) =>
      forall k | 0 <= k < |entries|
        ensures YamlToValue(entries[k].key).Some? && YamlToValue(entries[k].value).Some? <==> ConvertibleEntry(entries[k], y)
      {
        var e := entries[k];
        assert e in entries && e.key < e && e.value < e;
        YamlToValueSucceeds(e.key);
        YamlToValueSucceeds(e.value);
      }
      if Convertible(y) {
        EntriesToValuesPointwise(entries);
      } else {
        var k :| 0 <= k < |entries| && !ConvertibleEntry(entries[k], y);
        EntriesFailAt(entries, k);
      }
    case _ =>
  }

  lemma {:induction false} ItemsFailAt(items: seq<Yaml>, k: nat)
    requires k < |items| && YamlToValue(items[k]).None?
    ensures ItemsToValues(items).None?
  {
    if k > 0 {
      ItemsFailAt(items[1..], k - 1);
    }
  }

  lemma {:induction false} EntriesFailAt(entries: seq<YamlEntry>, k: nat)
    requires k < |entries| && (YamlToValue(entries[k].key).None? || YamlToValue(entries[k].value).None?)
    ensures EntriesToValues(entries).None?
  {
    if k > 0 {
      EntriesFailAt(entries[1..], k - 1);
    }
  }

  /**
   * Converting to a value and back gives the original tree, for every
   * alias-free tree whose hashes hold each key once.
   */
  lemma {:induction false} ValueToYamlOfYamlToValue(y: Yaml)
    requires Convertible(y) && WellFormed(y)
    ensures YamlToValue(y).Some? && ValueToYaml(YamlToValue(y).value) == y
    decreases y
  {
    YamlToValueSucceeds(y);
    match y
    case Array(items) =>
      forall k | 0 <= k < |items| ensures YamlToValue(items[k]).Some? && ValueToYaml(YamlToValue(items[k]).value) == items[k] {
        ValueToYamlOfYamlToValue(items[k]);
      }
      ItemsToValuesPointwise(items);
      var vs := ItemsToValues(items).value;
      ValuesToYamlsPointwise(vs);
      assert ValuesToYamls(vs) == items;
    case Hash(entries) =>
      forall k | 0 <= k < |entries|
        ensures YamlToValue(entries[k].key).Some? && ValueToYaml(YamlToValue(entries[k].key).value) == entries[k].key
        ensures YamlToValue(entries[k].value).Some? && ValueToYaml(YamlToValue(entries[k].value).value) == entries[k].value
      {
        var e := entries[k];
        assert e in entries && e.key < e && e.value < e;
        assert ConvertibleEntry(e, y) && WellFormedEntry(e, y);
        ValueToYamlOfYamlToValue(e.key);
        ValueToYamlOfYamlToValue(e.value);
      }
      EntriesToValuesPointwise(entries);
      var ves := EntriesToValues(entries).value;
      var v := Value.Mapping(ves);
      InsertAllDistinct([], ves, v, entries);
      assert [] + entries == entries;
    case _ =>
  }

  /**
   * Inserting converted entries whose keys are new and distinct appends
   * them in order.
   */
  lemma {:induction false} InsertAllDistinct(hash: seq<YamlEntry>, ves: seq<ValueEntry>, parent: Value, entries: seq<YamlEntry>)
    requires parent.Mapping? && forall e :: e in ves ==> e in parent.entries
    requires |ves| == |entries|
    requires forall k :: 0 <= k < |ves| ==>
      ValueToYaml(ves[k].key) == entries[k].key && ValueToYaml(ves[k].value) == entries[k].value
    requires DistinctKeys(hash + entries)
    ensures InsertAll(hash, ves, parent) == hash + entries
    decreases |ves|
  {
    if ves != [] {
      var e := entries[0];
      assert e.key !in HashKeys(hash) by {
        forall i | 0 <= i < |hash| ensures hash[i].key != e.key {
          assert (hash + entries)[i] == hash[i] && (hash + entries)[|hash|] == e;
        }
      }
      assert HashInsert(hash, e.key, e.value) == hash + [e];
      assert (hash + [e]) + entries[1..] == hash + entries;
      InsertAllDistinct(hash + [e], ves[1..], parent, entries[1..]);
    } else {
      assert hash + entries == hash;
    }
  }

  /** The value with every tag removed, at every depth. */
  function StripTags(v: Value): (r: Value)
    decreases v
  {
    match v
    case Tagged(_, inner) => StripTags(inner)
    case Sequence(items) => Value.Sequence(StripItems(items))
    case Mapping(entries) => Value.Mapping(StripEntries(entries, v))
    case _ => v
  }

  function StripItems(items: seq<Value>): (r: seq<Value>)
    ensures |r| == |items|
    decreases items
  {
    if items == [] then [] else [StripTags(items[0])] + StripItems(items[1..])
  }

  function StripEntries(entries: seq<ValueEntry>, ghost parent: Value): (r: seq<ValueEntry>)
    requires parent.Mapping? && forall e :: e in entries ==> e in parent.entries
    ensures |r| == |entries|
    decreases parent, |entries|
  {
    if entries == [] then []
    else
      var e := entries[0];
      assert e in parent.entries && e.key < e && e.value < e;
      [ValueEntry(StripTags(e.key), StripTags(e.value))] + StripEntries(entries[1..], parent)
  }

  /** `value_to_yaml` ignores tags: a value converts exactly like the value with all its tags removed. */
  lemma {:induction false} ValueToYamlIgnoresTags(v: Value)
    ensures ValueToYaml(StripTags(v)) == ValueToYaml(v)
    decreases v
  {
    match v
    case Tagged(_, inner) => ValueToYamlIgnoresTags(inner);
    case Sequence(items) => StripItemsConvert(items, v);
    case Mapping(entries) => StripEntriesConvert([], entries, v, Value.Mapping(StripEntries(entries, v)));
    case _ =>
  }

  lemma {:induction false} StripItemsConvert(items: seq<Value>, parent: Value)
    requires parent.Sequence? && forall x :: x in items ==> x in parent.items
    ensures ValuesToYamls(StripItems(items)) == ValuesToYamls(items)
    decreases parent, |items|
  {
    if items != [] {
      assert items[0] in parent.items;
      ValueToYamlIgnoresTags(items[0]);
      StripItemsConvert(items[1..], parent);
    }
  }

  lemma {:induction false} StripEntriesConvert(hash: seq<YamlEntry>, entries: seq<ValueEntry>, parent: Value, stripped: Value)
    requires parent.Mapping? && forall e :: e in entries ==> e in parent.entries
    requires stripped.Mapping? && forall e :: e in StripEntries(entries, parent) ==> e in stripped.entries
    ensures InsertAll(hash, StripEntries(entries, parent), stripped) == InsertAll(hash, entries, parent)
    decreases parent, |entries|
  {
    if entries != [] {
      var e := entries[0];
      assert e in parent.entries && e.key < e && e.value < e;
      ValueToYamlIgnoresTags(e.key);
      ValueToYamlIgnoresTags(e.value);
      var rest := StripEntries(entries, parent);
      assert rest[1..] == StripEntries(entries[1..], parent);
      StripEntriesConvert(HashInsert(hash, ValueToYaml(e.key), ValueToYaml(e.value)), entries[1..], parent, stripped);
    }
  }

  // ----- serde serialisation of the configuration records (field names and order of the structs) -----

  function Field(name: string, value: Value): ValueEntry {
    ValueEntry(Value.String(name), value)
  }

  function ArduinoValue(a: ArduinoConfig): Value {
    Value.Mapping([Field("enabled", Value.Bool(a.enabled)), Field("com_port", Value.String(a.comPort)),
                   Field("baud_rate", Value.Number(a.baudRate))])
  }

  function KeybindValue(k: KeybindConfig): Value {
    Value.Mapping([Field("key", Value.String(k.key)), Field("action", Value.String(k.action))])
  }

  function SessionValue(s: SessionConfig): Value {
    var keybinds := match s.keybinds
      case None => Value.Null
      case Some(ks) => Value.Sequence(seq(|ks|, i requires 0 <= i < |ks| => KeybindValue(ks[i])));
    Value.Mapping([Field("name", Value.String(s.name)), Field("encoder", Value.Number(s.encoder)),
                   Field("keybinds", keybinds)])
  }

  function SessionsValue(sessions: seq<SessionConfig>): Value {
    Value.Sequence(seq(|sessions|, i requires 0 <= i < |sessions| => SessionValue(sessions[i])))
  }

  function MixerValue(m: MixerConfig): Value {
    var hotkey := match m.hotkey
      case None => Value.Null
      case Some(h) => Value.String(h);
    Value.Mapping([Field("enabled", Value.Bool(m.enabled)), Field("hotkey", hotkey)])
  }

  function SystemValue(s: SystemConfig): Value {
    Value.Mapping([Field("autostart", Value.Bool(s.autostart)), Field("show_console", Value.Bool(s.showConsole))])
  }

  /** The four top-level keys that saving a configuration rewrites. */
  const ConfigKeys: seq<string> := ["arduino", "sessions", "mixer", "system"]

  /** What `update_yaml_from_config` stores under each of the four keys. */
  function ConfigField(config: Config, key: string): Value
    requires key in ConfigKeys
  {
    if key == "arduino" then ArduinoValue(config.arduino)
    else if key == "sessions" then SessionsValue(config.sessions)
    else if key == "mixer" then MixerValue(config.mixer)
    else SystemValue(config.system)
  }

  /** `update_yaml_field`: the hash with `key` set to the converted `value`. */
  function UpdatedField(entries: seq<YamlEntry>, key: string, value: Value): seq<YamlEntry> {
    HashInsert(entries, Yaml.String(key), ValueToYaml(value))
  }

  /** `update_yaml_from_config`: the document after the four fields are written in order. */
  function UpdatedRoot(root: Yaml, config: Config): Yaml {
    match root
    case Hash(entries) =>
      var e1 := UpdatedField(entries, "arduino", ArduinoValue(config.arduino));
      var e2 := UpdatedField(e1, "sessions", SessionsValue(config.sessions));
      var e3 := UpdatedField(e2, "mixer", MixerValue(config.mixer));
      Yaml.Hash(UpdatedField(e3, "system", SystemValue(config.system)))
    case _ => root
  }

  /** A document that is not a hash is left as it is; a hash stays a hash. */
  lemma UpdatedRootShape(root: Yaml, config: Config)
    ensures !root.Hash? ==> UpdatedRoot(root, config) == root
    ensures root.Hash? ==> UpdatedRoot(root, config).Hash?
  {
  }

  /** Saving a configuration into a hash document sets each of the four configuration keys to its field. */
  lemma UpdatedRootSets(root: Yaml, config: Config, i: nat)
    requires root.Hash? && i < |ConfigKeys|
    ensures Lookup(UpdatedRoot(root, config).entries, Yaml.String(ConfigKeys[i]))
         == Some(ValueToYaml(ConfigField(config, ConfigKeys[i])))
  {
    var k := Yaml.String(ConfigKeys[i]);
    var v1, v2, v3, v4 := ArduinoValue(config.arduino), SessionsValue(config.sessions), MixerValue(config.mixer), SystemValue(config.system);
    var e1 := UpdatedField(root.entries, "arduino", v1);
    var e2 := UpdatedField(e1, "sessions", v2);
    var e3 := UpdatedField(e2, "mixer", v3);
    assert UpdatedRoot(root, config).entries == UpdatedField(e3, "system", v4);
    LookupHashInsert(e3, Yaml.String("system"), ValueToYaml(v4), k);
    if i == 3 {
      assert ConfigField(config, ConfigKeys[i]) == v4;
    } else {
      LookupHashInsert(e2, Yaml.String("mixer"), ValueToYaml(v3), k);
      if i == 2 {
        assert ConfigField(config, ConfigKeys[i]) == v3;
      } else {
        LookupHashInsert(e1, Yaml.String("sessions"), ValueToYaml(v2), k);
        if i == 1 {
          assert ConfigField(config, ConfigKeys[i]) == v2;
        } else {
          LookupHashInsert(root.entries, Yaml.String("arduino"), ValueToYaml(v1), k);
          assert ConfigField(config, ConfigKeys[i]) == v1;
        }
      }
    }
  }

  /** Saving a configuration into a hash document leaves the value of every other key unchanged. */
  lemma UpdatedRootKeeps(root: Yaml, config: Config, key: Yaml)
    requires root.Hash? && !(key.String? && key.s in ConfigKeys)
    ensures Lookup(UpdatedRoot(root, config).entries, key) == Lookup(root.entries, key)
  {
    var v1, v2, v3, v4 := ArduinoValue(config.arduino), SessionsValue(config.sessions), MixerValue(config.mixer), SystemValue(config.system);
    var e1 := UpdatedField(root.entries, "arduino", v1);
    var e2 := UpdatedField(e1, "sessions", v2);
    var e3 := UpdatedField(e2, "mixer", v3);
    assert UpdatedRoot(root, config).entries == UpdatedField(e3, "system", v4);
    LookupHashInsert(e3, Yaml.String("system"), ValueToYaml(v4), key);
    LookupHashInsert(e2, Yaml.String("mixer"), ValueToYaml(v3), key);
    LookupHashInsert(e1, Yaml.String("sessions"), ValueToYaml(v2), key);
    LookupHashInsert(root.entries, Yaml.String("arduino"), ValueToYaml(v1), key);
  }

  /** Saving a configuration into a hash document with distinct keys keeps them distinct. */
  lemma UpdatedRootDistinct(root: Yaml, config: Config)
    requires root.Hash? && DistinctKeys(root.entries)
    ensures UpdatedRoot(root, config).Hash? && DistinctKeys(UpdatedRoot(root, config).entries)
  {
    var entries := root.entries;
    var v1, v2, v3, v4 := ArduinoValue(config.arduino), SessionsValue(config.sessions), MixerValue(config.mixer), SystemValue(config.system);
    var e1 := UpdatedField(entries, "arduino", v1);
    var e2 := UpdatedField(e1, "sessions", v2);
    var e3 := UpdatedField(e2, "mixer", v3);
    HashInsertDistinct(entries, Yaml.String("arduino"), ValueToYaml(v1));
    HashInsertDistinct(e1, Yaml.String("sessions"), ValueToYaml(v2));
    HashInsertDistinct(e2, Yaml.String("mixer"), ValueToYaml(v3));
    HashInsertDistinct(e3, Yaml.String("system"), ValueToYaml(v4));
  }

  /** The YAML document being saved, updated in place. */
  class ConfigDocument {
    var root: Yaml

    constructor (root: Yaml)
      ensures this.root == root
    {
      this.root := root;
    }

    /** `update_yaml_field`: sets `key` of the hash document to the converted `value`. */
    method UpdateField(key: string, value: Value)
      requires root.Hash?
      modifies this
      ensures root == Yaml.Hash(UpdatedField(old(root).entries, key, value))
    {
      var yamlValue := ValueToYaml(value);
      root := Yaml.Hash(HashInsert(root.entries, Yaml.String(key), yamlValue));
    }

    /** `update_yaml_from_config`: rewrites the four configuration keys of a hash document. */
    method UpdateFromConfig(config: Config)
      modifies this
      ensures root == UpdatedRoot(old(root), config)
    {
      if root.Hash? {
        UpdateField("arduino", ArduinoValue(config.arduino));
        UpdateField("sessions", SessionsValue(config.sessions));
        UpdateField("mixer", MixerValue(config.mixer));
        UpdateField("system", SystemValue(config.system));
      }
    }
  }
}
