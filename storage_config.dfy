/** The table of storage keys the UI hooks read, with their default values. */
module StorageConfig {
  import opened Wrappers

  /** The `THEME` enum: each member stands for its string value. */
  datatype Theme = Light | Dark

  function ThemeValue(t: Theme): (r: string)
    ensures r == "light" || r == "dark"
  {
    match t
    case Light => "light"
    case Dark => "dark"
  }

  /** The two theme members have distinct values, so a stored string names at most one theme. */
  lemma ThemeValuesDistinct()
    ensures ThemeValue(Light) != ThemeValue(Dark)
    ensures ThemeValue(Light) == "light" && ThemeValue(Dark) == "dark"
  {
  }

  /** A default value as the table writes it: a number, a string or a boolean. */
  datatype DefaultValue = NumberValue(n: int) | TextValue(s: string) | BoolValue(b: bool)

  datatype ConfigEntry = ConfigEntry(key: string, defaultValue: DefaultValue)

  /** `LOCAL_STORAGE_CONFIG`, in declaration order. */
  const LocalStorageConfig: seq<ConfigEntry> := [
    ConfigEntry("calculation", NumberValue(0)),
    ConfigEntry("note", TextValue("")),
    ConfigEntry("flag", BoolValue(false)),
    ConfigEntry("theme", TextValue(ThemeValue(Light)))
  ]

  predicate KeysDistinct(entries: seq<ConfigEntry>) {
    forall i, j :: 0 <= i < j < |entries| ==> entries[i].key != entries[j].key
  }

  /** The table has four entries with distinct keys calculation, note, flag and theme. */
  lemma ConfigTable()
    ensures |LocalStorageConfig| == 4 && KeysDistinct(LocalStorageConfig)
    ensures LocalStorageConfig[0].key == "calculation" && LocalStorageConfig[1].key == "note"
    ensures LocalStorageConfig[2].key == "flag" && LocalStorageConfig[3].key == "theme"
  {
  }

  /** `Array.prototype.find` on the key: the first entry whose key is `key`, if any. */
  function Find(entries: seq<ConfigEntry>, key: string): (r: Option<ConfigEntry>)
    ensures r.Some? ==> r.value in entries && r.value.key == key
    ensures r.Some? ==> exists k :: 0 <= k < |entries| && entries[k] == r.value
                                    && forall j :: 0 <= j < k ==> entries[j].key != key
    ensures r.None? ==> forall e :: e in entries ==> e.key != key
  {
    if entries == [] then None
    else if entries[0].key == key then Some(entries[0])
    else Find(entries[1..], key)
  }

  /** With distinct keys, `find` returns an entry exactly when that entry has the key. */
  lemma {:induction false} FindUnique(entries: seq<ConfigEntry>, key: string, e: ConfigEntry)
    requires KeysDistinct(entries)
    ensures Find(entries, key) == Some(e) <==> e in entries && e.key == key
  {
    if entries != [] && entries[0].key != key {
      assert KeysDistinct(entries[1..]) by {
        forall i, j | 0 <= i < j < |entries[1..]| ensures entries[1..][i].key != entries[1..][j].key {
          assert entries[1..][i] == entries[i + 1] && entries[1..][j] == entries[j + 1];
        }
      }
      FindUnique(entries[1..], key, e);
      assert e in entries && e.key == key ==> e in entries[1..];
    } else if entries != [] {
      if e in entries && e.key == key {
        var k :| 0 <= k < |entries| && entries[k] == e;
        assert k == 0;
      }
    }
  }

  /** `getConfig(key)`. */
  function GetConfig(key: string): Option<ConfigEntry> {
    Find(LocalStorageConfig, key)
  }

  /** `getConfig` returns the unique table entry with the given key, and nothing for other keys. */
  lemma GetConfigUnique(key: string, e: ConfigEntry)
    ensures GetConfig(key) == Some(e) <==> e in LocalStorageConfig && e.key == key
    ensures GetConfig(key).None? <==> key !in {"calculation", "note", "flag", "theme"}
  {
    ConfigTable();
    FindUnique(LocalStorageConfig, key, e);
    if key in {"calculation", "note", "flag", "theme"} {
      assert LocalStorageConfig[0].key == "calculation" && LocalStorageConfig[1].key == "note";
    }
  }

  /** The default a hook passes to storage: the table entry's value when `getConfig`
      finds one, else the hook's own literal fallback. */
  function HookDefault(key: string, fallback: DefaultValue): DefaultValue {
    match GetConfig(key)
    case Some(c) => c.defaultValue
    case None => fallback
  }

  /** Each hook finds its entry, and the entry's value equals the hook's own fallback literal,
      so the fallback branch could never change a default. */
  lemma HookDefaultsAgree()
    ensures GetConfig("calculation").Some? && HookDefault("calculation", NumberValue(0)) == NumberValue(0)
    ensures GetConfig("note").Some? && HookDefault("note", TextValue("")) == TextValue("")
    ensures GetConfig("flag").Some? && HookDefault("flag", BoolValue(false)) == BoolValue(false)
    ensures GetConfig("theme").Some? && HookDefault("theme", TextValue(ThemeValue(Light))) == TextValue("light")
  {
    var t := LocalStorageConfig;
    GetConfigUnique("calculation", t[0]);
    GetConfigUnique("note", t[1]);
    GetConfigUnique("flag", t[2]);
    GetConfigUnique("theme", t[3]);
    assert t[0] in t && t[1] in t && t[2] in t && t[3] in t;
  }

  /** Decimal digits of a natural number, as JavaScript writes an integer. */
  function NatToString(n: nat): string
    decreases n
  {
    var d := ['0', '1', '2', '3', '4', '5', '6', '7', '8', '9'][n % 10];
    if n < 10 then [d] else NatToString(n / 10) + [d]
  }

  /** A default value as it reads when interpolated into a template string. */
  function Render(v: DefaultValue): string {
    match v
    case NumberValue(n) => if n < 0 then "-" + NatToString(-n) else NatToString(n)
    case TextValue(s) => s
    case BoolValue(b) => if b then "true" else "false"
  }

  /** What a storage read yields for a key that holds nothing: the table default, and `null`
      for a key outside the table. */
  function DefaultText(key: string): (r: string)
    ensures GetConfig(key).Some? ==> r == Render(GetConfig(key).value.defaultValue)
    ensures GetConfig(key).None? ==> r == "null"
  {
    match GetConfig(key)
    case Some(c) => Render(c.defaultValue)
    case None => "null"
  }

  /** What each key reads as while nothing is stored under it: "0", "", "false" and "light"
      for the four table keys, "null" for any other key. */
  lemma UnsetKeyReads(key: string)
    ensures key == "calculation" ==> DefaultText(key) == "0"
    ensures key == "note" ==> DefaultText(key) == ""
    ensures key == "flag" ==> DefaultText(key) == "false"
    ensures key == "theme" ==> DefaultText(key) == "light"
    ensures key !in {"calculation", "note", "flag", "theme"} ==> DefaultText(key) == "null"
  {
  }
}
