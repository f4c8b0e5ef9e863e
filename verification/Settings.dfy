/**
The nested settings NetworkManager hands to the plugin, flattened into one map of normalized
keys. Go ranges over the nested maps in an order of its own choice.
*/
module Settings {
  import opened Wrappers
  import opened Text
  import opened Ordering

  /**
  A D-Bus value: a string, something printed as one (bytes, a boolean, an integer), a list, a
  table, or another type.
  */
  datatype Variant =
    | Str(text: string)
    | Printed(text: string)
    | Strings(strings: seq<string>)
    | Items(items: seq<Variant>)
    | Table(table: map<string, Variant>)
    | Other

  type Section = map<string, Variant>
  type ConnectionSettings = map<string, Section>

  const INTERFACE_NAME := "interfacename"
  const SETTINGS_PREFIX := "org.freedesktop.networkmanager.settings."

  function NormalizeSection(section: string): string {
    var s := ToLower(TrimSpace(section));
    if SETTINGS_PREFIX <= s then s[|SETTINGS_PREFIX|..] else s
  }

  /** A section goes by its short name and by the name of the settings interface alike. */
  lemma SectionNames(section: string, name: string)
    requires !(SETTINGS_PREFIX <= name)
    ensures NormalizeSection(section) == name <==>
              ToLower(TrimSpace(section)) == name || ToLower(TrimSpace(section)) == SETTINGS_PREFIX + name
  {
    var s := ToLower(TrimSpace(section));
    assert SETTINGS_PREFIX <= s ==> s == SETTINGS_PREFIX + s[|SETTINGS_PREFIX|..];
    assert (SETTINGS_PREFIX + name)[|SETTINGS_PREFIX|..] == name;
  }

  function AsString(v: Variant): Option<string> {
    match v
    case Str(text) => Some(text)
    case Printed(text) => Some(text)
    case _ => None
  }

  function AsTable(v: Variant): map<string, string> {
    match v
    case Table(table) => map k | k in table && AsString(table[k]).Some? :: AsString(table[k]).value
    case _ => map[]
  }

  // ---------- the meaning, without any order of iteration ----------

  /** The four sources of bindings; a later one wins over an earlier one. */
  datatype Group = Connection | Scalars | Data | Secrets {
    function Rank(): nat {
      match this case Connection => 0 case Scalars => 1 case Data => 2 case Secrets => 3
    }
    function Name(): string {
      if this == Connection then "connection" else "vpn"
    }
  }

  /** A value for a normalized key, and where in the nested maps it comes from. */
  datatype Binding = Binding(group: Group, section: string, key: string, inner: string, name: string, value: string)

  predicate Precedes(a: Binding, b: Binding) {
    || a.group.Rank() < b.group.Rank()
    || (a.group == b.group && (
          || Less(a.section, b.section)
          || (a.section == b.section && (Less(a.key, b.key) || (a.key == b.key && Less(a.inner, b.inner))))))
  }

  predicate TakesKey(group: Group, key: string) {
    match group
    case Connection => NormalizeKey(key) == INTERFACE_NAME
    case Scalars => NormalizeKey(key) != "data" && NormalizeKey(key) != "secrets" && NormalizeKey(key) != ""
    case Data => NormalizeKey(key) == "data"
    case Secrets => NormalizeKey(key) == "secrets"
  }

  predicate BoundIn(b: Binding, v: Variant) {
    if b.group == Connection || b.group == Scalars then
      b.inner == "" && b.name == NormalizeKey(b.key) && AsString(v).Some? && b.value == TrimSpace(AsString(v).value)
    else
      && b.inner in AsTable(v) && b.name == NormalizeKey(b.inner) && b.name != ""
      && b.value == TrimSpace(AsTable(v)[b.inner])
  }

  predicate IsBinding(settings: ConnectionSettings, b: Binding) {
    && b.section in settings && NormalizeSection(b.section) == b.group.Name()
    && b.key in settings[b.section] && TakesKey(b.group, b.key)
    && BoundIn(b, settings[b.section][b.key])
  }

  /** `b` is the binding of its name that no other binding of that name comes after. */
  ghost predicate Wins(settings: ConnectionSettings, b: Binding) {
    && IsBinding(settings, b)
    && forall c :: IsBinding(settings, c) && c.name == b.name && c != b ==> Precedes(c, b)
  }

  // ---------- the ordered lists the code goes through ----------

  datatype Entry = Entry(section: string, key: string, variant: Variant) {
    function Kind(): string { NormalizeKey(key) }
  }

  function SectionEntries(section: string, values: Section, keys: seq<string>): seq<Entry>
    requires forall k :: k in keys ==> k in values
  {
    seq(|keys|, i requires 0 <= i < |keys| => Entry(section, keys[i], values[keys[i]]))
  }

  ghost function EntriesOf(settings: ConnectionSettings, name: string, sections: seq<string>): seq<Entry>
    requires forall s :: s in sections ==> s in settings
  {
    if sections == [] then [] else
      var front, s := sections[..|sections| - 1], sections[|sections| - 1];
      EntriesOf(settings, name, front)
      + (if NormalizeSection(s) == name then SectionEntries(s, settings[s], SortedKeys(settings[s].Keys)) else [])
  }

  ghost function Entries(settings: ConnectionSettings, name: string): seq<Entry> {
    EntriesOf(settings, name, SortedKeys(settings.Keys))
  }

  function ScalarBinding(g: Group, e: Entry): seq<Binding> {
    match AsString(e.variant)
    case None => []
    case Some(text) => [Binding(g, e.section, e.key, "", e.Kind(), TrimSpace(text))]
  }

  function InnerBindings(g: Group, e: Entry, keys: seq<string>): seq<Binding>
    requires forall k :: k in keys ==> k in AsTable(e.variant)
  {
    if keys == [] then [] else
      var front, k := keys[..|keys| - 1], keys[|keys| - 1];
      InnerBindings(g, e, front)
      + (if NormalizeKey(k) != "" then
           [Binding(g, e.section, e.key, k, NormalizeKey(k), TrimSpace(AsTable(e.variant)[k]))]
         else
           [])
  }

  ghost function EntryBindings(g: Group, e: Entry): seq<Binding> {
    if !TakesKey(g, e.key) then []
    else if g == Connection || g == Scalars then ScalarBinding(g, e)
    else InnerBindings(g, e, SortedKeys(AsTable(e.variant).Keys))
  }

  ghost function Gather(g: Group, entries: seq<Entry>): seq<Binding> {
    if entries == [] then [] else
      Gather(g, entries[..|entries| - 1]) + EntryBindings(g, entries[|entries| - 1])
  }

  ghost function Bindings(settings: ConnectionSettings): seq<Binding> {
    Gather(Connection, Entries(settings, "connection")) + Gather(Scalars, Entries(settings, "vpn"))
    + Gather(Data, Entries(settings, "vpn")) + Gather(Secrets, Entries(settings, "vpn"))
  }

  function Store(values: map<string, string>, bindings: seq<Binding>): map<string, string> {
    if bindings == [] then values else
      var b := bindings[|bindings| - 1];
      Store(values, bindings[..|bindings| - 1])[b.name := b.value]
  }

  ghost function Flatten(settings: ConnectionSettings): map<string, string> {
    Store(map[], Bindings(settings))
  }

  lemma {:induction false} StoreAppend(values: map<string, string>, a: seq<Binding>, b: seq<Binding>)
    ensures Store(values, a + b) == Store(Store(values, a), b)
  {
    if b == [] {
      assert a + b == a;
    } else {
      var n := |b| - 1;
      assert (a + b)[..|a + b| - 1] == a + b[..n];
      StoreAppend(values, a, b[..n]);
    }
  }

  ghost function MergeInner(values: map<string, string>, g: Group, e: Entry, keys: seq<string>): map<string, string>
    requires forall k :: k in keys ==> k in AsTable(e.variant)
  {
    Store(values, InnerBindings(g, e, keys))
  }

  lemma NextInner(values: map<string, string>, g: Group, e: Entry, keys: seq<string>, i: nat)
    requires i < |keys| && forall k :: k in keys ==> k in AsTable(e.variant)
    ensures var before := MergeInner(values, g, e, keys[..i]);
            MergeInner(values, g, e, keys[..i + 1]) ==
              if NormalizeKey(keys[i]) != "" then before[NormalizeKey(keys[i]) :=
                  TrimSpace(AsTable(e.variant)[keys[i]])] else before
  {
    var key := keys[i];
    assert keys[..i + 1] == keys[..i] + [key] && (keys[..i] + [key])[..i] == keys[..i];
    var b := Binding(g, e.section, e.key, key, NormalizeKey(key), TrimSpace(AsTable(e.variant)[key]));
    var inner := InnerBindings(g, e, keys[..i]);
    assert (inner + [b])[..|inner|] == inner && inner + [] == inner;
  }

  // ---------- the code ----------

  method SortedSectionSettings(settings: ConnectionSettings, name: string) returns (entries: seq<Entry>)
    ensures entries == Entries(settings, name)
  {
    var sections := CollectAndSort(settings.Keys);
    entries := [];
    for i := 0 to |sections|
      invariant entries == EntriesOf(settings, name, sections[..i])
    {
      var section := sections[i];
      assert sections[..i + 1][..i] == sections[..i] && section in settings;
      if NormalizeSection(section) == name {
        var keys := CollectAndSort(settings[section].Keys);
        entries := entries + SectionEntries(section, settings[section], keys);
      }
    }
    assert sections[..|sections|] == sections;
  }

  /** The map that the merge functions write to. */
  class Target {
    var values: map<string, string>

    constructor ()
      ensures values == map[]
    {
      values := map[];
    }

    method MergeScalarSetting(g: Group, e: Entry)
      requires (g == Connection || g == Scalars) && (e.Kind() == "" || TakesKey(g, e.key))
      modifies this
      ensures values == Store(old(values), EntryBindings(g, e))
    {
      if e.Kind() == "" {
        return;
      }
      match AsString(e.variant)
      case None =>
      case Some(text) =>
        values := values[e.Kind() := TrimSpace(text)];
    }

    method MergeInterfaceName(e: Entry)
      modifies this
      ensures values == Store(old(values), EntryBindings(Connection, e))
    {
      if e.Kind() == INTERFACE_NAME {
        MergeScalarSetting(Connection, e);
      }
    }

    method MergeNormalizedStringMap(g: Group, e: Entry)
      requires (g == Data || g == Secrets) && TakesKey(g, e.key)
      modifies this
      ensures values == Store(old(values), EntryBindings(g, e))
    {
      var src := AsTable(e.variant);
      var keys := CollectAndSort(src.Keys);
      for i := 0 to |keys|
        invariant values == MergeInner(old(values), g, e, keys[..i])
      {
        var key := keys[i];
        NextInner(old(values), g, e, keys, i);
        if NormalizeKey(key) != "" {
          values := values[NormalizeKey(key) := TrimSpace(src[key])];
        }
      }
      assert keys[..|keys|] == keys;
    }
  }

  ghost function Merge(values: map<string, string>, g: Group, entries: seq<Entry>): map<string, string> {
    Store(values, Gather(g, entries))
  }

  lemma NextEntry(values: map<string, string>, g: Group, entries: seq<Entry>, i: nat)
    requires i < |entries|
    ensures Merge(values, g, entries[..i + 1]) == Store(Merge(values, g, entries[..i]), EntryBindings(g, entries[i]))
  {
    assert entries[..i + 1][..i] == entries[..i];
    StoreAppend(values, Gather(g, entries[..i]), EntryBindings(g, entries[i]));
  }

  method MergeConnection(values: Target, entries: seq<Entry>)
    modifies values
    ensures values.values == Merge(old(values.values), Connection, entries)
  {
    for i := 0 to |entries|
      invariant values.values == Merge(old(values.values), Connection, entries[..i])
    {
      var e := entries[i];
      NextEntry(old(values.values), Connection, entries, i);
      values.MergeInterfaceName(e);
    }
    assert entries[..|entries|] == entries;
  }

  method MergeScalars(values: Target, entries: seq<Entry>)
    modifies values
    ensures values.values == Merge(old(values.values), Scalars, entries)
  {
    for i := 0 to |entries|
      invariant values.values == Merge(old(values.values), Scalars, entries[..i])
    {
      var e := entries[i];
      NextEntry(old(values.values), Scalars, entries, i);
      if e.Kind() == "data" || e.Kind() == "secrets" {
        continue;
      }
      values.MergeScalarSetting(Scalars, e);
    }
    assert entries[..|entries|] == entries;
  }

  method MergeNested(values: Target, g: Group, nestedKey: string, entries: seq<Entry>)
    requires (g == Data && nestedKey == "data") || (g == Secrets && nestedKey == "secrets")
    modifies values
    ensures values.values == Merge(old(values.values), g, entries)
  {
    for i := 0 to |entries|
      invariant values.values == Merge(old(values.values), g, entries[..i])
    {
      var e := entries[i];
      NextEntry(old(values.values), g, entries, i);
      if e.Kind() != nestedKey {
        continue;
      }
      values.MergeNormalizedStringMap(g, e);
    }
    assert entries[..|entries|] == entries;
  }

  /** Whatever order the maps are ranged over, the result is this one map. */
  method FlattenConnectionSettings(settings: ConnectionSettings) returns (flat: map<string, string>)
    ensures flat == Flatten(settings)
  {
    var values := new Target();
    var connection := SortedSectionSettings(settings, "connection");
    MergeConnection(values, connection);
    var vpn := SortedSectionSettings(settings, "vpn");
    MergeScalars(values, vpn);
    MergeNested(values, Data, "data", vpn);
    MergeNested(values, Secrets, "secrets", vpn);
    flat := values.values;
    InFourParts(Gather(Connection, connection), Gather(Scalars, vpn), Gather(Data, vpn), Gather(Secrets, vpn));
  }

  lemma {:induction false} InFourParts(a: seq<Binding>, b: seq<Binding>, c: seq<Binding>, d: seq<Binding>)
    ensures Store(map[], a + b + c + d) == Store(Store(Store(Store(map[], a), b), c), d)
  {
    StoreAppend(map[], a + b + c, d);
    StoreAppend(map[], a + b, c);
    StoreAppend(map[], a, b);
  }
}
