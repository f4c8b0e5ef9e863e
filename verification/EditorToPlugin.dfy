/**
From the editor to the plugin: NetworkManager hands the items that the editor saved to the
plugin in the vpn section of the connection's settings, and the plugin flattens them. Strings
are of Unicode characters here.
*/
module EditorToPlugin {
  import opened Wrappers
  import opened Text
  import opened Settings
  import SettingsMeaning
  import E = Editor
  import EP = EditorProperties
  import ET = EditorTables

  // ---------- settings that carry a connection's items ----------

  /** The table under a key of a section; a missing key means an empty table. */
  function TableUnder(section: Section, key: string): map<string, string> {
    if key in section then AsTable(section[key]) else map[]
  }

  /**
  The vpn section, and no other section that reads like it, holds the items under data and
  secrets, and under no other keys that read like those. The other sections, and the other
  keys of the vpn section, are arbitrary.
  */
  ghost predicate Carries(settings: ConnectionSettings, items: E.Items) {
    && "vpn" in settings && (forall s :: s in settings && NormalizeSection(s) == "vpn" ==> s == "vpn")
    && TableUnder(settings["vpn"], "data") == items.data
    && TableUnder(settings["vpn"], "secrets") == items.secrets
    && (forall k :: k in settings["vpn"] ==> ReadsAsIs(k))
  }

  predicate ReadsAsIs(key: string) {
    && (NormalizeKey(key) == "data" ==> key == "data")
    && (NormalizeKey(key) == "secrets" ==> key == "secrets")
  }

  function AsVariants(items: map<string, string>): map<string, Variant> {
    map k | k in items :: Str(items[k])
  }

  lemma TableOf(items: map<string, string>)
    ensures AsTable(Table(AsVariants(items))) == items
  {
  }

  /** The settings NetworkManager sends: a connection section, and scalars of the vpn section beside its tables. */
  function SettingsOf(connection: Section, scalars: Section, items: E.Items): ConnectionSettings {
    map["connection" := connection,
        "vpn" := scalars["data" := Table(AsVariants(items.data))]["secrets" := Table(AsVariants(items.secrets))]]
  }

  lemma SettingsOfCarry(connection: Section, scalars: Section, items: E.Items)
    requires forall k :: k in scalars ==> ReadsAsIs(k)
    ensures Carries(SettingsOf(connection, scalars, items), items)
  {
    TableOf(items.data);
    TableOf(items.secrets);
    SectionKeys();
    ConnectionIsNotVpn();
  }

  lemma SectionKeys()
    ensures NormalizeKey("data") == "data" && NormalizeKey("secrets") == "secrets"
  {
    WordIsOwnKey("data");
    WordIsOwnKey("secrets");
  }

  lemma VpnIsVpn()
    ensures NormalizeSection("vpn") == "vpn"
  {
    NormalizePlain("vpn");
  }

  lemma ConnectionIsNotVpn()
    ensures NormalizeSection("connection") != "vpn"
  {
    NormalizePlain("connection");
    assert |"connection"| == 10 && |"vpn"| == 3;
  }

  // ---------- reading one item ----------

  /** Every binding of the two stronger groups is an item of the table of that name. */
  lemma BindingIsItem(settings: ConnectionSettings, items: E.Items, b: Binding)
    requires Carries(settings, items) && IsBinding(settings, b) && (b.group == Data || b.group == Secrets)
    ensures b.section == "vpn" && b.name == NormalizeKey(b.inner)
    ensures if b.group == Data then IsItem(b, "data", items.data) else IsItem(b, "secrets", items.secrets)
  {
    assert ReadsAsIs(b.key);
  }

  predicate IsItem(b: Binding, key: string, table: map<string, string>) {
    b.key == key && b.inner in table && b.value == TrimSpace(table[b.inner])
  }

  lemma ItemIsBinding(settings: ConnectionSettings, items: E.Items, group: Group, key: string)
    requires Carries(settings, items) && NormalizeKey(key) != ""
    requires (group == Data && key in items.data) || (group == Secrets && key in items.secrets)
    ensures IsBinding(settings, ItemBinding(items, group, key))
  {
    SectionKeys();
    VpnIsVpn();
  }

  function ItemBinding(items: E.Items, group: Group, key: string): Binding
    requires (group == Data && key in items.data) || (group == Secrets && key in items.secrets)
  {
    if group == Data then Binding(Data, "vpn", "data", key, NormalizeKey(key), TrimSpace(items.data[key]))
    else Binding(Secrets, "vpn", "secrets", key, NormalizeKey(key), TrimSpace(items.secrets[key]))
  }

  /** No other key of `m` reads like `key`. */
  ghost predicate Unrivalled(m: map<string, string>, key: string) {
    forall k :: k in m && NormalizeKey(k) == NormalizeKey(key) ==> k == key
  }

  /** The plugin finds `value` under `key`, without the blanks around it. */
  ghost predicate Reads(settings: ConnectionSettings, key: string, value: string) {
    NormalizeKey(key) in Flatten(settings) && Flatten(settings)[NormalizeKey(key)] == TrimSpace(value)
  }

  /** A plain item is read if no other item reads like its key, whatever else the settings hold. */
  lemma DataItemIsRead(settings: ConnectionSettings, items: E.Items, key: string)
    requires Carries(settings, items) && key in items.data && NormalizeKey(key) != ""
    requires Unrivalled(items.data, key) && key !in items.secrets && Unrivalled(items.secrets, key)
    ensures Reads(settings, key, items.data[key])
  {
    var b := ItemBinding(items, Data, key);
    ItemIsBinding(settings, items, Data, key);
    forall c | IsBinding(settings, c) && c.name == b.name && c != b ensures Precedes(c, b) {
      if c.group == Data || c.group == Secrets {
        BindingIsItem(settings, items, c);
      }
    }
    SettingsMeaning.FlattenMeaning(settings, b.name, b.value);
  }

  /** A secret is read if no other secret reads like its key, whatever else the settings hold. */
  lemma SecretItemIsRead(settings: ConnectionSettings, items: E.Items, key: string)
    requires Carries(settings, items) && key in items.secrets && NormalizeKey(key) != ""
    requires Unrivalled(items.secrets, key)
    ensures Reads(settings, key, items.secrets[key])
  {
    var b := ItemBinding(items, Secrets, key);
    ItemIsBinding(settings, items, Secrets, key);
    forall c | IsBinding(settings, c) && c.name == b.name && c != b ensures Precedes(c, b) {
      if c.group == Secrets {
        BindingIsItem(settings, items, c);
      }
    }
    SettingsMeaning.FlattenMeaning(settings, b.name, b.value);
  }

  /** The plugin reads every plain field the editor saved, unless another saved item reads like it. */
  lemma PluginReadsSavedField(t: E.AliasTables, items: E.Items, f: E.Fields, i: nat, settings: ConnectionSettings)
    requires t.Valid() && i < 9 && E.DataRows(t, f)[i].value != ""
    requires Carries(settings, E.Saved(t, items, f))
    requires var saved, key := E.Saved(t, items, f), E.DataRows(t, f)[i].keys[0];
             && NormalizeKey(key) != "" && Unrivalled(saved.data, key)
             && key !in saved.secrets && Unrivalled(saved.secrets, key)
    ensures Reads(settings, E.DataRows(t, f)[i].keys[0], E.DataRows(t, f)[i].value)
  {
    var rows := E.DataRows(t, f);
    EP.DataRowsApart(t, f);
    assert EP.HoldsAt(E.Assign(items.data, rows), rows[i], rows[i].keys[0]) by {
      EP.RowHolds(items.data, rows, i, rows[i].keys[0]);
    }
    DataItemIsRead(settings, E.Saved(t, items, f), rows[i].keys[0]);
  }

  /** The plugin reads every secret the editor saved, unless another saved secret reads like it. */
  lemma PluginReadsSavedSecret(t: E.AliasTables, items: E.Items, f: E.Fields, i: nat, settings: ConnectionSettings)
    requires t.Valid() && i < 2 && E.SecretRows(t, f)[i].value != ""
    requires Carries(settings, E.Saved(t, items, f))
    requires NormalizeKey(E.SecretRows(t, f)[i].keys[0]) != ""
    requires Unrivalled(E.Saved(t, items, f).secrets, E.SecretRows(t, f)[i].keys[0])
    ensures Reads(settings, E.SecretRows(t, f)[i].keys[0], E.SecretRows(t, f)[i].value)
  {
    var rows := E.SecretRows(t, f);
    EP.SecretRowsApart(t, f);
    EP.RowHolds(items.secrets, rows, i, rows[i].keys[0]);
    SecretItemIsRead(settings, E.Saved(t, items, f), rows[i].keys[0]);
  }

  // ---------- the editor's own keys ----------

  /** A key tells, read as the plugin reads it, which of the editor's tables it belongs to. */
  predicate Tells(key: string, i: nat) {
    NormalizeKey(key) != "" && ET.Owner(NormalizeKey(key)) == i
  }

  /** The owner is told from the first three letters, except for the prefixed keys. */
  lemma OwnerOfLonger(word: string, more: string)
    requires |word| >= 3 && word[0] != 'n'
    ensures ET.Owner(word + more) == ET.Owner(word)
  {
    var longer := word + more;
    assert longer[0] == word[0] && longer[2] == word[2];
  }

  lemma OneWordTells(word: string)
    requires IsWord(word) && word != ""
    ensures Tells(word, ET.Owner(word))
  {
    WordIsOwnKey(word);
  }

  lemma TwoWordsTell(a: string, b: string)
    requires IsWord(a) && IsWord(b) && |a| >= 3 && b != "" && a[0] != 'n'
    ensures Tells(Dash(a, b), ET.Owner(a))
  {
    TwoWords(a, b);
    NormalizePlain(Dash(a, b));
    OwnerOfLonger(a, b);
  }

  lemma ThreeWordsTell(a: string, b: string, c: string)
    requires IsWord(a) && IsWord(b) && IsWord(c) && |a| >= 3 && b != "" && c != "" && a[0] != 'n'
    ensures Tells(Dash(a, Dash(b, c)), ET.Owner(a))
  {
    TwoWords(b, c);
    Word(a);
    Joined(a, Dash(b, c));
    NormalizePlain(Dash(a, Dash(b, c)));
    OwnerOfLonger(a, b + c);
  }

  /** Valid tables whose saved keys tell their tables; profile names are never saved. */
  ghost predicate Telling(t: E.AliasTables) {
    t.Valid() && forall i: nat :: i < 9 && i != 3 ==> TellsTable(t, i)
  }

  predicate TellsTable(t: E.AliasTables, i: nat)
    requires i < 9
  {
    t.All()[i] != [] && Tells(t.All()[i][0], i)
  }

  /** The first key of the editor's `i`th table is the word `a`, or `a` and more words joined by dashes. */
  lemma OneWordTable(i: nat, a: string)
    requires i < 9 && IsWord(a) && a != "" && ET.Owner(a) == i
    requires E.NETBIRD_TABLES.All()[i] != [] && E.NETBIRD_TABLES.All()[i][0] == a
    ensures TellsTable(E.NETBIRD_TABLES, i)
  {
    OneWordTells(a);
  }

  lemma TwoWordTable(i: nat, a: string, b: string)
    requires i < 9 && IsWord(a) && IsWord(b) && |a| >= 3 && b != "" && a[0] != 'n' && ET.Owner(a) == i
    requires E.NETBIRD_TABLES.All()[i] != [] && E.NETBIRD_TABLES.All()[i][0] == Dash(a, b)
    ensures TellsTable(E.NETBIRD_TABLES, i)
  {
    TwoWordsTell(a, b);
  }

  lemma AuthTable() ensures TellsTable(E.NETBIRD_TABLES, 0) { OneWordTable(0, "auth"); }
  lemma ManagementUrlTable() ensures TellsTable(E.NETBIRD_TABLES, 1) { TwoWordTable(1, "management", "url"); }
  lemma AdminUrlTable() ensures TellsTable(E.NETBIRD_TABLES, 2) { TwoWordTable(2, "admin", "url"); }
  lemma UsernameTable() ensures TellsTable(E.NETBIRD_TABLES, 4) { OneWordTable(4, "username"); }
  lemma InterfaceNameTable() ensures TellsTable(E.NETBIRD_TABLES, 5) { TwoWordTable(5, "interface", "name"); }
  lemma HostnameTable() ensures TellsTable(E.NETBIRD_TABLES, 6) { OneWordTable(6, "hostname"); }
  lemma SetupKeyTable() ensures TellsTable(E.NETBIRD_TABLES, 7) { TwoWordTable(7, "setup", "key"); }

  lemma PreSharedKeyTable()
    ensures TellsTable(E.NETBIRD_TABLES, 8)
  {
    ThreeWordsTell("pre", "shared", "key");
    assert E.NETBIRD_TABLES.All()[8][0] == Dash("pre", Dash("shared", "key"));
  }

  lemma NetbirdTablesTell()
    ensures Telling(E.NETBIRD_TABLES)
  {
    ET.TablesAreValid();
    forall i: nat | i < 9 && i != 3 ensures TellsTable(E.NETBIRD_TABLES, i) {
      NetbirdTableTells(i);
    }
  }

  lemma NetbirdTableTells(i: nat)
    requires i < 9 && i != 3
    ensures TellsTable(E.NETBIRD_TABLES, i)
  {
    AuthTable();
    ManagementUrlTable();
    AdminUrlTable();
    UsernameTable();
    InterfaceNameTable();
    HostnameTable();
    SetupKeyTable();
    PreSharedKeyTable();
    assert i == 0 || i == 1 || i == 2 || i == 4 || i == 5 || i == 6 || i == 7 || i == 8;
  }

  /** No item under a key of its own that is in none of the tables reads like `key`. */
  ghost predicate NoForeignRival(m: map<string, string>, tables: seq<seq<string>>, key: string) {
    forall k :: k in m && !EP.IsAlias(tables, k) ==> NormalizeKey(k) != NormalizeKey(key)
  }

  /** A saved plain item is a field of the editor under its own key, or was there before. */
  lemma SavedDataKey(t: E.AliasTables, items: E.Items, f: E.Fields, k: string) returns (j: nat)
    requires t.Valid() && k in E.Saved(t, items, f).data
    ensures if EP.IsAlias(t.All(), k) then j < 9 && j != 3 && j != 7 && j != 8 && t.All()[j] != [] && k == t.All()[j][0]
            else k in items.data
  {
    EP.DataRowsApart(t, f);
    j := 0;
    if EP.IsAlias(t.All(), k) {
      j :| 0 <= j < 9 && k in t.All()[j];
      EP.RowKeys(t, f, j);
      EP.NoEmptyTable(t, j);
      EP.RowHolds(items.data, E.DataRows(t, f), j, k);
    } else {
      EP.OtherItemsUntouched(t, items, f, k);
    }
  }

  lemma SavedSecretKey(t: E.AliasTables, items: E.Items, f: E.Fields, k: string) returns (j: nat)
    requires t.Valid() && k in E.Saved(t, items, f).secrets
    ensures if EP.IsAlias(t.Secret(), k) then 7 <= j < 9 && t.All()[j] != [] && k == t.All()[j][0]
            else k in items.secrets
  {
    EP.SecretRowsApart(t, f);
    j := 7;
    if EP.IsAlias(t.Secret(), k) {
      var i :| 0 <= i < 2 && k in t.Secret()[i];
      EP.RowHolds(items.secrets, E.SecretRows(t, f), i, k);
      j := 7 + i;
    } else {
      EP.OtherItemsUntouched(t, items, f, k);
    }
  }

  lemma OwnDataUnrivalled(t: E.AliasTables, items: E.Items, f: E.Fields, i: nat)
    requires Telling(t) && i < 9 && i != 3 && t.All()[i] != []
    requires NoForeignRival(items.data, t.All(), t.All()[i][0])
    ensures Unrivalled(E.Saved(t, items, f).data, t.All()[i][0])
  {
    assert TellsTable(t, i);
    forall k | k in E.Saved(t, items, f).data && NormalizeKey(k) == NormalizeKey(t.All()[i][0])
        ensures k == t.All()[i][0] {
      var j := SavedDataKey(t, items, f, k);
      if EP.IsAlias(t.All(), k) {
        assert TellsTable(t, j);
      }
    }
  }

  lemma OwnSecretsUnrivalled(t: E.AliasTables, items: E.Items, f: E.Fields, i: nat)
    requires Telling(t) && i < 9 && i != 3 && t.All()[i] != []
    requires NoForeignRival(items.secrets, t.Secret(), t.All()[i][0])
    ensures Unrivalled(E.Saved(t, items, f).secrets, t.All()[i][0])
    ensures i < 7 ==> t.All()[i][0] !in E.Saved(t, items, f).secrets
  {
    var key := t.All()[i][0];
    assert TellsTable(t, i);
    forall k | k in E.Saved(t, items, f).secrets && NormalizeKey(k) == NormalizeKey(key) ensures k == key && i >= 7 {
      var j := SavedSecretKey(t, items, f, k);
      if EP.IsAlias(t.Secret(), k) {
        assert TellsTable(t, j);
      }
    }
  }

  /**
  For the editor's own tables, every plain field it saved is what the plugin reads, unless an
  item under a key the editor does not know reads like the field's key.
  */
  lemma NetbirdFieldIsRead(items: E.Items, f: E.Fields, i: nat, settings: ConnectionSettings)
    requires Carries(settings, E.Saved(E.NETBIRD_TABLES, items, f))
    requires i < 9 && E.DataRows(E.NETBIRD_TABLES, f)[i].value != ""
    requires var key := E.DataRows(E.NETBIRD_TABLES, f)[i].keys[0];
             && NoForeignRival(items.data, E.NETBIRD_TABLES.All(), key)
             && NoForeignRival(items.secrets, E.NETBIRD_TABLES.Secret(), key)
    ensures Reads(settings, E.DataRows(E.NETBIRD_TABLES, f)[i].keys[0],
                  E.DataRows(E.NETBIRD_TABLES, f)[i].value)
  {
    NetbirdTablesTell();
    TellingFieldIsRead(E.NETBIRD_TABLES, items, f, i, settings);
  }

  lemma TellingFieldIsRead(t: E.AliasTables, items: E.Items, f: E.Fields, i: nat, settings: ConnectionSettings)
    requires Carries(settings, E.Saved(t, items, f))
    requires Telling(t) && i < 9 && E.DataRows(t, f)[i].value != "" && E.DataRows(t, f)[i].keys != []
    requires var key := E.DataRows(t, f)[i].keys[0];
             NoForeignRival(items.data, t.All(), key) && NoForeignRival(items.secrets, t.Secret(), key)
    ensures Reads(settings, E.DataRows(t, f)[i].keys[0], E.DataRows(t, f)[i].value)
  {
    EP.RowKeys(t, f, i);
    SavedRowsArePlain(t, f, i);
    assert TellsTable(t, i);
    OwnDataUnrivalled(t, items, f, i);
    OwnSecretsUnrivalled(t, items, f, i);
    PluginReadsSavedField(t, items, f, i, settings);
  }

  lemma SavedRowsArePlain(t: E.AliasTables, f: E.Fields, i: nat)
    requires i < 9 && E.DataRows(t, f)[i].value != ""
    ensures i != 3 && i < 7
  {
  }

  /** The same for the setup key and the pre-shared key, whatever the plain items hold. */
  lemma NetbirdSecretIsRead(items: E.Items, f: E.Fields, i: nat, settings: ConnectionSettings)
    requires Carries(settings, E.Saved(E.NETBIRD_TABLES, items, f))
    requires i < 2 && E.SecretRows(E.NETBIRD_TABLES, f)[i].value != ""
    requires NoForeignRival(items.secrets, E.NETBIRD_TABLES.Secret(), E.SecretRows(E.NETBIRD_TABLES, f)[i].keys[0])
    ensures Reads(settings, E.SecretRows(E.NETBIRD_TABLES, f)[i].keys[0],
                  E.SecretRows(E.NETBIRD_TABLES, f)[i].value)
  {
    NetbirdTablesTell();
    TellingSecretIsRead(E.NETBIRD_TABLES, items, f, i, settings);
  }

  lemma TellingSecretIsRead(t: E.AliasTables, items: E.Items, f: E.Fields, i: nat, settings: ConnectionSettings)
    requires Carries(settings, E.Saved(t, items, f))
    requires Telling(t) && i < 2 && E.SecretRows(t, f)[i].value != "" && E.SecretRows(t, f)[i].keys != []
    requires NoForeignRival(items.secrets, t.Secret(), E.SecretRows(t, f)[i].keys[0])
    ensures Reads(settings, E.SecretRows(t, f)[i].keys[0], E.SecretRows(t, f)[i].value)
  {
    assert E.SecretRows(t, f)[i].keys == t.All()[7 + i];
    assert TellsTable(t, 7 + i);
    OwnSecretsUnrivalled(t, items, f, 7 + i);
    PluginReadsSavedSecret(t, items, f, i, settings);
  }
}
