/** What loading recovers after saving, and what saving leaves alone. */
module EditorProperties {
  import opened Wrappers
  import opened EditorText
  import opened Editor

  // ---------- rows of aliases ----------

  ghost predicate Apart(rows: seq<Row>) {
    && (forall i :: 0 <= i < |rows| ==> rows[i].keys != [])
    && (forall i, j :: 0 <= i < j < |rows| ==> Disjoint(rows[i].keys, rows[j].keys))
  }

  predicate Mentions(rows: seq<Row>, key: string) {
    exists i :: 0 <= i < |rows| && key in rows[i].keys
  }

  predicate SameAt(a: map<string, string>, b: map<string, string>, key: string) {
    (key in a <==> key in b) && (key in a && key in b ==> a[key] == b[key])
  }

  /** Of the keys of a row, only the first is there, with the value of the row, unless that is empty. */
  predicate HoldsAt(m: map<string, string>, row: Row, key: string)
    requires row.keys != []
  {
    (key in m <==> key == row.keys[0] && row.value != "") && (key in m ==> m[key] == row.value)
  }

  lemma AssignedAt(m: map<string, string>, row: Row, key: string)
    requires row.keys != []
    ensures key !in row.keys ==> SameAt(Assigned(m, row), m, key)
    ensures key in row.keys ==> HoldsAt(Assigned(m, row), row, key)
  {
  }

  lemma {:induction false} Untouched(m: map<string, string>, rows: seq<Row>, key: string)
    requires Apart(rows) && !Mentions(rows, key)
    ensures SameAt(Assign(m, rows), m, key)
  {
    if rows != [] {
      var n := |rows| - 1;
      assert key !in rows[n].keys;
      assert !Mentions(rows[..n], key);
      Untouched(m, rows[..n], key);
      AssignedAt(Assign(m, rows[..n]), rows[n], key);
    }
  }

  lemma {:induction false} RowHolds(m: map<string, string>, rows: seq<Row>, i: nat, key: string)
    requires Apart(rows) && i < |rows| && key in rows[i].keys
    ensures HoldsAt(Assign(m, rows), rows[i], key)
  {
    var n := |rows| - 1;
    AssignedAt(Assign(m, rows[..n]), rows[n], key);
    if i < n {
      NotBoth(rows[i].keys, rows[n].keys, key);
      RowHolds(m, rows[..n], i, key);
    }
  }

  lemma NotBoth(a: seq<string>, b: seq<string>, key: string)
    requires Disjoint(a, b) && key in a
    ensures key !in b
  {
  }

  /** Saving the same rows once more changes nothing. */
  lemma {:induction false} AssignAbsorbs(m: map<string, string>, rows: seq<Row>)
    requires Apart(rows)
    ensures Assign(Assign(m, rows), rows) == Assign(m, rows)
  {
    var once := Assign(m, rows);
    forall key ensures SameAt(Assign(once, rows), once, key) {
      if Mentions(rows, key) {
        var i :| 0 <= i < |rows| && key in rows[i].keys;
        RowHolds(m, rows, i, key);
        RowHolds(once, rows, i, key);
      } else {
        Untouched(once, rows, key);
      }
    }
    SameEverywhere(Assign(once, rows), once);
  }

  lemma SameEverywhere(a: map<string, string>, b: map<string, string>)
    requires forall key :: SameAt(a, b, key)
    ensures a == b
  {
    forall key ensures key in a <==> key in b { assert SameAt(a, b, key); }
    forall key | key in a ensures a[key] == b[key] { assert SameAt(a, b, key); }
  }

  lemma {:induction false} FirstOfNone(m: map<string, string>, keys: seq<string>)
    requires forall i :: 0 <= i < |keys| ==> keys[i] !in m || m[keys[i]] == ""
    ensures First(m, keys) == ""
  {
    if keys != [] { FirstOfNone(m, keys[1..]); }
  }

  /** Looking a row up by any of its keys finds its value. */
  lemma {:induction false} FirstFindsRow(m: map<string, string>, row: Row)
    requires row.keys != [] && forall i :: 0 <= i < |row.keys| ==> HoldsAt(m, row, row.keys[i])
    ensures First(m, row.keys) == row.value
  {
    assert HoldsAt(m, row, row.keys[0]);
    if row.value == "" {
      FirstOfNone(m, row.keys);
    }
  }

  lemma {:induction false} FirstAfterAssign(m: map<string, string>, rows: seq<Row>, i: nat)
    requires Apart(rows) && i < |rows|
    ensures First(Assign(m, rows), rows[i].keys) == rows[i].value
  {
    forall k | 0 <= k < |rows[i].keys| ensures HoldsAt(Assign(m, rows), rows[i], rows[i].keys[k]) {
      RowHolds(m, rows, i, rows[i].keys[k]);
    }
    FirstFindsRow(Assign(m, rows), rows[i]);
  }

  // ---------- the rows that are saved ----------

  lemma DataRowsApart(t: AliasTables, f: Fields)
    requires t.Valid()
    ensures Apart(DataRows(t, f)) && |DataRows(t, f)| == 9
  {
    var rows := DataRows(t, f);
    forall i | 0 <= i < 9 ensures rows[i].keys == t.All()[i] {
      RowKeys(t, f, i);
    }
    forall i, j | 0 <= i < j < 9 ensures Disjoint(rows[i].keys, rows[j].keys) {
      assert Disjoint(t.All()[i], t.All()[j]);
    }
    forall i | 0 <= i < 9 ensures rows[i].keys != [] {
      NoEmptyTable(t, i);
    }
  }

  lemma RowKeys(t: AliasTables, f: Fields, i: nat)
    requires i < 9
    ensures DataRows(t, f)[i].keys == t.All()[i]
  {
  }

  lemma NoEmptyTable(t: AliasTables, i: nat)
    requires t.Valid() && i < 9
    ensures t.All()[i] != []
  {
  }

  lemma SecretRowsApart(t: AliasTables, f: Fields)
    requires t.Valid()
    ensures Apart(SecretRows(t, f))
  {
    assert Disjoint(t.All()[7], t.All()[8]);
  }

  // ---------- loading what was saved ----------

  /** The fields as they are after a round through the connection. */
  function Normal(f: Fields): Fields {
    Fields(f.authMode, Strip(f.managementUrl), Strip(f.adminUrl), Strip(f.username), Strip(f.interfaceName),
        Strip(f.hostname),
           KeptSetupKey(f), NonBlank(f.preSharedKey))
  }

  lemma {:induction false} LoadedFront(t: AliasTables, m: map<string, string>, f: Fields)
    requires t.Valid()
    ensures var d := Assign(m, DataRows(t, f));
            First(d, t.auth) == f.authMode && First(d, t.managementUrl) == Strip(f.managementUrl)
            && First(d, t.adminUrl) == Strip(f.adminUrl)
  {
    DataRowsApart(t, f);
    FirstAfterAssign(m, DataRows(t, f), 0);
    FirstAfterAssign(m, DataRows(t, f), 1);
    FirstAfterAssign(m, DataRows(t, f), 2);
  }

  lemma {:induction false} LoadedMiddle(t: AliasTables, m: map<string, string>, f: Fields)
    requires t.Valid()
    ensures var d := Assign(m, DataRows(t, f));
            First(d, t.username) == Strip(f.username) && First(d, t.interfaceName) == Strip(f.interfaceName)
            && First(d, t.hostname) == Strip(f.hostname)
  {
    DataRowsApart(t, f);
    FirstAfterAssign(m, DataRows(t, f), 4);
    FirstAfterAssign(m, DataRows(t, f), 5);
    FirstAfterAssign(m, DataRows(t, f), 6);
  }

  lemma {:induction false} LoadedBack(t: AliasTables, m: map<string, string>, f: Fields)
    requires t.Valid()
    ensures var d := Assign(m, DataRows(t, f));
            First(d, t.setupKey) == "" && First(d, t.preSharedKey) == ""
  {
    DataRowsApart(t, f);
    FirstAfterAssign(m, DataRows(t, f), 7);
    FirstAfterAssign(m, DataRows(t, f), 8);
  }

  lemma {:induction false} LoadedSecrets(t: AliasTables, m: map<string, string>, f: Fields)
    requires t.Valid()
    ensures var s := Assign(m, SecretRows(t, f));
            First(s, t.setupKey) == KeptSetupKey(f) && First(s, t.preSharedKey) == NonBlank(f.preSharedKey)
  {
    SecretRowsApart(t, f);
    FirstAfterAssign(m, SecretRows(t, f), 0);
    FirstAfterAssign(m, SecretRows(t, f), 1);
  }

  /** Loading after a successful save gives the fields back in normal form, whatever was stored before. */
  lemma LoadAfterSave(t: AliasTables, items: Items, f: Fields)
    requires t.Valid() && Problem(f).None?
    ensures Load(t, Saved(t, items, f)) == Normal(f)
  {
    LoadedFront(t, items.data, f);
    LoadedMiddle(t, items.data, f);
    LoadedBack(t, items.data, f);
    LoadedSecrets(t, items.secrets, f);
    NamedModes();
    StripIdempotent(f.managementUrl);
    StripIdempotent(f.adminUrl);
    StripIdempotent(f.username);
    StripIdempotent(f.interfaceName);
    StripIdempotent(f.hostname);
  }

  /** The normal form of valid fields is valid. */
  lemma NormalStaysValid(f: Fields)
    requires Problem(f).None?
    ensures Problem(Normal(f)).None?
  {
    StrippedStaysValid(f.managementUrl);
    StrippedStaysValid(f.adminUrl);
    StrippedStaysValid(f.interfaceName);
  }

  /** What is loaded can be invalid only in a URL or the interface name. */
  lemma LoadedModeIsValid(t: AliasTables, items: Items)
    ensures Problem(Load(t, items)) != Some(InvalidAuth)
  {
  }

  // ---------- what else is stored ----------

  predicate IsAlias(tables: seq<seq<string>>, key: string) {
    exists i :: 0 <= i < |tables| && key in tables[i]
  }

  /** Items under other keys are neither removed nor changed. */
  lemma OtherItemsUntouched(t: AliasTables, items: Items, f: Fields, key: string)
    requires t.Valid()
    ensures !IsAlias(t.All(), key) ==> SameAt(Saved(t, items, f).data, items.data, key)
    ensures !IsAlias(t.Secret(), key) ==> SameAt(Saved(t, items, f).secrets, items.secrets, key)
  {
    DataRowsApart(t, f);
    SecretRowsApart(t, f);
    if !IsAlias(t.All(), key) {
      forall i | 0 <= i < 9 ensures key !in DataRows(t, f)[i].keys {
        RowKeys(t, f, i);
        assert key !in t.All()[i];
      }
      Untouched(items.data, DataRows(t, f), key);
    }
    if !IsAlias(t.Secret(), key) {
      assert key !in t.Secret()[0] && key !in t.Secret()[1];
      Untouched(items.secrets, SecretRows(t, f), key);
    }
  }

  /** After a save no secret is left among the plain items, and under SSO no setup key is left at all. */
  lemma SecretsLeaveTheData(t: AliasTables, items: Items, f: Fields, key: string)
    requires t.Valid()
    ensures IsAlias(t.Secret(), key) ==> key !in Saved(t, items, f).data
    ensures key in t.setupKey && f.authMode != SETUP_KEY_MODE ==> key !in Saved(t, items, f).secrets
    ensures key in t.profileName ==> key !in Saved(t, items, f).data
  {
    DataRowsApart(t, f);
    SecretRowsApart(t, f);
    var rows := DataRows(t, f);
    if key in t.setupKey {
      RowHolds(items.data, rows, 7, key);
      RowHolds(items.secrets, SecretRows(t, f), 0, key);
    }
    if key in t.preSharedKey {
      RowHolds(items.data, rows, 8, key);
    }
    if key in t.profileName {
      RowHolds(items.data, rows, 3, key);
    }
  }

  // ---------- opening and storing a connection ----------

  /** Load the fields and save them again, as far as they are valid. */
  function LoadAndSave(t: AliasTables, items: Items): Items {
    var f := Load(t, items);
    if Problem(f).None? then Saved(t, items, f) else items
  }

  lemma SaveAbsorbs(t: AliasTables, items: Items, f: Fields)
    requires t.Valid()
    ensures Saved(t, Saved(t, items, f), f) == Saved(t, items, f)
  {
    DataRowsApart(t, f);
    SecretRowsApart(t, f);
    AssignAbsorbs(items.data, DataRows(t, f));
    AssignAbsorbs(items.secrets, SecretRows(t, f));
  }

  lemma NormalSavesTheSame(t: AliasTables, items: Items, f: Fields)
    ensures Saved(t, items, Normal(f)) == Saved(t, items, f)
  {
    StripIdempotent(f.managementUrl);
    StripIdempotent(f.adminUrl);
    StripIdempotent(f.username);
    StripIdempotent(f.interfaceName);
    StripIdempotent(f.hostname);
    assert DataRows(t, Normal(f)) == DataRows(t, f);
    assert SecretRows(t, Normal(f)) == SecretRows(t, f);
  }

  /** Opening and storing a connection twice leaves the same items as doing it once. */
  lemma LoadAndSaveIdempotent(t: AliasTables, items: Items)
    requires t.Valid()
    ensures LoadAndSave(t, LoadAndSave(t, items)) == LoadAndSave(t, items)
  {
    var f := Load(t, items);
    if Problem(f).None? {
      LoadAfterSave(t, items, f);
      NormalStaysValid(f);
      NormalSavesTheSame(t, Saved(t, items, f), f);
      SaveAbsorbs(t, items, f);
    }
  }

  /** Storing a connection leaves the fields as they were loaded, exactly if no secret in it is blank or unused. */
  lemma StoringKeepsFieldsExactly(t: AliasTables, items: Items)
    requires t.Valid() && Problem(Load(t, items)).None?
    ensures var f := Load(t, items);
            Load(t, LoadAndSave(t, items)) == f <==>
              (f.setupKey == "" || (f.authMode == SETUP_KEY_MODE && !IsBlank(f.setupKey)))
              && (f.preSharedKey == "" || !IsBlank(f.preSharedKey))
  {
    var f := Load(t, items);
    LoadAfterSave(t, items, f);
    StripIdempotent(First(items.data, t.managementUrl));
    StripIdempotent(First(items.data, t.adminUrl));
    StripIdempotent(First(items.data, t.username));
    StripIdempotent(First(items.data, t.interfaceName));
    StripIdempotent(First(items.data, t.hostname));
  }

  /** A connection with nothing but a setup key, and so without an authentication mode. */
  function OnlySetupKey(t: AliasTables): Items
    requires t.Valid()
  {
    Items(map[], map[t.setupKey[0] := "k"])
  }

  /** Its setup key is loaded and, the mode being SSO, not kept. */
  lemma UnusedSetupKeyIsDropped(t: AliasTables)
    requires t.Valid()
    ensures var f := Load(t, OnlySetupKey(t));
            Problem(f).None? && f.setupKey == "k" && Load(t, LoadAndSave(t, OnlySetupKey(t))) != f
  {
    OnlySetupKeyLoads(t);
    StoringKeepsFieldsExactly(t, OnlySetupKey(t));
  }

  lemma OnlySetupKeyLoads(t: AliasTables)
    requires t.Valid()
    ensures var f := Load(t, OnlySetupKey(t));
            f.authMode == SSO_MODE && f.setupKey == "k" && Problem(f).None?
  {
    LoadNothing(t);
    SecretRowsApart(t, Fields("", "", "", "", "", "", "", ""));
    assert First(OnlySetupKey(t).secrets, t.setupKey) == "k";
  }
}
