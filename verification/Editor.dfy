/**
The connection editor: it loads its fields from a VPN setting in which each may stand under
several keys, validates them, and saves them under one key each.
*/
module Editor {
  import opened Wrappers
  import opened EditorText

  /** The keys under which each field may be stored; the first one is the key it is saved under. */
  datatype AliasTables = AliasTables(
    auth: seq<string>, setupKey: seq<string>, managementUrl: seq<string>, adminUrl: seq<string>,
    profileName: seq<string>,
    username: seq<string>, interfaceName: seq<string>, hostname: seq<string>, preSharedKey: seq<string>)
  {
    function All(): seq<seq<string>> {
      [auth, managementUrl, adminUrl, profileName, username, interfaceName, hostname, setupKey, preSharedKey]
    }

    function Secret(): seq<seq<string>> {
      [setupKey, preSharedKey]
    }

    predicate Valid() {
      && auth != [] && setupKey != [] && managementUrl != [] && adminUrl != [] && profileName != []
      && username != [] && interfaceName != [] && hostname != [] && preSharedKey != []
      && (forall i, j :: 0 <= i < j < 9 ==> Disjoint(All()[i], All()[j]))
    }
  }

  predicate Disjoint(a: seq<string>, b: seq<string>) {
    forall i, j :: 0 <= i < |a| && 0 <= j < |b| ==> a[i] != b[j]
  }

  const NETBIRD_TABLES := AliasTables(
    ["auth", "auth-mode", "authentication", "login-mode"],
    ["setup-key", "setupKey", "netbird-setup-key"],
    ["management-url", "managementUrl", "netbird-management-url"],
    ["admin-url", "adminURL", "netbird-admin-url"],
    ["profile-name", "profileName", "profile", "netbird-profile-name"],
    ["username", "user-name", "user", "netbird-username"],
    ["interface-name", "interfaceName", "netbird-interface-name"],
    ["hostname", "host-name"],
    ["pre-shared-key", "preshared-key", "preSharedKey"])

  datatype Fields = Fields(
    authMode: string, managementUrl: string, adminUrl: string, username: string,
    interfaceName: string, hostname: string, setupKey: string, preSharedKey: string)

  datatype EditorError = InvalidAuth | InvalidUrl | InvalidInterface

  /** The stored items of a VPN setting. */
  datatype Items = Items(data: map<string, string>, secrets: map<string, string>)

  // ---------- what the operations compute ----------

  /** The first item under one of the keys that is not empty. */
  function First(m: map<string, string>, keys: seq<string>): string {
    if keys == [] then ""
    else if keys[0] in m && m[keys[0]] != "" then m[keys[0]]
    else First(m, keys[1..])
  }

  function FirstSecret(items: Items, keys: seq<string>): string {
    if First(items.secrets, keys) != "" then First(items.secrets, keys) else First(items.data, keys)
  }

  function LoadedMode(value: string): string {
    if NormalMode(value) == SETUP_KEY_MODE then SETUP_KEY_MODE else SSO_MODE
  }

  function Load(t: AliasTables, items: Items): Fields {
    Fields(
      LoadedMode(First(items.data, t.auth)),
      Strip(First(items.data, t.managementUrl)),
      Strip(First(items.data, t.adminUrl)),
      Strip(First(items.data, t.username)),
      Strip(First(items.data, t.interfaceName)),
      Strip(First(items.data, t.hostname)),
      FirstSecret(items, t.setupKey),
      FirstSecret(items, t.preSharedKey))
  }

  function Problem(f: Fields): Option<EditorError> {
    if f.authMode != SETUP_KEY_MODE && f.authMode != SSO_MODE then Some(InvalidAuth)
    else if !HttpUrl(f.managementUrl) || !HttpUrl(f.adminUrl) then Some(InvalidUrl)
    else if !InterfaceName(f.interfaceName) then Some(InvalidInterface)
    else None
  }

  /** A table and what is to be stored for it; an empty value means nothing. */
  datatype Row = Row(keys: seq<string>, value: string)

  function Assigned(m: map<string, string>, row: Row): map<string, string> {
    var cleared := m - set k | k in row.keys;
    if row.keys != [] && row.value != "" then cleared[row.keys[0] := row.value] else cleared
  }

  function Assign(m: map<string, string>, rows: seq<Row>): map<string, string> {
    if rows == [] then m else Assigned(Assign(m, rows[..|rows| - 1]), rows[|rows| - 1])
  }

  function NonBlank(value: string): string {
    if IsBlank(value) then "" else value
  }

  /** A setup key is kept only where it is used. */
  function KeptSetupKey(f: Fields): string {
    if f.authMode == SETUP_KEY_MODE then NonBlank(f.setupKey) else ""
  }

  function ServerRows(t: AliasTables, f: Fields): seq<Row> {
    [Row(t.auth, f.authMode),
     Row(t.managementUrl, Strip(f.managementUrl)),
     Row(t.adminUrl, Strip(f.adminUrl))]
  }

  function IdentityRows(t: AliasTables, f: Fields): seq<Row> {
    [Row(t.profileName, ""),
     Row(t.username, Strip(f.username)),
     Row(t.interfaceName, Strip(f.interfaceName)),
     Row(t.hostname, Strip(f.hostname))]
  }

  function PlainRows(t: AliasTables, f: Fields): seq<Row> {
    ServerRows(t, f) + IdentityRows(t, f)
  }

  function DataRows(t: AliasTables, f: Fields): seq<Row> {
    PlainRows(t, f) + [Row(t.setupKey, ""), Row(t.preSharedKey, "")]
  }

  function SecretRows(t: AliasTables, f: Fields): seq<Row> {
    [Row(t.setupKey, KeptSetupKey(f)), Row(t.preSharedKey, NonBlank(f.preSharedKey))]
  }

  function Saved(t: AliasTables, items: Items, f: Fields): Items {
    Items(Assign(items.data, DataRows(t, f)), Assign(items.secrets, SecretRows(t, f)))
  }

  lemma {:induction false} InTwoParts(m: map<string, string>, a: seq<Row>, b: seq<Row>)
    ensures Assign(m, a + b) == Assign(Assign(m, a), b)
  {
    if b == [] {
      assert a + b == a;
    } else {
      var n := |b| - 1;
      assert (a + b)[..|a + b| - 1] == a + b[..n];
      InTwoParts(m, a, b[..n]);
    }
  }

  lemma {:induction false} NextRow(m: map<string, string>, rows: seq<Row>, k: nat)
    requires k < |rows|
    ensures Assign(m, rows[..k + 1]) == Assigned(Assign(m, rows[..k]), rows[k])
    ensures k == 0 ==> Assign(m, rows[..k]) == m
  {
    assert rows[..k + 1][..k] == rows[..k];
  }

  lemma {:induction false} TwoRows(m: map<string, string>, a: Row, b: Row)
    ensures Assign(m, [a, b]) == Assigned(Assigned(m, a), b)
  {
    NextRow(m, [a, b], 0);
    NextRow(m, [a, b], 1);
    assert [a, b][..2] == [a, b];
  }

  lemma {:induction false} FirstOfNothing(keys: seq<string>)
    ensures First(map[], keys) == ""
  {
    if keys != [] { FirstOfNothing(keys[1..]); }
  }

  lemma LoadNothing(t: AliasTables)
    ensures Load(t, Items(map[], map[])) == Fields(SSO_MODE, "", "", "", "", "", "", "")
  {
    FirstOfNothing(t.auth);
    FirstOfNothing(t.managementUrl);
    FirstOfNothing(t.adminUrl);
    FirstOfNothing(t.username);
    FirstOfNothing(t.interfaceName);
    FirstOfNothing(t.hostname);
    FirstOfNothing(t.setupKey);
    FirstOfNothing(t.preSharedKey);
    NamedModes();
  }

  // ---------- the objects the editor works on ----------

  const VPN_TYPE := "vpn"
  const SERVICE_NAME := "org.freedesktop.NetworkManager.netbird"

  class VpnSetting {
    var data: map<string, string>
    var secrets: map<string, string>
    var serviceType: string

    constructor ()
      ensures data == map[] && secrets == map[] && serviceType == ""
    {
      data, secrets, serviceType := map[], map[], "";
    }

    function Contents(): Items
      reads this
    {
      Items(data, secrets)
    }

    method DataFirst(keys: seq<string>) returns (value: string)
      ensures value == First(data, keys)
    {
      for i := 0 to |keys|
        invariant First(data, keys) == First(data, keys[i..])
      {
        if keys[i] in data && data[keys[i]] != "" {
          return data[keys[i]];
        }
        assert keys[i..][1..] == keys[i + 1..];
      }
      return "";
    }

    method SecretFirst(keys: seq<string>) returns (value: string)
      ensures value == First(secrets, keys)
    {
      for i := 0 to |keys|
        invariant First(secrets, keys) == First(secrets, keys[i..])
      {
        if keys[i] in secrets && secrets[keys[i]] != "" {
          return secrets[keys[i]];
        }
        assert keys[i..][1..] == keys[i + 1..];
      }
      return "";
    }

    method RemoveDataKeys(keys: seq<string>)
      modifies this`data
      ensures data == Assigned(old(data), Row(keys, ""))
    {
      for i := 0 to |keys|
        invariant data == old(data) - set k | k in keys[..i]
      {
        assert keys[..i + 1] == keys[..i] + [keys[i]];
        data := data - {keys[i]};
      }
      assert keys[..|keys|] == keys;
    }

    method RemoveSecretKeys(keys: seq<string>)
      modifies this`secrets
      ensures secrets == Assigned(old(secrets), Row(keys, ""))
    {
      for i := 0 to |keys|
        invariant secrets == old(secrets) - set k | k in keys[..i]
      {
        assert keys[..i + 1] == keys[..i] + [keys[i]];
        secrets := secrets - {keys[i]};
      }
      assert keys[..|keys|] == keys;
    }

    method SetDataItem(canonical: string, keys: seq<string>, value: string)
      requires keys != [] && canonical == keys[0]
      modifies this`data
      ensures data == Assigned(old(data), Row(keys, Strip(value)))
    {
      RemoveDataKeys(keys);
      var trimmed := Strip(value);
      if trimmed != "" {
        data := data[canonical := trimmed];
      }
    }

    method SetSecretItem(canonical: string, keys: seq<string>, value: string)
      requires keys != [] && canonical == keys[0]
      modifies this`data, this`secrets
      ensures data == Assigned(old(data), Row(keys, ""))
      ensures secrets == Assigned(old(secrets), Row(keys, NonBlank(value)))
    {
      RemoveSecretKeys(keys);
      RemoveDataKeys(keys);
      if !IsBlank(value) {
        NonBlankIsNonEmpty(value);
        secrets := secrets[canonical := value];
      }
    }
  }

  lemma NonBlankIsNonEmpty(value: string)
    requires !IsBlank(value)
    ensures value != ""
  {
  }

  /** A connection profile: its own setting, of which the type matters here, and its VPN setting. */
  class Connection {
    var kind: Option<string>
    var vpn: VpnSetting?

    constructor (kind: Option<string>, vpn: VpnSetting?)
      ensures this.kind == kind && this.vpn == vpn
    {
      this.kind, this.vpn := kind, vpn;
    }

    function Contents(): Items
      reads this, vpn
    {
      if vpn == null then Items(map[], map[]) else vpn.Contents()
    }
  }

  class EditorValues {
    var authMode: string
    var managementUrl: string
    var adminUrl: string
    var username: string
    var interfaceName: string
    var hostname: string
    var setupKey: string
    var preSharedKey: string

    constructor ()
      ensures View() == Fields(SSO_MODE, "", "", "", "", "", "", "")
    {
      authMode := SSO_MODE;
      managementUrl, adminUrl, username, interfaceName, hostname, setupKey, preSharedKey := "", "", "", "", "", "", "";
    }

    function View(): Fields
      reads this
    {
      Fields(authMode, managementUrl, adminUrl, username, interfaceName, hostname, setupKey, preSharedKey)
    }

    method LoadConnection(t: AliasTables, connection: Connection?)
      modifies this
      ensures View() == Load(t, if connection == null then Items(map[], map[]) else connection.Contents())
    {
      var vpn := if connection == null then null else connection.vpn;
      if vpn == null {
        LoadNothing(t);
        authMode := SSO_MODE;
        managementUrl, adminUrl, username, interfaceName, hostname := "", "", "", "", "";
        setupKey, preSharedKey := "", "";
      } else {
        LoadSetting(t, vpn);
      }
    }

    method LoadSetting(t: AliasTables, vpn: VpnSetting)
      modifies this
      ensures View() == Load(t, vpn.Contents())
    {
      var value := vpn.DataFirst(t.auth);
      var mode := NormalizeAuthMode(value);
      authMode := if mode == SETUP_KEY_MODE || mode == SSO_MODE then mode else SSO_MODE;
      value := vpn.DataFirst(t.managementUrl);
      managementUrl := Strip(value);
      value := vpn.DataFirst(t.adminUrl);
      adminUrl := Strip(value);
      value := vpn.DataFirst(t.username);
      username := Strip(value);
      value := vpn.DataFirst(t.interfaceName);
      interfaceName := Strip(value);
      value := vpn.DataFirst(t.hostname);
      hostname := Strip(value);
      setupKey := LoadSecret(vpn, t.setupKey);
      preSharedKey := LoadSecret(vpn, t.preSharedKey);
    }

    method Validate() returns (problem: Option<EditorError>)
      ensures problem == Problem(View())
    {
      if authMode != SETUP_KEY_MODE && authMode != SSO_MODE {
        return Some(InvalidAuth);
      }
      var ok := IsHttpUrl(managementUrl);
      if !ok {
        return Some(InvalidUrl);
      }
      ok := IsHttpUrl(adminUrl);
      if !ok {
        return Some(InvalidUrl);
      }
      ok := ValidInterfaceName(interfaceName);
      if !ok {
        return Some(InvalidInterface);
      }
      return None;
    }

    /** Nothing is touched unless the fields are valid; then the whole VPN setting is as `Saved` says. */
    method Save(t: AliasTables, connection: Connection) returns (problem: Option<EditorError>)
      requires t.Valid()
      modifies connection, connection.vpn
      ensures problem == Problem(View())
      ensures problem.Some? ==> unchanged(connection) && (connection.vpn != null ==> unchanged(connection.vpn))
      ensures problem.None? ==> connection.kind == Some(VPN_TYPE) && connection.vpn != null
      ensures problem.None? ==> (if old(connection.vpn) == null then fresh(connection.vpn)
          else connection.vpn == old(connection.vpn))
      ensures problem.None? ==> connection.vpn.serviceType == SERVICE_NAME
      ensures problem.None? ==> connection.Contents() == Saved(t, old(connection.Contents()), View())
    {
      problem := Validate();
      if problem.Some? {
        return;
      }
      connection.kind := Some(VPN_TYPE);
      if connection.vpn == null {
        connection.vpn := new VpnSetting();
      }
      var vpn := connection.vpn;
      vpn.serviceType := SERVICE_NAME;
      SaveItems(t, vpn);
    }

    method SaveItems(t: AliasTables, vpn: VpnSetting)
      requires t.Valid() && Problem(View()).None?
      modifies vpn`data, vpn`secrets
      ensures vpn.Contents() == Saved(t, old(vpn.Contents()), View())
    {
      ghost var data := vpn.data;
      SavePlain(t, vpn);
      SaveSecrets(t, vpn);
      InTwoParts(data, PlainRows(t, View()), [Row(t.setupKey, ""), Row(t.preSharedKey, "")]);
    }

    method SavePlain(t: AliasTables, vpn: VpnSetting)
      requires t.Valid() && Problem(View()).None?
      modifies vpn`data
      ensures vpn.data == Assign(old(vpn.data), PlainRows(t, View()))
    {
      ghost var m := vpn.data;
      SaveServer(t, vpn);
      SaveIdentity(t, vpn);
      InTwoParts(m, ServerRows(t, View()), IdentityRows(t, View()));
    }

    method SaveServer(t: AliasTables, vpn: VpnSetting)
      requires t.Valid() && Problem(View()).None?
      modifies vpn`data
      ensures vpn.data == Assign(old(vpn.data), ServerRows(t, View()))
    {
      ghost var m, rows := vpn.data, ServerRows(t, View());
      NextRow(m, rows, 0);
      vpn.RemoveDataKeys(t.auth);
      if authMode == SETUP_KEY_MODE {
        vpn.data := vpn.data[t.auth[0] := SETUP_KEY_MODE];
      } else if authMode == SSO_MODE {
        vpn.data := vpn.data[t.auth[0] := SSO_MODE];
      }
      assert vpn.data == Assign(m, rows[..1]);
      NextRow(m, rows, 1);
      vpn.SetDataItem(t.managementUrl[0], t.managementUrl, managementUrl);
      assert vpn.data == Assign(m, rows[..2]);
      NextRow(m, rows, 2);
      vpn.SetDataItem(t.adminUrl[0], t.adminUrl, adminUrl);
      assert rows[..3] == rows;
    }

    method SaveIdentity(t: AliasTables, vpn: VpnSetting)
      requires t.Valid()
      modifies vpn`data
      ensures vpn.data == Assign(old(vpn.data), IdentityRows(t, View()))
    {
      ghost var m, rows := vpn.data, IdentityRows(t, View());
      NextRow(m, rows, 0);
      vpn.RemoveDataKeys(t.profileName);
      assert vpn.data == Assign(m, rows[..1]);
      NextRow(m, rows, 1);
      vpn.SetDataItem(t.username[0], t.username, username);
      assert vpn.data == Assign(m, rows[..2]);
      NextRow(m, rows, 2);
      vpn.SetDataItem(t.interfaceName[0], t.interfaceName, interfaceName);
      assert vpn.data == Assign(m, rows[..3]);
      NextRow(m, rows, 3);
      vpn.SetDataItem(t.hostname[0], t.hostname, hostname);
      assert rows[..4] == rows;
    }

    method SaveSecrets(t: AliasTables, vpn: VpnSetting)
      requires t.Valid()
      modifies vpn`data, vpn`secrets
      ensures vpn.data == Assign(old(vpn.data), [Row(t.setupKey, ""), Row(t.preSharedKey, "")])
      ensures vpn.secrets == Assign(old(vpn.secrets), SecretRows(t, View()))
    {
      TwoRows(vpn.data, Row(t.setupKey, ""), Row(t.preSharedKey, ""));
      TwoRows(vpn.secrets, Row(t.setupKey, KeptSetupKey(View())), Row(t.preSharedKey, NonBlank(preSharedKey)));
      if authMode == SETUP_KEY_MODE {
        vpn.SetSecretItem(t.setupKey[0], t.setupKey, setupKey);
      } else {
        vpn.RemoveSecretKeys(t.setupKey);
        vpn.RemoveDataKeys(t.setupKey);
      }
      vpn.SetSecretItem(t.preSharedKey[0], t.preSharedKey, preSharedKey);
    }
  }

  method LoadSecret(vpn: VpnSetting, keys: seq<string>) returns (value: string)
    ensures value == FirstSecret(vpn.Contents(), keys)
  {
    value := vpn.SecretFirst(keys);
    if value == "" {
      value := vpn.DataFirst(keys);
    }
  }
}
