/** The alias tables of the NetBird editor never claim one key for two fields. */
module EditorTables {
  import opened Editor

  /** Which table a key belongs to, told from a few of its letters. */
  function Owner(key: string): nat {
    if |key| < 3 then 9
    else if key[0] == 'a' then (if key[2] == 't' then 0 else 2)
    else if key[0] == 'l' then 0
    else if key[0] == 'm' then 1
    else if key[0] == 'p' then (if key[2] == 'o' then 3 else 8)
    else if key[0] == 'u' then 4
    else if key[0] == 'i' then 5
    else if key[0] == 'h' then 6
    else if key[0] == 's' then 7
    else if key[0] == 'n' && |key| > 8 then OwnerOfPrefixed(key[8])
    else 9
  }

  function OwnerOfPrefixed(c: char): nat {
    if c == 'm' then 1 else if c == 'a' then 2 else if c == 'p' then 3 else if c == 'u' then 4
    else if c == 'i' then 5 else if c == 's' then 7 else 9
  }

  ghost predicate OwnedBy(keys: seq<string>, n: nat) {
    forall i :: 0 <= i < |keys| ==> Owner(keys[i]) == n
  }

  lemma OwnedApart(a: seq<string>, m: nat, b: seq<string>, n: nat)
    requires OwnedBy(a, m) && OwnedBy(b, n) && m != n
    ensures Disjoint(a, b)
  {
  }

  lemma Auth() ensures OwnedBy(NETBIRD_TABLES.auth, 0) {}
  lemma ManagementUrl() ensures OwnedBy(NETBIRD_TABLES.managementUrl, 1) {}
  lemma AdminUrl() ensures OwnedBy(NETBIRD_TABLES.adminUrl, 2) {}
  lemma ProfileName() ensures OwnedBy(NETBIRD_TABLES.profileName, 3) {}
  lemma Username() ensures OwnedBy(NETBIRD_TABLES.username, 4) {}
  lemma InterfaceName() ensures OwnedBy(NETBIRD_TABLES.interfaceName, 5) {}
  lemma Hostname() ensures OwnedBy(NETBIRD_TABLES.hostname, 6) {}
  lemma SetupKey() ensures OwnedBy(NETBIRD_TABLES.setupKey, 7) {}
  lemma PreSharedKey() ensures OwnedBy(NETBIRD_TABLES.preSharedKey, 8) {}

  lemma AllApart(t: AliasTables)
    requires forall i :: 0 <= i < 9 ==> OwnedBy(t.All()[i], i)
    ensures forall i, j :: 0 <= i < j < 9 ==> Disjoint(t.All()[i], t.All()[j])
  {
    forall i, j | 0 <= i < j < 9 ensures Disjoint(t.All()[i], t.All()[j]) {
      OwnedApart(t.All()[i], i, t.All()[j], j);
    }
  }

  lemma TablesAreValid()
    ensures NETBIRD_TABLES.Valid()
  {
    Auth();
    ManagementUrl();
    AdminUrl();
    ProfileName();
    Username();
    InterfaceName();
    Hostname();
    SetupKey();
    PreSharedKey();
    AllApart(NETBIRD_TABLES);
  }
}
