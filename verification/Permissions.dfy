/** The user a NetworkManager connection is restricted to. */
module Permissions {
  import opened Wrappers
  import opened Text
  import opened Lines
  import opened Settings

  const USER_PREFIX := "user:"

  function PermissionUser(permission: string): Option<string> {
    var p := TrimSpace(permission);
    if !(USER_PREFIX <= p) then None else
      var user := TrimSpace(Before(p[|USER_PREFIX|..], ':'));
      if user == "" then None else Some(user)
  }

  /** The permission strings in a value; what is neither a string nor printed as one is passed over. */
  function PermissionStrings(v: Variant): seq<string> {
    match v
    case Strings(strings) => strings
    case Items(items) => ItemStrings(items)
    case Str(text) => [text]
    case _ => []
  }

  function ItemStrings(items: seq<Variant>): seq<string> {
    if items == [] then [] else
      ItemStrings(items[..|items| - 1])
      + (match AsString(items[|items| - 1]) case None => [] case Some(text) => [text])
  }

  /** The permission reads `user:`, the name, and then nothing or a colon and anything. */
  predicate Reads(permission: string, name: string, rest: string) {
    && TrimSpace(permission) == USER_PREFIX + name + rest
    && ':' !in name && (rest == "" || rest[0] == ':')
  }

  /** The permission is one for `user`: the name in it is that one, blanks aside. */
  ghost predicate Grants(permission: string, user: string) {
    user != "" && exists name, rest :: Reads(permission, name, rest) && user == TrimSpace(name)
  }

  lemma GrantsExactly(permission: string, user: string)
    ensures PermissionUser(permission) == Some(user) <==> Grants(permission, user)
  {
    var p := TrimSpace(permission);
    if USER_PREFIX <= p {
      var tail := p[|USER_PREFIX|..];
      var k := FirstOf(tail, ':');
      assert p == USER_PREFIX + tail && tail == tail[..k] + tail[k..];
      assert Reads(permission, tail[..k], tail[k..]);
    }
    if name, rest :| Reads(permission, name, rest) && user == TrimSpace(name) && user != "" {
      NameIsBefore(permission, name, rest);
    }
  }

  lemma NameIsBefore(permission: string, name: string, rest: string)
    requires Reads(permission, name, rest)
    ensures USER_PREFIX <= TrimSpace(permission) && Before(TrimSpace(permission)[|USER_PREFIX|..], ':') == name
  {
    var p := TrimSpace(permission);
    assert p[..|USER_PREFIX|] == USER_PREFIX && p[|USER_PREFIX|..] == name + rest;
    if rest == "" {
      assert name + rest == name;
      FirstOfIs(name, ':', |name|);
    } else {
      assert rest == [':'] + rest[1..];
      CutAt(name, ':', rest[1..]);
      assert name + rest == name + [':'] + rest[1..];
    }
  }

  /** The value holds this permission string: in a list, printed in a list of values, or alone. */
  predicate HoldsText(v: Variant, text: string) {
    match v
    case Strings(strings) => text in strings
    case Items(items) => exists i :: 0 <= i < |items| && AsString(items[i]) == Some(text)
    case Str(only) => only == text
    case _ => false
  }

  lemma {:induction false} ItemStringsMeaning(items: seq<Variant>, text: string)
    ensures text in ItemStrings(items) <==> exists i :: 0 <= i < |items| && AsString(items[i]) == Some(text)
  {
    if items != [] {
      var n := |items| - 1;
      ItemStringsMeaning(items[..n], text);
      assert forall i :: 0 <= i < n ==> items[..n][i] == items[i];
    }
  }

  lemma PermissionStringsMeaning(v: Variant, text: string)
    ensures text in PermissionStrings(v) <==> HoldsText(v, text)
  {
    if v.Items? {
      ItemStringsMeaning(v.items, text);
    }
  }

  ghost predicate Names(permissions: seq<string>, user: string) {
    exists i :: 0 <= i < |permissions| && Grants(permissions[i], user)
  }

  /** The value holds a permission for the user. */
  ghost predicate ValueNames(v: Variant, user: string) {
    exists text :: HoldsText(v, text) && Grants(text, user)
  }

  lemma ValueNamesExactly(v: Variant, user: string)
    ensures Names(PermissionStrings(v), user) <==> ValueNames(v, user)
  {
    var texts := PermissionStrings(v);
    if i :| 0 <= i < |texts| && Grants(texts[i], user) {
      PermissionStringsMeaning(v, texts[i]);
    }
    if text :| HoldsText(v, text) && Grants(text, user) {
      PermissionStringsMeaning(v, text);
      assert text in texts;
    }
  }

  /** Some permissions entry of some connection section names the user. */
  ghost predicate IsUser(settings: ConnectionSettings, user: string) {
    exists section :: section in settings && NormalizeSection(section) == "connection"
        && InSection(settings[section], user)
  }

  ghost predicate InSection(values: Section, user: string) {
    exists key :: key in values && NormalizeKey(key) == "permissions" && ValueNames(values[key], user)
  }

  method UsersFromStrings(permissions: seq<string>) returns (users: seq<string>)
    ensures forall u :: u in users <==> Names(permissions, u)
  {
    users := [];
    for i := 0 to |permissions|
      invariant forall u :: u in users <==> Names(permissions[..i], u)
    {
      ghost var before := users;
      match PermissionUser(permissions[i]) {
        case None =>
        case Some(user) => users := users + [user];
      }
      forall u ensures u in users <==> Names(permissions[..i + 1], u) {
        NamesNext(permissions, i, u);
        GrantsExactly(permissions[i], u);
        assert u in before <==> Names(permissions[..i], u);
      }
    }
    assert permissions[..|permissions|] == permissions;
  }

  lemma NamesNext(permissions: seq<string>, i: nat, u: string)
    requires i < |permissions|
    ensures Names(permissions[..i + 1], u) <==> Names(permissions[..i], u) || Grants(permissions[i], u)
  {
    NamesAppend(permissions[..i], permissions[i], u);
    assert permissions[..i + 1] == permissions[..i] + [permissions[i]];
  }

  lemma NamesAppend(init: seq<string>, last: string, u: string)
    ensures Names(init + [last], u) <==> Names(init, u) || Grants(last, u)
  {
    var all := init + [last];
    assert all[|init|] == last;
    if Names(init, u) {
      var j :| 0 <= j < |init| && Grants(init[j], u);
      assert all[j] == init[j];
    }
  }

  ghost predicate SectionDone(values: Section, rest: set<string>, user: string) {
    exists key :: key in values && key !in rest && NormalizeKey(key) == "permissions"
        && ValueNames(values[key], user)
  }

  ghost predicate SettingsDone(settings: ConnectionSettings, rest: set<string>, user: string) {
    exists section :: section in settings && section !in rest && NormalizeSection(section) == "connection"
        && InSection(settings[section], user)
  }

  method SectionUsers(values: Section) returns (users: set<string>)
    ensures forall u :: u in users <==> InSection(values, u)
  {
    users := {};
    var rest := values.Keys;
    while rest != {}
      invariant rest <= values.Keys
      invariant forall u :: u in users <==> SectionDone(values, rest, u)
      decreases |rest|
    {
      var key :| key in rest;
      ghost var before, after := rest, rest - {key};
      rest := rest - {key};
      if NormalizeKey(key) == "permissions" {
        var named := UsersFromStrings(PermissionStrings(values[key]));
        users := users + (set u | u in named);
        forall u ensures u in named <==> ValueNames(values[key], u) {
          ValueNamesExactly(values[key], u);
        }
      }
      forall u {
        SectionNext(values, before, key, u);
      }
    }
  }

  lemma SectionNext(values: Section, rest: set<string>, key: string, u: string)
    requires key in rest && key in values
    ensures SectionDone(values, rest - {key}, u) <==>
              SectionDone(values, rest, u) || (NormalizeKey(key) == "permissions"
                  && ValueNames(values[key], u))
  {
    if SectionDone(values, rest, u) {
      var k :| k in values && k !in rest && NormalizeKey(k) == "permissions" && ValueNames(values[k], u);
      assert k !in rest - {key};
    }
  }

  method AllUsers(settings: ConnectionSettings) returns (users: set<string>)
    ensures forall u :: u in users <==> IsUser(settings, u)
  {
    users := {};
    var rest := settings.Keys;
    while rest != {}
      invariant rest <= settings.Keys
      invariant forall u :: u in users <==> SettingsDone(settings, rest, u)
      decreases |rest|
    {
      var section :| section in rest;
      ghost var before := rest;
      rest := rest - {section};
      if NormalizeSection(section) == "connection" {
        var named := SectionUsers(settings[section]);
        users := users + named;
      }
      forall u {
        SettingsNext(settings, before, section, u);
      }
    }
  }

  lemma SettingsNext(settings: ConnectionSettings, rest: set<string>, section: string, u: string)
    requires section in rest && section in settings
    ensures SettingsDone(settings, rest - {section}, u) <==>
              SettingsDone(settings, rest, u) || (NormalizeSection(section) == "connection"
                  && InSection(settings[section], u))
  {
    if SettingsDone(settings, rest, u) {
      var s :| s in settings && s !in rest && NormalizeSection(s) == "connection" && InSection(settings[s], u);
      assert s !in rest - {section};
    }
  }

  /**
  The connection belongs to `user` if its permissions name that user and no other, in whatever
  order they are read.
  */
  method PermissionUsername(settings: ConnectionSettings) returns (user: string)
    ensures user != "" ==> IsUser(settings, user)
    ensures user != "" <==> exists u :: IsUser(settings, u) && forall w :: IsUser(settings, w) ==> w == u
  {
    var users := AllUsers(settings);
    if |users| != 1 {
      forall u | IsUser(settings, u) ensures exists w :: IsUser(settings, w) && w != u {
        AnotherOne(users, u);
      }
      return "";
    }
    var only :| only in users;
    NoBlankUser(settings, only);
    OnlyOne(users, only);
    return only;
  }

  lemma AnotherOne(users: set<string>, u: string)
    requires |users| != 1 && u in users
    ensures exists w :: w in users && w != u
  {
    assert |users - {u}| == |users| - 1;
    var w :| w in users - {u};
  }

  lemma OnlyOne(users: set<string>, u: string)
    requires |users| == 1 && u in users
    ensures forall w :: w in users ==> w == u
  {
    assert |users - {u}| == 0;
    assert users == {u} + (users - {u});
  }

  lemma NoBlankUser(settings: ConnectionSettings, u: string)
    requires IsUser(settings, u)
    ensures u != ""
  {
    var section :| section in settings && NormalizeSection(section) == "connection" && InSection(settings[section], u);
    var key :| key in settings[section] && NormalizeKey(key) == "permissions"
        && ValueNames(settings[section][key], u);
  }
}
