/** What the flattened settings hold: for every name, the value of the one binding that wins. */
module SettingsMeaning {
  import opened Text
  import opened Ordering
  import opened Settings
  import opened Wrappers

  // ---------- which bindings are listed ----------

  predicate IsEntry(settings: ConnectionSettings, name: string, e: Entry) {
    && e.section in settings && NormalizeSection(e.section) == name
    && e.key in settings[e.section] && e.variant == settings[e.section][e.key]
  }

  lemma SectionEntriesHave(section: string, values: Section, keys: seq<string>, e: Entry)
    requires IsListing(keys, values.Keys)
    ensures e in SectionEntries(section, values, keys) <==>
        e.section == section && e.key in values && e.variant == values[e.key]
  {
    var es := SectionEntries(section, values, keys);
    if e.section == section && e.key in values && e.variant == values[e.key] {
      var i :| 0 <= i < |keys| && keys[i] == e.key;
      assert es[i] == e;
    }
  }

  ghost function SectionPart(settings: ConnectionSettings, name: string, s: string): seq<Entry>
    requires s in settings
  {
    if NormalizeSection(s) == name then SectionEntries(s, settings[s], SortedKeys(settings[s].Keys)) else []
  }

  lemma {:induction false} EntriesOfStep(settings: ConnectionSettings, name: string, sections: seq<string>)
    requires sections != [] && forall s :: s in sections ==> s in settings
    ensures var n := |sections| - 1;
            EntriesOf(settings, name, sections) ==
                EntriesOf(settings, name, sections[..n]) + SectionPart(settings, name, sections[n])
  {
  }

  lemma PartHas(settings: ConnectionSettings, name: string, s: string, e: Entry)
    requires s in settings
    ensures e in SectionPart(settings, name, s) <==> IsEntry(settings, name, e) && e.section == s
  {
    SectionEntriesHave(s, settings[s], SortedKeys(settings[s].Keys), e);
  }

  lemma {:induction false} EntriesOfHave(settings: ConnectionSettings, name: string, sections: seq<string>, e: Entry)
    requires forall s :: s in sections ==> s in settings
    ensures e in EntriesOf(settings, name, sections) <==> IsEntry(settings, name, e) && e.section in sections
    decreases |sections|
  {
    if sections != [] {
      var n := |sections| - 1;
      assert sections == sections[..n] + [sections[n]];
      EntriesOfHave(settings, name, sections[..n], e);
      EntriesOfStep(settings, name, sections);
      PartHas(settings, name, sections[n], e);
    }
  }

  lemma EntriesHave(settings: ConnectionSettings, name: string, e: Entry)
    ensures e in Entries(settings, name) <==> IsEntry(settings, name, e)
  {
    EntriesOfHave(settings, name, SortedKeys(settings.Keys), e);
  }

  predicate InnerBinds(g: Group, e: Entry, keys: seq<string>, b: Binding) {
    && b.group == g && b.section == e.section && b.key == e.key && b.inner in keys && b.inner in AsTable(e.variant)
    && b.name == NormalizeKey(b.inner) && b.name != "" && b.value == TrimSpace(AsTable(e.variant)[b.inner])
  }

  lemma {:induction false} InnerBindingsHave(g: Group, e: Entry, keys: seq<string>, b: Binding)
    requires forall k :: k in keys ==> k in AsTable(e.variant)
    ensures b in InnerBindings(g, e, keys) <==> InnerBinds(g, e, keys, b)
    decreases |keys|
  {
    if keys != [] {
      var n := |keys| - 1;
      assert keys == keys[..n] + [keys[n]];
      InnerBindingsHave(g, e, keys[..n], b);
    }
  }

  lemma EntryBindingsHave(g: Group, e: Entry, b: Binding)
    ensures b in EntryBindings(g, e) <==>
              b.group == g && b.section == e.section && b.key == e.key && TakesKey(g, e.key) && BoundIn(b, e.variant)
  {
    if g == Data || g == Secrets {
      InnerBindingsHave(g, e, SortedKeys(AsTable(e.variant).Keys), b);
    }
  }

  lemma {:induction false} GatherHas(g: Group, entries: seq<Entry>, b: Binding)
    ensures b in Gather(g, entries) <==> exists e :: e in entries && b in EntryBindings(g, e)
  {
    if entries != [] {
      var n := |entries| - 1;
      assert entries == entries[..n] + [entries[n]];
      GatherHas(g, entries[..n], b);
    }
  }

  lemma {:induction false} GroupHas(settings: ConnectionSettings, g: Group, b: Binding)
    ensures b in Gather(g, Entries(settings, g.Name())) <==> IsBinding(settings, b) && b.group == g
  {
    GatherHas(g, Entries(settings, g.Name()), b);
    if b in Gather(g, Entries(settings, g.Name())) {
      var e :| e in Entries(settings, g.Name()) && b in EntryBindings(g, e);
      EntriesHave(settings, g.Name(), e);
      EntryBindingsHave(g, e, b);
    }
    if IsBinding(settings, b) && b.group == g {
      var e := Entry(b.section, b.key, settings[b.section][b.key]);
      EntriesHave(settings, g.Name(), e);
      EntryBindingsHave(g, e, b);
    }
  }

  lemma BindingsHave(settings: ConnectionSettings, b: Binding)
    ensures b in Bindings(settings) <==> IsBinding(settings, b)
  {
    GroupHas(settings, Connection, b);
    GroupHas(settings, Scalars, b);
    GroupHas(settings, Data, b);
    GroupHas(settings, Secrets, b);
  }

  // ---------- in which order ----------

  predicate EntryPrecedes(a: Entry, b: Entry) {
    Less(a.section, b.section) || (a.section == b.section && Less(a.key, b.key))
  }

  ghost predicate EntriesInOrder(es: seq<Entry>) {
    forall i, j :: 0 <= i < j < |es| ==> EntryPrecedes(es[i], es[j])
  }

  ghost predicate InOrder(bs: seq<Binding>) {
    forall i, j :: 0 <= i < j < |bs| ==> Precedes(bs[i], bs[j])
  }

  lemma {:induction false} EntriesOfOrdered(settings: ConnectionSettings, name: string, sections: seq<string>)
    requires Sorted(sections) && forall s :: s in sections ==> s in settings
    ensures EntriesInOrder(EntriesOf(settings, name, sections))
    decreases |sections|
  {
    if sections != [] {
      var n := |sections| - 1;
      EntriesOfOrdered(settings, name, sections[..n]);
      EntriesOfStep(settings, name, sections);
      var front, part := EntriesOf(settings, name, sections[..n]), SectionPart(settings, name, sections[n]);
      forall i, j | 0 <= i < |front| && 0 <= j < |part| ensures EntryPrecedes(front[i], part[j]) {
        EntriesOfHave(settings, name, sections[..n], front[i]);
        PartHas(settings, name, sections[n], part[j]);
      }
      PartOrdered(settings, name, sections[n]);
      JoinEntries(front, part);
    }
  }

  lemma PartOrdered(settings: ConnectionSettings, name: string, s: string)
    requires s in settings
    ensures EntriesInOrder(SectionPart(settings, name, s))
  {
  }

  lemma JoinEntries(a: seq<Entry>, b: seq<Entry>)
    requires EntriesInOrder(a) && EntriesInOrder(b)
    requires forall i, j :: 0 <= i < |a| && 0 <= j < |b| ==> EntryPrecedes(a[i], b[j])
    ensures EntriesInOrder(a + b)
  {
  }

  lemma Join(a: seq<Binding>, b: seq<Binding>)
    requires InOrder(a) && InOrder(b)
    requires forall x, y :: x in a && y in b ==> Precedes(x, y)
    ensures InOrder(a + b)
  {
    forall i, j | 0 <= i < j < |a + b| ensures Precedes((a + b)[i], (a + b)[j]) {
      if i < |a| && |a| <= j {
        assert a[i] in a && b[j - |a|] in b;
      }
    }
  }

  lemma {:induction false} InnerOrdered(g: Group, e: Entry, keys: seq<string>)
    requires Sorted(keys) && forall k :: k in keys ==> k in AsTable(e.variant)
    ensures InOrder(InnerBindings(g, e, keys))
    decreases |keys|
  {
    if keys != [] {
      var n := |keys| - 1;
      var front := InnerBindings(g, e, keys[..n]);
      InnerOrdered(g, e, keys[..n]);
      var last :=
        if NormalizeKey(keys[n]) != "" then
          [Binding(g, e.section, e.key, keys[n], NormalizeKey(keys[n]), TrimSpace(AsTable(e.variant)[keys[n]]))]
        else
          [];
      forall x, y | x in front && y in last ensures Precedes(x, y) {
        InnerBindingsHave(g, e, keys[..n], x);
      }
      Join(front, last);
    }
  }

  lemma EntryOrdered(g: Group, e: Entry)
    ensures InOrder(EntryBindings(g, e))
  {
    if g == Data || g == Secrets {
      InnerOrdered(g, e, SortedKeys(AsTable(e.variant).Keys));
    }
  }

  lemma FromOrderedEntries(g: Group, e: Entry, f: Entry, x: Binding, y: Binding)
    requires EntryPrecedes(e, f) && x in EntryBindings(g, e) && y in EntryBindings(g, f)
    ensures Precedes(x, y)
  {
    EntryBindingsHave(g, e, x);
    EntryBindingsHave(g, f, y);
  }

  lemma {:induction false} GatherOrdered(g: Group, entries: seq<Entry>)
    requires EntriesInOrder(entries)
    ensures InOrder(Gather(g, entries))
  {
    if entries != [] {
      var n := |entries| - 1;
      var front, last := Gather(g, entries[..n]), EntryBindings(g, entries[n]);
      GatherOrdered(g, entries[..n]);
      EntryOrdered(g, entries[n]);
      forall x, y | x in front && y in last ensures Precedes(x, y) {
        GatherHas(g, entries[..n], x);
        var e :| e in entries[..n] && x in EntryBindings(g, e);
        FromOrderedEntries(g, e, entries[n], x, y);
      }
      Join(front, last);
    }
  }

  lemma {:induction false} GroupOrdered(settings: ConnectionSettings, g: Group)
    ensures InOrder(Gather(g, Entries(settings, g.Name())))
  {
    EntriesOfOrdered(settings, g.Name(), SortedKeys(settings.Keys));
    GatherOrdered(g, Entries(settings, g.Name()));
  }

  lemma {:induction false} GroupsInOrder(settings: ConnectionSettings, g: Group, h: Group)
    requires g.Rank() < h.Rank()
    ensures var a, b := Gather(g, Entries(settings, g.Name())), Gather(h, Entries(settings, h.Name()));
            forall x, y :: x in a && y in b ==> Precedes(x, y)
  {
    forall x, y | x in Gather(g, Entries(settings, g.Name())) && y in Gather(h, Entries(settings, h.Name()))
      ensures Precedes(x, y)
    {
      GroupHas(settings, g, x);
      GroupHas(settings, h, y);
    }
  }

  lemma JoinFour(a: seq<Binding>, b: seq<Binding>, c: seq<Binding>, d: seq<Binding>)
    requires InOrder(a) && InOrder(b) && InOrder(c) && InOrder(d)
    requires forall x, y :: x in a && (y in b || y in c || y in d) ==> Precedes(x, y)
    requires forall x, y :: x in b && (y in c || y in d) ==> Precedes(x, y)
    requires forall x, y :: x in c && y in d ==> Precedes(x, y)
    ensures InOrder(a + b + c + d)
  {
    Join(a, b);
    Join(a + b, c);
    Join(a + b + c, d);
  }

  lemma BindingsOrdered(settings: ConnectionSettings)
    ensures InOrder(Bindings(settings))
  {
    GroupOrdered(settings, Connection);
    GroupOrdered(settings, Scalars);
    GroupOrdered(settings, Data);
    GroupOrdered(settings, Secrets);
    GroupsInOrder(settings, Connection, Scalars);
    GroupsInOrder(settings, Connection, Data);
    GroupsInOrder(settings, Connection, Secrets);
    GroupsInOrder(settings, Scalars, Data);
    GroupsInOrder(settings, Scalars, Secrets);
    GroupsInOrder(settings, Data, Secrets);
    JoinFour(Gather(Connection, Entries(settings, "connection")), Gather(Scalars, Entries(settings, "vpn")),
             Gather(Data, Entries(settings, "vpn")), Gather(Secrets, Entries(settings, "vpn")));
  }

  // ---------- the last one of a name wins ----------

  ghost predicate IsLast(bs: seq<Binding>, b: Binding) {
    && b in bs
    && forall c :: c in bs && c.name == b.name && c != b ==> Precedes(c, b)
  }

  lemma {:induction false} NamesStored(bs: seq<Binding>, name: string)
    ensures name in Store(map[], bs) <==> exists b :: b in bs && b.name == name
  {
    if bs != [] {
      var n := |bs| - 1;
      assert bs == bs[..n] + [bs[n]];
      NamesStored(bs[..n], name);
    }
  }

  lemma {:induction false} StoredIsLast(bs: seq<Binding>, name: string) returns (b: Binding)
    requires InOrder(bs) && name in Store(map[], bs)
    ensures IsLast(bs, b) && b.name == name && b.value == Store(map[], bs)[name]
  {
    var n := |bs| - 1;
    if bs[n].name == name {
      b := bs[n];
    } else {
      b := StoredIsLast(bs[..n], name);
      assert bs == bs[..n] + [bs[n]];
    }
  }

  lemma PrecedesOneWay(a: Binding, b: Binding)
    requires Precedes(a, b)
    ensures !Precedes(b, a)
  {
    OneWay(a.section, b.section);
    OneWay(a.key, b.key);
    OneWay(a.inner, b.inner);
  }

  lemma {:induction false} OneWay(a: string, b: string)
    ensures !(Less(a, b) && Less(b, a))
  {
    if Less(a, b) && Less(b, a) {
      LessTransitive(a, b, a);
      LessIrreflexive(a);
    }
  }

  lemma AtMostOneWins(settings: ConnectionSettings, a: Binding, b: Binding)
    requires Wins(settings, a) && Wins(settings, b) && a.name == b.name
    ensures a == b
  {
    if a != b {
      PrecedesOneWay(a, b);
    }
  }

  lemma WinnerOf(settings: ConnectionSettings, name: string) returns (b: Binding)
    requires name in Flatten(settings)
    ensures Wins(settings, b) && b.name == name && b.value == Flatten(settings)[name]
  {
    BindingsOrdered(settings);
    b := StoredIsLast(Bindings(settings), name);
    BindingsHave(settings, b);
    forall c | IsBinding(settings, c) && c.name == b.name && c != b ensures Precedes(c, b) {
      BindingsHave(settings, c);
    }
  }

  /**
  A name has a value exactly if some binding gives it one, and the value is that of the
  binding that all others of the name precede: secrets over data over scalars over the
  connection's interface name, and in one group the greatest section, key and inner key.
  */
  lemma FlattenMeaning(settings: ConnectionSettings, name: string, value: string)
    ensures name in Flatten(settings) <==> exists b :: IsBinding(settings, b) && b.name == name
    ensures name in Flatten(settings) && Flatten(settings)[name] == value <==>
              exists b :: Wins(settings, b) && b.name == name && b.value == value
  {
    NamesStored(Bindings(settings), name);
    if name in Flatten(settings) {
      var w := WinnerOf(settings, name);
      forall b | Wins(settings, b) && b.name == name ensures b == w {
        AtMostOneWins(settings, b, w);
      }
      assert IsBinding(settings, w);
    }
    forall b | IsBinding(settings, b) && b.name == name ensures name in Flatten(settings) {
      BindingsHave(settings, b);
    }
  }

  lemma ValuesAreTrimmed(settings: ConnectionSettings, name: string)
    ensures name in Flatten(settings) ==> IsTrimmed(Flatten(settings)[name]) && name != ""
  {
    if name in Flatten(settings) {
      var b := WinnerOf(settings, name);
      var v := settings[b.section][b.key];
      if b.group == Connection || b.group == Scalars {
        TrimSpaceTrims(AsString(v).value);
      } else {
        TrimSpaceTrims(AsTable(v)[b.inner]);
      }
    }
  }
}
