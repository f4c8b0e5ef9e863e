/** What the editor's text tests and lookups mean, said without their loops. */
module EditorMeaning {
  import opened Wrappers
  import opened EditorText
  import opened Editor
  import opened EditorProperties

  // ---------- stripping ----------

  predicate AllBlank(s: string, lo: nat, hi: nat)
    requires hi <= |s|
  {
    forall k :: lo <= k < hi ==> IsAsciiSpace(s[k])
  }

  /** From `i` to `j` is all of `s` but the blanks at both ends. */
  predicate Strips(s: string, i: nat, j: nat) {
    && i <= j <= |s| && AllBlank(s, 0, i) && AllBlank(s, j, |s|)
    && (i < j ==> !IsAsciiSpace(s[i]) && !IsAsciiSpace(s[j - 1]))
  }

  lemma {:induction false} StripFrontDrops(s: string) returns (i: nat)
    ensures i <= |s| && StripFront(s) == s[i..] && AllBlank(s, 0, i)
  {
    i := 0;
    if s != "" && IsAsciiSpace(s[0]) {
      var n := StripFrontDrops(s[1..]);
      i := n + 1;
      assert forall k :: 1 <= k < i ==> s[k] == s[1..][k - 1];
    }
  }

  lemma {:induction false} StripBackDrops(s: string) returns (j: nat)
    ensures j <= |s| && StripBack(s) == s[..j] && AllBlank(s, j, |s|)
  {
    j := |s|;
    if s != "" && IsAsciiSpace(s[|s| - 1]) {
      var t := s[..|s| - 1];
      j := StripBackDrops(t);
      assert forall k :: j <= k < |t| ==> s[k] == t[k];
    }
  }

  /** Stripping takes the blanks off both ends and nothing else. */
  lemma StripDrops(s: string) returns (i: nat, j: nat)
    ensures Strips(s, i, j) && Strip(s) == s[i..j]
  {
    i := StripFrontDrops(s);
    StripFrontShape(s);
    var t := s[i..];
    StripBackShape(t);
    var k := StripBackDrops(t);
    j := i + k;
    assert t[..k] == s[i..j];
    assert forall x :: j <= x < |s| ==> s[x] == t[x - i];
  }

  /** There is one way only to take the blanks off both ends. */
  lemma {:induction false} StripExactly(s: string, t: string)
    ensures Strip(s) == t <==> exists i: nat, j: nat :: Strips(s, i, j) && t == s[i..j]
  {
    var a, b := StripDrops(s);
  }

  // ---------- authentication modes ----------

  const SETUP_KEY_WORDS := ["setupkey", "setup-key", "key"]
  const SSO_WORDS := ["", "sso", "browser", "interactive", "login", "force-login", "reuse"]

  /** `word` is `s` in lower case, with dashes for underscores. */
  predicate Spells(word: string, s: string) {
    && |word| == |s|
    && forall i :: 0 <= i < |s| ==>
         word[i] == if s[i] == '_' then '-' else if 'A' <= s[i] <= 'Z' then (s[i] as int + 32) as char else s[i]
  }

  /** The words for either mode, in any case and with dashes or underscores; another word stays as it is. */
  lemma ModeWords(value: string, word: string)
    requires Spells(word, Strip(value))
    ensures NormalMode(value) ==
              if word in SETUP_KEY_WORDS then "setup-key" else if word in SSO_WORDS then "sso" else word
  {
    assert word == ModeWord(Strip(value));
  }

  // ---------- URLs ----------

  predicate EndsHost(c: char) {
    c == '/' || c == '?' || c == '#'
  }

  /** A URL in its parts: the scheme is http or https in any case, and the host is there and has no blank in it. */
  predicate HasParts(url: string, scheme: string, host: string, tail: string) {
    && url == scheme + "://" + host + tail
    && AsciiLowered(scheme) in ["http", "https"]
    && host != "" && (forall i :: 0 <= i < |host| ==> !EndsHost(host[i]) && !IsAsciiSpace(host[i]))
    && (tail == "" || EndsHost(tail[0]))
  }

  /** A value is accepted if it is blank or, blanks at its ends aside, such a URL, and only then. */
  lemma HttpUrlExactly(value: string)
    ensures HttpUrl(value) <==>
              IsBlank(value) || exists scheme, host, tail :: HasParts(Strip(value), scheme, host, tail)
  {
    var url := Strip(value);
    if HttpUrl(value) && url != "" {
      PartsOf(value);
    }
    if scheme, host, tail :| HasParts(url, scheme, host, tail) {
      PartsAccepted(value, scheme, host, tail);
    }
  }

  lemma PartsOf(value: string)
    requires HttpUrl(value) && !IsBlank(value)
    ensures exists scheme, host, tail :: HasParts(Strip(value), scheme, host, tail)
  {
    var url := Strip(value);
    var n := SchemeLength(url);
    var rest := url[n + 1..][2..];
    var h := HostLength(rest);
    JoinParts(url, n, rest, h);
    assert HasParts(url, url[..n], rest[..h], rest[h..]) by {
      assert forall i :: 0 <= i < h ==> rest[..h][i] == rest[i];
    }
  }

  lemma JoinParts(url: string, n: nat, rest: string, h: nat)
    requires n < |url| && url[n] == ':' && "//" <= url[n + 1..] && rest == url[n + 1..][2..] && h <= |rest|
    ensures url == url[..n] + "://" + rest[..h] + rest[h..]
  {
    var tail := url[n + 1..];
    assert tail == "//" + rest && rest == rest[..h] + rest[h..];
    assert url == url[..n] + [url[n]] + tail;
    assert [url[n]] + "//" == "://";
  }

  lemma PartsAccepted(value: string, scheme: string, host: string, tail: string)
    requires HasParts(Strip(value), scheme, host, tail)
    ensures HttpUrl(value)
  {
    var url, rest := Strip(value), host + tail;
    assert url == scheme + "://" + rest;
    SchemeSplits(url, scheme, rest);
    HostSplits(host, tail);
  }

  lemma SchemeSplits(url: string, scheme: string, rest: string)
    requires url == scheme + "://" + rest && AsciiLowered(scheme) in ["http", "https"]
    ensures SchemeLength(url) == |scheme| > 0 && url[..|scheme|] == scheme && url[|scheme| + 1..] == "//" + rest
  {
    var after := "://" + rest;
    assert url == scheme + after && after[1..] == "//" + rest;
    LettersOnly(scheme);
    SchemeCharsOf(scheme, after);
  }

  lemma HostSplits(host: string, tail: string)
    requires host != "" && (forall i :: 0 <= i < |host| ==> !EndsHost(host[i]) && !IsAsciiSpace(host[i]))
    requires tail == "" || EndsHost(tail[0])
    ensures HasHost("//" + (host + tail))
  {
    var rest := host + tail;
    HostLengthOf(host, tail);
    assert ("//" + rest)[2..] == rest && rest[..|host|] == host;
  }

  lemma LettersOnly(scheme: string)
    requires AsciiLowered(scheme) in ["http", "https"]
    ensures scheme != "" && forall i :: 0 <= i < |scheme| ==> IsAsciiLetter(scheme[i])
  {
    var low := AsciiLowered(scheme);
    assert forall i :: 0 <= i < |scheme| ==> low[i] == AsciiLower(scheme[i]);
  }

  lemma {:induction false} SchemeCharsOf(a: string, b: string)
    requires forall i :: 0 <= i < |a| ==> IsAsciiLetter(a[i])
    requires b != "" && !IsSchemeChar(b[0])
    ensures SchemeChars(a + b) == |a|
  {
    if a == "" {
      assert a + b == b;
    } else {
      SchemeCharsOf(a[1..], b);
      assert (a + b)[1..] == a[1..] + b;
    }
  }

  lemma {:induction false} HostLengthOf(a: string, b: string)
    requires forall i :: 0 <= i < |a| ==> !EndsHost(a[i])
    requires b == "" || EndsHost(b[0])
    ensures HostLength(a + b) == |a|
  {
    if a == "" {
      assert a + b == b;
    } else {
      HostLengthOf(a[1..], b);
      assert (a + b)[1..] == a[1..] + b;
    }
  }

  // ---------- looking items up ----------

  predicate Empty(m: map<string, string>, key: string) {
    key !in m || m[key] == ""
  }

  /** `v` is the item under the `i`th key, and those under the keys before it are missing or empty. */
  predicate FoundAt(m: map<string, string>, keys: seq<string>, i: nat, v: string) {
    && i < |keys| && keys[i] in m && m[keys[i]] == v && v != ""
    && forall j :: 0 <= j < i ==> Empty(m, keys[j])
  }

  lemma {:induction false} FirstMeaning(m: map<string, string>, keys: seq<string>)
    ensures if forall i :: 0 <= i < |keys| ==> Empty(m, keys[i]) then First(m, keys) == ""
            else exists i :: FoundAt(m, keys, i, First(m, keys))
  {
    if keys != [] {
      if Empty(m, keys[0]) {
        FirstMeaning(m, keys[1..]);
        assert forall i :: 0 < i < |keys| ==> keys[i] == keys[1..][i - 1];
        if i: nat :| FoundAt(m, keys[1..], i, First(m, keys[1..])) {
          assert FoundAt(m, keys, i + 1, First(m, keys));
        }
      } else {
        assert !Empty(m, keys[0]) && FoundAt(m, keys, 0, First(m, keys));
      }
    }
  }

  /** A secret is looked for among the secrets, and among the data items only if no secret is found. */
  lemma SecretMeaning(items: Items, keys: seq<string>)
    ensures if exists i :: 0 <= i < |keys| && !Empty(items.secrets, keys[i]) then
              exists i :: FoundAt(items.secrets, keys, i, FirstSecret(items, keys))
            else if exists i :: 0 <= i < |keys| && !Empty(items.data, keys[i]) then
              exists i :: FoundAt(items.data, keys, i, FirstSecret(items, keys))
            else
              FirstSecret(items, keys) == ""
  {
    FirstMeaning(items.secrets, keys);
    FirstMeaning(items.data, keys);
    if i: nat :| FoundAt(items.secrets, keys, i, First(items.secrets, keys)) {
      assert FoundAt(items.secrets, keys, i, FirstSecret(items, keys));
    } else if i: nat :| FoundAt(items.data, keys, i, First(items.data, keys)) {
      assert FoundAt(items.data, keys, i, FirstSecret(items, keys));
    }
  }

  // ---------- what is stored where ----------

  /** The value stands under the table's first key, or nowhere if it is empty. */
  predicate StoredAs(m: map<string, string>, keys: seq<string>, value: string)
    requires keys != []
  {
    forall i :: 0 <= i < |keys| ==> HoldsAt(m, Row(keys, value), keys[i])
  }

  lemma RowStored(m: map<string, string>, rows: seq<Row>, i: nat)
    requires Apart(rows) && i < |rows|
    ensures StoredAs(Assign(m, rows), rows[i].keys, rows[i].value)
  {
    forall k | 0 <= k < |rows[i].keys| ensures HoldsAt(Assign(m, rows), rows[i], rows[i].keys[k]) {
      RowHolds(m, rows, i, rows[i].keys[k]);
    }
  }

  /** Each field is stored under its own keys, stripped, whatever was there before. */
  lemma FieldsUnderOwnKeys(t: AliasTables, items: Items, f: Fields)
    requires t.Valid()
    ensures var data := Saved(t, items, f).data;
            && StoredAs(data, t.auth, f.authMode)
            && StoredAs(data, t.managementUrl, Strip(f.managementUrl))
            && StoredAs(data, t.adminUrl, Strip(f.adminUrl))
            && StoredAs(data, t.username, Strip(f.username))
            && StoredAs(data, t.interfaceName, Strip(f.interfaceName))
            && StoredAs(data, t.hostname, Strip(f.hostname))
  {
    DataRowsApart(t, f);
    var rows := DataRows(t, f);
    RowStored(items.data, rows, 0);
    RowStored(items.data, rows, 1);
    RowStored(items.data, rows, 2);
    RowStored(items.data, rows, 4);
    RowStored(items.data, rows, 5);
    RowStored(items.data, rows, 6);
  }

  /** Fields are turned down for the first of three reasons that applies. */
  lemma ProblemMeaning(f: Fields)
    ensures Problem(f) == Some(InvalidAuth) <==> f.authMode !in ["setup-key", "sso"]
    ensures Problem(f) == Some(InvalidUrl) <==>
              f.authMode in ["setup-key", "sso"] && !(HttpUrl(f.managementUrl) && HttpUrl(f.adminUrl))
    ensures Problem(f) == Some(InvalidInterface) <==>
              && f.authMode in ["setup-key", "sso"] && HttpUrl(f.managementUrl) && HttpUrl(f.adminUrl)
              && !InterfaceName(f.interfaceName)
  {
  }
}
