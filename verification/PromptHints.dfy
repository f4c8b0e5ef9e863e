/**
The hints of a SecretsRequired signal: the service prints them, NetworkManager passes them
on, and the authentication dialog parses them.
*/
module PromptHints {
  import opened Text

  // Every key is its words joined by dashes, as in x-netbird-sso-user-code.
  const NETBIRD := Dash("x", "netbird")
  const ACTIVATION_ID := Dash(NETBIRD, Dash("activation", "id"))
  const SSO := Dash(NETBIRD, "sso")
  const VERIFICATION_URI := Dash(SSO, Dash("verification", "uri"))
  const VERIFICATION_URI_COMPLETE := Dash(VERIFICATION_URI, "complete")
  const USER_CODE := Dash(SSO, Dash("user", "code"))
  const CONTINUE := Dash(SSO, "continue")
  const SETUP_KEY := Dash("setup", "key")

  // ---------- the service ----------

  datatype LoginResponse = LoginResponse(userCode: string, verificationUri: string, verificationUriComplete: string)

  function FormatHint(key: string, value: string): string {
    key + "=" + value
  }

  function SetupKeyHints(id: nat): seq<string> {
    [SETUP_KEY, FormatHint(ACTIVATION_ID, Decimal(id))]
  }

  function OptionalHint(key: string, value: string): seq<string> {
    if value != "" then [FormatHint(key, value)] else []
  }

  function SsoFrontHints(id: nat): seq<string> {
    [FormatHint(ACTIVATION_ID, Decimal(id)), FormatHint(SSO, "true"), CONTINUE]
  }

  function SsoHints(id: nat, r: LoginResponse): seq<string> {
    SsoFrontHints(id)
    + OptionalHint(VERIFICATION_URI, r.verificationUri)
    + OptionalHint(VERIFICATION_URI_COMPLETE, r.verificationUriComplete)
    + OptionalHint(USER_CODE, r.userCode)
  }

  // ---------- the dialog ----------

  datatype HintValues = HintValues(raw: seq<string>, values: map<string, string>)

  function HintKey(hint: string): string {
    TrimSpace(Before(TrimSpace(hint), '='))
  }

  function HintValue(hint: string): string {
    var h := TrimSpace(hint);
    TrimSpace(if FirstOf(h, '=') < |h| then After(h, '=') else "true")
  }

  /** The hints stored one after the other; a hint without a key is skipped. */
  function Values(hints: seq<string>): map<string, string> {
    if hints == [] then map[] else
      var m, hint := Values(hints[..|hints| - 1]), hints[|hints| - 1];
      if HintKey(hint) == "" then m else m[NormalizeKey(HintKey(hint)) := HintValue(hint)]
  }

  /** A hint with an equals sign is a key and a value, blanks aside; one without is a key that is true. */
  lemma HintMeaning(hint: string, key: string, value: string)
    ensures '=' !in key && TrimSpace(hint) == key + ['='] + value ==>
              HintKey(hint) == TrimSpace(key) && HintValue(hint) == TrimSpace(value)
    ensures '=' !in TrimSpace(hint) ==> HintKey(hint) == TrimSpace(hint) && HintValue(hint) == "true"
  {
    if '=' !in key {
      CutAt(key, '=', value);
    }
    var h := TrimSpace(hint);
    TrimSpaceIdempotent(hint);
    TrimmedIsFixed("true");
    if '=' !in h {
      assert FirstOf(h, '=') == |h| && h[..|h|] == h;
    }
  }

  predicate SetsKey(hint: string, key: string) {
    HintKey(hint) != "" && NormalizeKey(HintKey(hint)) == key
  }

  predicate IsLastHint(hints: seq<string>, key: string, i: nat) {
    i < |hints| && SetsKey(hints[i], key) && forall j :: i < j < |hints| ==> !SetsKey(hints[j], key)
  }

  /** The value of a key is that of the last hint for it, and only keys with a hint have one. */
  ghost predicate LastWins(hints: seq<string>, values: map<string, string>, key: string) {
    if key in values then exists i: nat :: IsLastHint(hints, key, i) && values[key] == HintValue(hints[i])
    else forall i :: 0 <= i < |hints| ==> !SetsKey(hints[i], key)
  }

  lemma {:induction false} LastHintWins(hints: seq<string>, key: string)
    ensures LastWins(hints, Values(hints), key)
  {
    if hints != [] {
      LastHintWins(hints[..|hints| - 1], key);
      LastHintCounts(hints, key);
      if SetsKey(hints[|hints| - 1], key) {
        assert IsLastHint(hints, key, |hints| - 1);
      } else {
        OtherHintsStay(hints, Values(hints[..|hints| - 1]), Values(hints), key);
      }
    }
  }

  predicate SameValue(a: map<string, string>, b: map<string, string>, key: string) {
    (key in a <==> key in b) && (key in a && key in b ==> a[key] == b[key])
  }

  /** What the last hint does to the value of a key. */
  lemma LastHintCounts(hints: seq<string>, key: string)
    requires hints != []
    ensures var hint := hints[|hints| - 1];
            if SetsKey(hint, key) then key in Values(hints) && Values(hints)[key] == HintValue(hint)
            else SameValue(Values(hints[..|hints| - 1]), Values(hints), key)
  {
  }

  lemma OtherHintsStay(hints: seq<string>, before: map<string, string>, after: map<string, string>, key: string)
    requires hints != [] && LastWins(hints[..|hints| - 1], before, key) && !SetsKey(hints[|hints| - 1], key)
    requires SameValue(before, after, key)
    ensures LastWins(hints, after, key)
  {
    var init := hints[..|hints| - 1];
    if key in before {
      var i: nat :| IsLastHint(init, key, i) && before[key] == HintValue(init[i]);
      StaysLast(hints, key, i);
    } else {
      forall i | 0 <= i < |hints| ensures !SetsKey(hints[i], key) {
        assert i < |init| ==> init[i] == hints[i];
      }
    }
  }

  lemma StaysLast(hints: seq<string>, key: string, i: nat)
    requires hints != [] && IsLastHint(hints[..|hints| - 1], key, i) && !SetsKey(hints[|hints| - 1], key)
    ensures IsLastHint(hints, key, i) && hints[i] == hints[..|hints| - 1][i]
  {
    var init := hints[..|hints| - 1];
    assert forall j :: 0 <= j < |init| ==> init[j] == hints[j];
  }

  method ParseHints(hints: seq<string>) returns (parsed: HintValues)
    ensures parsed == HintValues(hints, Values(hints))
  {
    var values := map[];
    for i := 0 to |hints|
      invariant values == Values(hints[..i])
    {
      assert hints[..i + 1][..i] == hints[..i];
      var hint := TrimSpace(hints[i]);
      var key := TrimSpace(Before(hint, '='));
      if key != "" {
        var value := if FirstOf(hint, '=') < |hint| then After(hint, '=') else "true";
        values := values[NormalizeKey(key) := TrimSpace(value)];
      }
    }
    assert hints[..|hints|] == hints;
    parsed := HintValues(hints, values);
  }

  function ValueOf(hints: seq<string>, key: string): string {
    var k := NormalizeKey(key);
    TrimSpace(if k in Values(hints) then Values(hints)[k] else "")
  }

  predicate IsSetupKeyName(name: string) {
    NormalizeKey(name) == "setupkey" || NormalizeKey(name) == "netbirdsetupkey"
  }

  predicate NamesSetupKey(hint: string) {
    IsSetupKeyName(Before(hint, '='))
  }

  predicate HasSetupKeyHint(hints: seq<string>) {
    exists i :: 0 <= i < |hints| && NamesSetupKey(hints[i])
  }

  method HasSetupKey(hints: seq<string>) returns (found: bool)
    ensures found == HasSetupKeyHint(hints)
  {
    for i := 0 to |hints|
      invariant !HasSetupKeyHint(hints[..i])
    {
      if IsSetupKeyName(Before(hints[i], '=')) {
        assert NamesSetupKey(hints[i]);
        return true;
      }
      assert hints[..i + 1] == hints[..i] + [hints[i]];
    }
    assert hints[..|hints|] == hints;
    return false;
  }

  predicate IsTruthy(value: string) {
    ToLower(TrimSpace(value)) in {"1", "t", "true", "y", "yes", "on"}
  }

  predicate SsoRequested(hints: seq<string>) {
    || IsTruthy(ValueOf(hints, SSO))
    || ValueOf(hints, VERIFICATION_URI) != ""
    || ValueOf(hints, VERIFICATION_URI_COMPLETE) != ""
    || ValueOf(hints, USER_CODE) != ""
  }

  // ---------- the keys do not collide ----------

  lemma NetbirdKey()
    ensures IsPlainKey(NETBIRD) && |Keep(NETBIRD)| == 8
  {
    TwoWords("x", "netbird");
  }

  lemma ActivationIdKey()
    ensures IsPlainKey(ACTIVATION_ID) && |NormalizeKey(ACTIVATION_ID)| == 20
  {
    NetbirdKey();
    TwoWords("activation", "id");
    Joined(NETBIRD, Dash("activation", "id"));
    NormalizePlain(ACTIVATION_ID);
  }

  lemma SsoKey()
    ensures IsPlainKey(SSO) && |Keep(SSO)| == 11 && NormalizeKey(SSO) == Keep(SSO)
  {
    NetbirdKey();
    Word("sso");
    Joined(NETBIRD, "sso");
    NormalizePlain(SSO);
  }

  lemma UriKey()
    ensures IsPlainKey(VERIFICATION_URI) && |Keep(VERIFICATION_URI)| == 26
    ensures NormalizeKey(VERIFICATION_URI) == Keep(VERIFICATION_URI)
  {
    SsoKey();
    TwoWords("verification", "uri");
    Joined(SSO, Dash("verification", "uri"));
    NormalizePlain(VERIFICATION_URI);
  }

  lemma CompleteKey()
    ensures IsPlainKey(VERIFICATION_URI_COMPLETE) && |NormalizeKey(VERIFICATION_URI_COMPLETE)| == 34
  {
    UriKey();
    Word("complete");
    Joined(VERIFICATION_URI, "complete");
    NormalizePlain(VERIFICATION_URI_COMPLETE);
  }

  lemma UserCodeKey()
    ensures IsPlainKey(USER_CODE) && |NormalizeKey(USER_CODE)| == 19 && NormalizeKey(USER_CODE)[11] == 'u'
  {
    SsoKey();
    TwoWords("user", "code");
    Joined(SSO, Dash("user", "code"));
    NormalizePlain(USER_CODE);
  }

  lemma ContinueKey()
    ensures IsPlainKey(CONTINUE) && |NormalizeKey(CONTINUE)| == 19 && NormalizeKey(CONTINUE)[11] == 'c'
  {
    SsoKey();
    Word("continue");
    Joined(SSO, "continue");
    NormalizePlain(CONTINUE);
  }

  lemma SetupKeyKey()
    ensures IsPlainKey(SETUP_KEY) && NormalizeKey(SETUP_KEY) == "setupkey"
  {
    TwoWords("setup", "key");
    NormalizePlain(SETUP_KEY);
  }

  lemma PlainKeys()
    ensures IsPlainKey(ACTIVATION_ID) && IsPlainKey(SSO) && IsPlainKey(VERIFICATION_URI)
    ensures IsPlainKey(VERIFICATION_URI_COMPLETE) && IsPlainKey(USER_CODE) && IsPlainKey(CONTINUE)
  {
    ActivationIdKey();
    SsoKey();
    UriKey();
    CompleteKey();
    UserCodeKey();
    ContinueKey();
  }

  // ---------- one hint ----------

  lemma PrintedHint(key: string, value: string)
    requires IsPlainKey(key)
    ensures HintKey(FormatHint(key, value)) == key && HintValue(FormatHint(key, value)) == TrimSpace(value)
    ensures Before(FormatHint(key, value), '=') == key
  {
    NormalizePlain(key);
    var hint := key + "=" + value;
    TrimRightAfter(key + "=", value);
    CutAt(key, '=', TrimRight(value));
    CutAt(key, '=', value);
    TrimSpaceOfTrimRight(value);
  }

  lemma BareHint(key: string)
    requires IsPlainKey(key)
    ensures HintKey(key) == key && HintValue(key) == TrimSpace("true") && Before(key, '=') == key
  {
    NormalizePlain(key);
  }

  /** A hint decides the value of its own key and of no other. */
  lemma HintDecides(hints: seq<string>, hint: string, key: string, wanted: string)
    requires HintKey(hint) == key && IsPlainKey(key)
    ensures ValueOf(hints + [hint], wanted) ==
              if NormalizeKey(key) == NormalizeKey(wanted) then TrimSpace(HintValue(hint)) else ValueOf(hints, wanted)
  {
    assert (hints + [hint])[..|hints|] == hints;
  }

  lemma PrintedHintDecides(hints: seq<string>, key: string, value: string, wanted: string)
    requires IsPlainKey(key)
    ensures ValueOf(hints + [FormatHint(key, value)], wanted) ==
              if NormalizeKey(key) == NormalizeKey(wanted) then TrimSpace(value) else ValueOf(hints, wanted)
  {
    PrintedHint(key, value);
    HintDecides(hints, FormatHint(key, value), key, wanted);
    TrimSpaceIdempotent(value);
  }

  lemma BareHintDecides(hints: seq<string>, key: string, wanted: string)
    requires IsPlainKey(key)
    ensures ValueOf(hints + [key], wanted) ==
              if NormalizeKey(key) == NormalizeKey(wanted) then TrimSpace("true") else ValueOf(hints, wanted)
  {
    BareHint(key);
    HintDecides(hints, key, key, wanted);
    TrimSpaceIdempotent("true");
  }

  lemma OptionalHintDecides(hints: seq<string>, key: string, value: string, wanted: string)
    requires IsPlainKey(key)
    ensures ValueOf(hints + OptionalHint(key, value), wanted) ==
              if value != "" && NormalizeKey(key) == NormalizeKey(wanted) then TrimSpace(value)
                  else ValueOf(hints, wanted)
  {
    if value != "" {
      PrintedHintDecides(hints, key, value, wanted);
    } else {
      assert hints + [] == hints;
    }
  }

  // ---------- round trips ----------

  /** What the fixed hints in front say about a key. */
  lemma {:induction false} SsoFront(id: nat, wanted: string)
    ensures ValueOf(SsoFrontHints(id), wanted) ==
              if NormalizeKey(CONTINUE) == NormalizeKey(wanted) then "true"
              else if NormalizeKey(SSO) == NormalizeKey(wanted) then "true"
              else if NormalizeKey(ACTIVATION_ID) == NormalizeKey(wanted) then Decimal(id)
              else ""
  {
    PlainKeys();
    FrontOf(ACTIVATION_ID, Decimal(id), SSO, CONTINUE, wanted);
    DecimalTrimmed(id);
  }

  lemma FrontOf(first: string, value: string, second: string, third: string, wanted: string)
    requires IsPlainKey(first) && IsPlainKey(second) && IsPlainKey(third)
    ensures ValueOf([FormatHint(first, value), FormatHint(second, "true"), third], wanted) ==
              if NormalizeKey(third) == NormalizeKey(wanted) then "true"
              else if NormalizeKey(second) == NormalizeKey(wanted) then "true"
              else if NormalizeKey(first) == NormalizeKey(wanted) then TrimSpace(value)
              else ""
  {
    var h1, h2 := FormatHint(first, value), FormatHint(second, "true");
    PrintedHintDecides([], first, value, wanted);
    PrintedHintDecides([h1], second, "true", wanted);
    BareHintDecides([h1, h2], third, wanted);
    assert [] + [h1] == [h1] && [h1] + [h2] == [h1, h2] && [h1, h2] + [third] == [h1, h2, third];
    TrueIsTrimmed();
  }

  lemma TrueIsTrimmed()
    ensures TrimSpace("true") == "true"
  {
    TrimmedIsFixed("true");
  }

  lemma SsoValue(id: nat, r: LoginResponse, wanted: string)
    ensures ValueOf(SsoHints(id, r), wanted) ==
              if r.userCode != "" && NormalizeKey(USER_CODE) == NormalizeKey(wanted) then TrimSpace(r.userCode)
              else if r.verificationUriComplete != ""
                  && NormalizeKey(VERIFICATION_URI_COMPLETE) == NormalizeKey(wanted)
                      then TrimSpace(r.verificationUriComplete)
              else if r.verificationUri != "" && NormalizeKey(VERIFICATION_URI) == NormalizeKey(wanted)
                  then TrimSpace(r.verificationUri)
              else ValueOf(SsoFrontHints(id), wanted)
  {
    PlainKeys();
    var front := SsoFrontHints(id);
    OptionalHintDecides(front, VERIFICATION_URI, r.verificationUri, wanted);
    var second := front + OptionalHint(VERIFICATION_URI, r.verificationUri);
    OptionalHintDecides(second, VERIFICATION_URI_COMPLETE, r.verificationUriComplete, wanted);
    OptionalHintDecides(second + OptionalHint(VERIFICATION_URI_COMPLETE, r.verificationUriComplete), USER_CODE,
        r.userCode, wanted);
  }

  lemma AllKeys()
    ensures |NormalizeKey(ACTIVATION_ID)| == 20 && |NormalizeKey(SSO)| == 11 && |NormalizeKey(VERIFICATION_URI)| == 26
    ensures |NormalizeKey(VERIFICATION_URI_COMPLETE)| == 34 && |NormalizeKey(USER_CODE)| == 19
    ensures |NormalizeKey(CONTINUE)| == 19 && NormalizeKey(CONTINUE) != NormalizeKey(USER_CODE)
  {
    ActivationIdKey();
    SsoKey();
    UriKey();
    CompleteKey();
    UserCodeKey();
    ContinueKey();
  }

  lemma {:induction false} ActivationIdArrives(id: nat, r: LoginResponse)
    ensures ValueOf(SsoHints(id, r), ACTIVATION_ID) == Decimal(id)
  {
    AllKeys();
    SsoValue(id, r, ACTIVATION_ID);
    SsoFront(id, ACTIVATION_ID);
  }

  lemma SsoArrives(id: nat, r: LoginResponse)
    ensures ValueOf(SsoHints(id, r), SSO) == "true"
  {
    AllKeys();
    SsoValue(id, r, SSO);
    SsoFront(id, SSO);
  }

  lemma UriArrives(id: nat, r: LoginResponse)
    ensures ValueOf(SsoHints(id, r), VERIFICATION_URI) == TrimSpace(r.verificationUri)
  {
    AllKeys();
    SsoValue(id, r, VERIFICATION_URI);
    SsoFront(id, VERIFICATION_URI);
  }

  lemma CompleteArrives(id: nat, r: LoginResponse)
    ensures ValueOf(SsoHints(id, r), VERIFICATION_URI_COMPLETE) == TrimSpace(r.verificationUriComplete)
  {
    AllKeys();
    SsoValue(id, r, VERIFICATION_URI_COMPLETE);
    SsoFront(id, VERIFICATION_URI_COMPLETE);
  }

  lemma UserCodeArrives(id: nat, r: LoginResponse)
    ensures ValueOf(SsoHints(id, r), USER_CODE) == TrimSpace(r.userCode)
  {
    AllKeys();
    SsoValue(id, r, USER_CODE);
    SsoFront(id, USER_CODE);
  }

  /** The dialog recovers the activation id and every field of the login response, blanks at the ends aside. */
  lemma {:induction false} SsoRoundTrip(id: nat, r: LoginResponse)
    ensures var h := SsoHints(id, r);
            && ValueOf(h, ACTIVATION_ID) == Decimal(id)
            && ValueOf(h, VERIFICATION_URI) == TrimSpace(r.verificationUri)
            && ValueOf(h, VERIFICATION_URI_COMPLETE) == TrimSpace(r.verificationUriComplete)
            && ValueOf(h, USER_CODE) == TrimSpace(r.userCode)
  {
    ActivationIdArrives(id, r);
    UriArrives(id, r);
    CompleteArrives(id, r);
    UserCodeArrives(id, r);
  }

  // ---------- classification ----------

  lemma TrueIsTruthy()
    ensures IsTruthy("true")
  {
    TrueIsTrimmed();
    assert ToLower("true") == "true";
  }

  lemma NoSetupKeyIn(key: string, value: string)
    requires IsPlainKey(key) && |NormalizeKey(key)| !in {8, 15}
    ensures !NamesSetupKey(FormatHint(key, value)) && !NamesSetupKey(key)
  {
    PrintedHint(key, value);
    BareHint(key);
  }

  lemma FrontNamesNoSetupKey(id: nat)
    ensures !HasSetupKeyHint(SsoFrontHints(id))
  {
    AllKeys();
    PlainKeys();
    NoSetupKeyAmong(ACTIVATION_ID, Decimal(id), SSO, CONTINUE);
  }

  lemma NoSetupKeyAmong(first: string, value: string, second: string, third: string)
    requires IsPlainKey(first) && IsPlainKey(second) && IsPlainKey(third)
    requires |NormalizeKey(first)| !in {8, 15} && |NormalizeKey(second)| !in {8, 15}
    requires |NormalizeKey(third)| !in {8, 15}
    ensures !HasSetupKeyHint([FormatHint(first, value), FormatHint(second, "true"), third])
  {
    var h1, h2 := FormatHint(first, value), FormatHint(second, "true");
    NoSetupKeyIn(first, value);
    NoSetupKeyIn(second, "true");
    NoSetupKeyIn(third, "");
    StillNoSetupKey([], h1);
    StillNoSetupKey([h1], h2);
    StillNoSetupKey([h1, h2], third);
    assert [] + [h1] == [h1] && [h1] + [h2] == [h1, h2] && [h1, h2] + [third] == [h1, h2, third];
  }

  lemma StillNoSetupKey(hints: seq<string>, hint: string)
    requires !HasSetupKeyHint(hints) && !NamesSetupKey(hint)
    ensures !HasSetupKeyHint(hints + [hint])
  {
  }

  lemma OptionalNamesNoSetupKey(hints: seq<string>, key: string, value: string)
    requires IsPlainKey(key) && |NormalizeKey(key)| !in {8, 15} && !HasSetupKeyHint(hints)
    ensures !HasSetupKeyHint(hints + OptionalHint(key, value))
  {
    NoSetupKeyIn(key, value);
  }

  /** Whatever the login response holds, the dialog takes SSO hints for SSO and never asks for a setup key. */
  lemma SsoHintsClassify(id: nat, r: LoginResponse)
    ensures SsoRequested(SsoHints(id, r)) && !HasSetupKeyHint(SsoHints(id, r))
  {
    SsoArrives(id, r);
    TrueIsTruthy();
    AllKeys();
    PlainKeys();
    FrontNamesNoSetupKey(id);
    var front := SsoFrontHints(id);
    OptionalNamesNoSetupKey(front, VERIFICATION_URI, r.verificationUri);
    var second := front + OptionalHint(VERIFICATION_URI, r.verificationUri);
    OptionalNamesNoSetupKey(second, VERIFICATION_URI_COMPLETE, r.verificationUriComplete);
    OptionalNamesNoSetupKey(second + OptionalHint(VERIFICATION_URI_COMPLETE, r.verificationUriComplete), USER_CODE,
        r.userCode);
  }

  lemma {:induction false} SetupKeyValue(id: nat, wanted: string)
    ensures ValueOf(SetupKeyHints(id), wanted) ==
              if NormalizeKey(ACTIVATION_ID) == NormalizeKey(wanted) then Decimal(id)
              else if NormalizeKey(SETUP_KEY) == NormalizeKey(wanted) then "true"
              else ""
  {
    SetupKeyKey();
    ActivationIdKey();
    DecimalTrimmed(id);
    TwoHints(SETUP_KEY, ACTIVATION_ID, Decimal(id), wanted);
  }

  lemma TwoHints(first: string, second: string, value: string, wanted: string)
    requires IsPlainKey(first) && IsPlainKey(second)
    ensures ValueOf([first, FormatHint(second, value)], wanted) ==
              if NormalizeKey(second) == NormalizeKey(wanted) then TrimSpace(value)
              else if NormalizeKey(first) == NormalizeKey(wanted) then "true"
              else ""
  {
    BareHintDecides([], first, wanted);
    PrintedHintDecides([first], second, value, wanted);
    assert [] + [first] == [first] && [first] + [FormatHint(second, value)] == [first, FormatHint(second, value)];
    TrueIsTrimmed();
  }

  /** Setup key hints carry the activation id, name a setup key, and are never taken for SSO. */
  lemma {:induction false} SetupKeyHintsClassify(id: nat)
    ensures ValueOf(SetupKeyHints(id), ACTIVATION_ID) == Decimal(id)
    ensures HasSetupKeyHint(SetupKeyHints(id)) && !SsoRequested(SetupKeyHints(id))
  {
    AllKeys();
    SetupKeyKey();
    BareHint(SETUP_KEY);
    assert NamesSetupKey(SetupKeyHints(id)[0]);
    SetupKeyValue(id, ACTIVATION_ID);
    SetupKeyValue(id, SSO);
    SetupKeyValue(id, VERIFICATION_URI);
    SetupKeyValue(id, VERIFICATION_URI_COMPLETE);
    SetupKeyValue(id, USER_CODE);
  }

  /** Two activations never print the same id, so a reply names at most one of them. */
  lemma HintsNameTheActivation(m: nat, n: nat, r: LoginResponse)
    ensures ValueOf(SsoHints(m, r), ACTIVATION_ID) == ValueOf(SetupKeyHints(n), ACTIVATION_ID) <==> m == n
  {
    ActivationIdArrives(m, r);
    SetupKeyHintsClassify(n);
    if Decimal(m) == Decimal(n) {
      DecimalInjective(m, n);
    }
  }
}
