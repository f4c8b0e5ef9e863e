/**
The character tests of the connection editor. A string stands for the bytes of a C string,
one character a byte; a null string reads as the empty one, which every use of it allows. All
tests but the length of an interface name are about ASCII characters, so they mean the same
for Unicode characters.
*/
module EditorText {

  predicate IsAsciiSpace(c: char) {
    c == ' ' || c == '\t' || c == '\n' || c == '\U{0C}' || c == '\r'
  }

  predicate IsAsciiControl(c: char) {
    c < ' ' || c == '\U{7F}'
  }

  predicate IsAsciiLetter(c: char) {
    'a' <= c <= 'z' || 'A' <= c <= 'Z'
  }

  function AsciiLower(c: char): char {
    if 'A' <= c <= 'Z' then (c as int + 32) as char else c
  }

  function StripFront(s: string): string {
    if s != "" && IsAsciiSpace(s[0]) then StripFront(s[1..]) else s
  }

  function StripBack(s: string): string {
    if s != "" && IsAsciiSpace(s[|s| - 1]) then StripBack(s[..|s| - 1]) else s
  }

  function Strip(s: string): string {
    StripBack(StripFront(s))
  }

  predicate IsBlank(s: string) {
    Strip(s) == ""
  }

  lemma {:induction false} StripBackShape(s: string)
    ensures StripBack(s) <= s
    ensures StripBack(s) != "" ==> !IsAsciiSpace(StripBack(s)[|StripBack(s)| - 1])
  {
    if s != "" && IsAsciiSpace(s[|s| - 1]) {
      StripBackShape(s[..|s| - 1]);
    }
  }

  lemma {:induction false} StripFrontShape(s: string)
    ensures StripFront(s) != "" ==> !IsAsciiSpace(StripFront(s)[0])
  {
    if s != "" && IsAsciiSpace(s[0]) {
      StripFrontShape(s[1..]);
    }
  }

  lemma StripIdempotent(s: string)
    ensures Strip(Strip(s)) == Strip(s)
  {
    StripFrontShape(s);
    StripBackShape(StripFront(s));
  }

  lemma StripFixed(s: string)
    requires forall i :: 0 <= i < |s| ==> !IsAsciiSpace(s[i])
    ensures Strip(s) == s
  {
  }

  // ---------- authentication modes ----------

  const SETUP_KEY_MODE := "setup-key"
  const SSO_MODE := "sso"

  function ModeChar(c: char): char {
    if c == '_' then '-' else AsciiLower(c)
  }

  function ModeWord(s: string): string {
    seq(|s|, i requires 0 <= i < |s| => ModeChar(s[i]))
  }

  function Mode(word: string): string {
    if word == "" then SSO_MODE
    else if word == "setupkey" || word == SETUP_KEY_MODE || word == "key" then SETUP_KEY_MODE
    else if word == SSO_MODE || word == "browser" || word == "interactive" then SSO_MODE
    else if word == "login" || word == "force-login" || word == "reuse" then SSO_MODE
    else word
  }

  function NormalMode(value: string): string {
    Mode(ModeWord(Strip(value)))
  }

  method NormalizeAuthMode(value: string) returns (mode: string)
    ensures mode == NormalMode(value)
  {
    var lower := Strip(value);
    ghost var word := lower;
    for i := 0 to |lower|
      invariant |lower| == |word|
      invariant forall k :: 0 <= k < |word| ==> lower[k] == if k < i then ModeChar(word[k]) else word[k]
    {
      if lower[i] == '_' {
        lower := lower[i := '-'];
      } else {
        lower := lower[i := AsciiLower(lower[i])];
      }
    }
    assert lower == ModeWord(word);
    mode := Mode(lower);
  }

  lemma NamedModes()
    ensures NormalMode(SETUP_KEY_MODE) == SETUP_KEY_MODE
    ensures NormalMode(SSO_MODE) == SSO_MODE && NormalMode("") == SSO_MODE
  {
    StripFixed(SETUP_KEY_MODE);
    StripFixed(SSO_MODE);
    assert ModeWord(SETUP_KEY_MODE) == SETUP_KEY_MODE;
    assert ModeWord(SSO_MODE) == SSO_MODE;
  }

  // ---------- URLs and interface names ----------

  predicate IsSchemeChar(c: char) {
    IsAsciiLetter(c) || '0' <= c <= '9' || c == '+' || c == '-' || c == '.'
  }

  function SchemeChars(s: string): (n: nat)
    ensures n <= |s|
  {
    if s != "" && IsSchemeChar(s[0]) then 1 + SchemeChars(s[1..]) else 0
  }

  /** The length of the scheme at the start of a URI, or 0 if there is none. */
  function SchemeLength(s: string): (n: nat)
    ensures n > 0 ==> n < |s| && s[n] == ':'
  {
    if s == "" || !IsAsciiLetter(s[0]) then 0 else
      var n := SchemeChars(s);
      if n < |s| && s[n] == ':' then n else 0
  }

  function AsciiLowered(s: string): string {
    seq(|s|, i requires 0 <= i < |s| => AsciiLower(s[i]))
  }

  predicate IsHttp(scheme: string) {
    AsciiLowered(scheme) == "http" || AsciiLowered(scheme) == "https"
  }

  function HostLength(s: string): (n: nat)
    ensures n <= |s|
    ensures forall k :: 0 <= k < n ==> s[k] !in ['/', '?', '#']
    ensures n < |s| ==> s[n] in ['/', '?', '#']
  {
    if s == "" || s[0] in ['/', '?', '#'] then 0 else 1 + HostLength(s[1..])
  }

  predicate NoSpaces(s: string) {
    forall i :: 0 <= i < |s| ==> !IsAsciiSpace(s[i])
  }

  predicate HasHost(rest: string) {
    "//" <= rest && HostLength(rest[2..]) > 0 && NoSpaces(rest[2..][..HostLength(rest[2..])])
  }

  predicate HttpUrl(value: string) {
    var url := Strip(value);
    url == "" || (SchemeLength(url) > 0 && IsHttp(url[..SchemeLength(url)]) && HasHost(url[SchemeLength(url) + 1..]))
  }

  method IsHttpUrl(value: string) returns (ok: bool)
    ensures ok == HttpUrl(value)
  {
    if IsBlank(value) {
      return true;
    }
    var url := Strip(value);
    var scheme := SchemeLength(url);
    if scheme == 0 {
      return false;
    }
    var rest := url[scheme + 1..];
    if !IsHttp(url[..scheme]) || !("//" <= rest) {
      return false;
    }
    ok := HostIsGood(rest[2..]);
  }

  method HostIsGood(rest: string) returns (ok: bool)
    ensures ok <==> HostLength(rest) > 0 && NoSpaces(rest[..HostLength(rest)])
  {
    var host := HostLength(rest);
    if host == 0 {
      return false;
    }
    for i := 0 to host
      invariant NoSpaces(rest[..i])
    {
      if IsAsciiSpace(rest[i]) {
        assert rest[..host][i] == rest[i];
        return false;
      }
      assert rest[..i + 1] == rest[..i] + [rest[i]];
    }
    return true;
  }

  predicate InterfaceChar(c: char) {
    c != '/' && !IsAsciiSpace(c) && !IsAsciiControl(c)
  }

  predicate InterfaceName(value: string) {
    || IsBlank(value)
    || (|value| <= 15 && value != "." && value != ".." && forall i :: 0 <= i < |value| ==> InterfaceChar(value[i]))
  }

  method ValidInterfaceName(value: string) returns (ok: bool)
    ensures ok == InterfaceName(value)
  {
    if IsBlank(value) {
      return true;
    }
    if |value| > 15 || value == "." || value == ".." {
      return false;
    }
    for i := 0 to |value|
      invariant forall k :: 0 <= k < i ==> InterfaceChar(value[k])
    {
      if value[i] == '/' || IsAsciiSpace(value[i]) || IsAsciiControl(value[i]) {
        assert !InterfaceChar(value[i]);
        return false;
      }
    }
    return true;
  }

  /** Blanks at the ends do not change whether a URL or an interface name is accepted once it is. */
  lemma StrippedStaysValid(value: string)
    ensures HttpUrl(Strip(value)) <==> HttpUrl(value)
    ensures InterfaceName(value) ==> InterfaceName(Strip(value)) && (IsBlank(value) || Strip(value) == value)
  {
    StripIdempotent(value);
    if InterfaceName(value) && !IsBlank(value) {
      assert forall i :: 0 <= i < |value| ==> InterfaceChar(value[i]);
      StripFixed(value);
    }
  }
}
