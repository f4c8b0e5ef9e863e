/**
The string operations of the Go standard library that the plugin relies on. A character is a
Unicode character wherever blanks or letters matter; cutting also serves texts of bytes.
*/
module Text {

  /** The White_Space property of Unicode, which strings.TrimSpace strips. */
  predicate IsSpace(c: char) {
    || c == '\t' || c == '\n' || c == '\U{0B}' || c == '\U{0C}' || c == '\r' || c == ' '
    || c == '\U{85}' || c == '\U{A0}' || c == '\U{1680}' || '\U{2000}' <= c <= '\U{200A}'
    || c == '\U{2028}' || c == '\U{2029}' || c == '\U{202F}' || c == '\U{205F}' || c == '\U{3000}'
  }

  function TrimLeft(s: string): string {
    if s != "" && IsSpace(s[0]) then TrimLeft(s[1..]) else s
  }

  function TrimRight(s: string): string {
    if s != "" && IsSpace(s[|s| - 1]) then TrimRight(s[..|s| - 1]) else s
  }

  function TrimSpace(s: string): string {
    TrimRight(TrimLeft(s))
  }

  predicate IsTrimmed(s: string) {
    s == "" || (!IsSpace(s[0]) && !IsSpace(s[|s| - 1]))
  }

  lemma {:induction false} TrimRightShape(s: string)
    ensures TrimRight(s) <= s
    ensures TrimRight(s) != "" ==> !IsSpace(TrimRight(s)[|TrimRight(s)| - 1])
    ensures s != "" && !IsSpace(s[0]) ==> TrimRight(s) != ""
  {
    if s != "" && IsSpace(s[|s| - 1]) {
      TrimRightShape(s[..|s| - 1]);
    }
  }

  lemma {:induction false} TrimLeftShape(s: string)
    ensures TrimLeft(s) != "" ==> !IsSpace(TrimLeft(s)[0])
  {
    if s != "" && IsSpace(s[0]) {
      TrimLeftShape(s[1..]);
    }
  }

  lemma TrimSpaceTrims(s: string)
    ensures IsTrimmed(TrimSpace(s))
  {
    TrimLeftShape(s);
    TrimRightShape(TrimLeft(s));
  }

  lemma TrimmedIsFixed(s: string)
    requires IsTrimmed(s)
    ensures TrimSpace(s) == s
  {
  }

  lemma TrimSpaceIdempotent(s: string)
    ensures TrimSpace(TrimSpace(s)) == TrimSpace(s)
  {
    TrimSpaceTrims(s);
    TrimmedIsFixed(TrimSpace(s));
  }

  predicate AllBlank(s: string, lo: nat, hi: nat)
    requires hi <= |s|
  {
    forall k :: lo <= k < hi ==> IsSpace(s[k])
  }

  /** From `i` to `j` is all of `s` but the blanks at both ends. */
  predicate Trims(s: string, i: nat, j: nat) {
    i <= j <= |s| && AllBlank(s, 0, i) && IsTrimmed(s[i..j]) && AllBlank(s, j, |s|)
  }

  lemma {:induction false} TrimLeftDrops(s: string) returns (i: nat)
    ensures i <= |s| && TrimLeft(s) == s[i..] && AllBlank(s, 0, i)
  {
    i := 0;
    if s != "" && IsSpace(s[0]) {
      var n := TrimLeftDrops(s[1..]);
      i := n + 1;
      assert forall k :: 1 <= k < i ==> s[k] == s[1..][k - 1];
    }
  }

  lemma {:induction false} TrimRightDrops(s: string) returns (j: nat)
    ensures j <= |s| && TrimRight(s) == s[..j] && AllBlank(s, j, |s|)
  {
    j := |s|;
    if s != "" && IsSpace(s[|s| - 1]) {
      var t := s[..|s| - 1];
      j := TrimRightDrops(t);
      assert forall k :: j <= k < |t| ==> s[k] == t[k];
    }
  }

  /** Trimming takes the blanks off both ends and nothing else. */
  lemma TrimSpaceDrops(s: string) returns (i: nat, j: nat)
    ensures Trims(s, i, j) && TrimSpace(s) == s[i..j]
  {
    TrimSpaceTrims(s);
    i := TrimLeftDrops(s);
    var t := s[i..];
    var k := TrimRightDrops(t);
    j := i + k;
    assert t[..k] == s[i..j];
    assert forall x :: j <= x < |s| ==> s[x] == t[x - i];
  }

  /** There is one way only to take the blanks off both ends. */
  lemma {:induction false} TrimSpaceExactly(s: string, t: string)
    ensures TrimSpace(s) == t <==> exists i: nat, j: nat :: Trims(s, i, j) && t == s[i..j]
  {
    var a, b := TrimSpaceDrops(s);
    if i: nat, j: nat :| Trims(s, i, j) && t == s[i..j] {
      TrimEnds(s, a, b, i, j);
      TrimEnds(s, i, j, a, b);
    }
  }

  /** What one way keeps, every other one keeps. */
  lemma TrimEnds(s: string, a: nat, b: nat, i: nat, j: nat)
    requires Trims(s, a, b) && Trims(s, i, j)
    ensures a < b ==> i <= a && b <= j
  {
    if a < b {
      assert s[a..b][0] == s[a] && s[a..b][b - a - 1] == s[b - 1];
    }
  }

  /** strconv.FormatUint(n, 10). */
  function Decimal(n: nat): string {
    if n < 10 then [Digit(n)] else Decimal(n / 10) + [Digit(n % 10)]
  }

  function Digit(d: nat): char
    requires d < 10
  {
    '0' + (d as char)
  }

  lemma {:induction false} DecimalTrimmed(n: nat)
    ensures Decimal(n) != "" && TrimSpace(Decimal(n)) == Decimal(n)
  {
    DecimalNonEmpty(n);
    TrimmedIsFixed(Decimal(n));
  }

  lemma {:induction false} DecimalInjective(m: nat, n: nat)
    requires Decimal(m) == Decimal(n)
    ensures m == n
  {
    DecimalNonEmpty(m / 10);
    DecimalNonEmpty(n / 10);
    var k := |Decimal(m)| - 1;
    assert Decimal(m)[k] == Digit(m % 10) && Decimal(n)[k] == Digit(n % 10);
    if m >= 10 && n >= 10 {
      assert Decimal(m)[..k] == Decimal(m / 10) && Decimal(n)[..k] == Decimal(n / 10);
      DecimalInjective(m / 10, n / 10);
    }
  }

  lemma {:induction false} DecimalNonEmpty(n: nat)
    ensures |Decimal(n)| >= 1
    ensures forall i :: 0 <= i < |Decimal(n)| ==> '0' <= Decimal(n)[i] <= '9'
    ensures n >= 10 ==> |Decimal(n)| >= 2
  {
    if n >= 10 {
      DecimalNonEmpty(n / 10);
    }
  }

  /** The number a row of digits stands for. */
  function Value(digits: string): int {
    if digits == "" then 0 else 10 * Value(digits[..|digits| - 1]) + (digits[|digits| - 1] as int - '0' as int)
  }

  lemma {:induction false} DecimalValue(n: nat)
    ensures Value(Decimal(n)) == n
    ensures Decimal(n)[0] == '0' ==> n == 0
  {
    DecimalNonEmpty(n);
    if n >= 10 {
      DecimalValue(n / 10);
      assert Decimal(n)[..|Decimal(n)| - 1] == Decimal(n / 10);
    } else {
      assert Decimal(n) == [Digit(n)] && Decimal(n)[..0] == "";
    }
  }

  // ---------- cutting and trimming ----------

  /** The position of the first `c` in `s`, or its length. */
  function FirstOf(s: string, c: char): (i: nat)
    ensures i <= |s|
    ensures i < |s| ==> s[i] == c
    ensures forall k :: 0 <= k < i ==> s[k] != c
  {
    if s == "" || s[0] == c then 0 else 1 + FirstOf(s[1..], c)
  }

  /** strings.Cut(s, c): what comes before, what comes after, and whether there is a `c` at all. */
  function Before(s: string, c: char): string {
    s[..FirstOf(s, c)]
  }

  function After(s: string, c: char): string {
    if FirstOf(s, c) < |s| then s[FirstOf(s, c) + 1..] else ""
  }

  lemma {:induction false} CutAt(a: string, c: char, b: string)
    requires c !in a
    ensures FirstOf(a + [c] + b, c) == |a| && Before(a + [c] + b, c) == a && After(a + [c] + b, c) == b
  {
    assert (a + [c] + b)[|a|] == c;
    assert forall k :: 0 <= k < |a| ==> (a + [c] + b)[k] == a[k];
  }

  lemma {:induction false} TrimRightAfter(a: string, b: string)
    requires a != "" && !IsSpace(a[|a| - 1])
    ensures TrimRight(a + b) == a + TrimRight(b)
    decreases |b|
  {
    if b == "" {
      assert a + b == a;
    } else if IsSpace(b[|b| - 1]) {
      assert (a + b)[..|a + b| - 1] == a + b[..|b| - 1];
      TrimRightAfter(a, b[..|b| - 1]);
    }
  }

  lemma {:induction false} TrimLeftSnoc(s: string, c: char)
    ensures TrimLeft(s + [c]) == if TrimLeft(s) != "" then TrimLeft(s) + [c] else TrimLeft([c])
  {
    if s == "" {
      assert s + [c] == [c];
    } else if IsSpace(s[0]) {
      assert (s + [c])[1..] == s[1..] + [c];
      TrimLeftSnoc(s[1..], c);
    }
  }

  /** Trimming the right end first changes nothing. */
  lemma {:induction false} TrimSpaceOfTrimRight(s: string)
    ensures TrimSpace(TrimRight(s)) == TrimSpace(s)
  {
    if s != "" && IsSpace(s[|s| - 1]) {
      var t, c := s[..|s| - 1], s[|s| - 1];
      assert s == t + [c];
      TrimSpaceOfTrimRight(t);
      TrimLeftSnoc(t, c);
      if TrimLeft(t) == "" {
        assert [c][1..] == "";
      } else {
        assert (TrimLeft(t) + [c])[..|TrimLeft(t)|] == TrimLeft(t);
      }
    }
  }

  // ---------- lower case and setting keys ----------

  /**
  unicode.ToLower as far as ASCII letters can come out of it: the capital letters, the dotted
  capital I and the Kelvin sign. No other character becomes an ASCII one.
  */
  function LowerChar(c: char): char {
    if 'A' <= c <= 'Z' then (c as int + 32) as char
    else if c == '\U{130}' then 'i'
    else if c == '\U{212A}' then 'k'
    else c
  }

  function ToLower(s: string): string {
    seq(|s|, i requires 0 <= i < |s| => LowerChar(s[i]))
  }

  predicate IsKeyChar(c: char) {
    'a' <= c <= 'z' || '0' <= c <= '9'
  }

  /** The letters and digits of a lower-case string, in order. */
  function Keep(s: string): string {
    if s == "" then "" else KeepOne(s[0]) + Keep(s[1..])
  }

  /** How setting keys are compared: trimmed, in lower case, letters and digits only. */
  function NormalizeKey(key: string): string {
    Keep(ToLower(TrimSpace(key)))
  }

  function KeepOne(c: char): string {
    if IsKeyChar(c) then [c] else ""
  }

  lemma {:induction false} KeepAppend(a: string, b: string)
    ensures Keep(a + b) == Keep(a) + Keep(b)
    decreases |a|
  {
    if a == "" {
      assert a + b == b;
    } else {
      assert (a + b)[1..] == a[1..] + b;
      KeepAppend(a[1..], b);
      assert Keep(a + b) == KeepOne(a[0]) + (Keep(a[1..]) + Keep(b));
    }
  }

  /** Each character is kept or dropped on its own account. */
  lemma {:induction false} KeepCharacter(a: string, c: char, b: string)
    ensures Keep(a + [c] + b) == Keep(a) + (if 'a' <= c <= 'z' || '0' <= c <= '9' then [c] else "") + Keep(b)
    ensures Keep("") == ""
  {
    KeepAppend(a, [c] + b);
    assert a + [c] + b == a + ([c] + b) && ([c] + b)[1..] == b;
  }

  predicate IsWord(s: string) {
    forall i :: 0 <= i < |s| ==> 'a' <= s[i] <= 'z'
  }

  lemma {:induction false} KeepWord(s: string)
    requires IsWord(s)
    ensures Keep(s) == s
  {
    if s != "" {
      assert s[0] == s[0..1][0] && s == [s[0]] + s[1..];
      KeepWord(s[1..]);
    }
  }

  /** A dash between two parts of a key does not show. */
  lemma {:induction false} KeepDash(a: string, b: string)
    ensures Keep(a + "-" + b) == Keep(a) + Keep(b)
  {
    KeepAppend(a + "-", b);
    KeepAppend(a, "-");
    DashDropped();
    assert Keep(a) + "" == Keep(a);
  }

  lemma DashDropped()
    ensures Keep("-") == ""
  {
    assert "-"[1..] == "";
  }

  /** Keys as the plugin itself writes them: words and dashes. */
  predicate IsPlainKey(key: string) {
    key != "" && forall i :: 0 <= i < |key| ==> 'a' <= key[i] <= 'z' || key[i] == '-'
  }

  lemma {:induction false} NormalizePlain(key: string)
    requires IsPlainKey(key)
    ensures TrimSpace(key) == key && ToLower(key) == key && NormalizeKey(key) == Keep(key)
  {
    TrimmedIsFixed(key);
    assert ToLower(key) == key;
  }

  // ---------- keys made of words ----------

  function Dash(a: string, b: string): string {
    a + "-" + b
  }

  lemma {:induction false} Word(w: string)
    requires IsWord(w) && w != ""
    ensures IsPlainKey(w) && Keep(w) == w
  {
    KeepWord(w);
  }

  lemma {:induction false} Joined(a: string, b: string)
    requires IsPlainKey(a) && IsPlainKey(b)
    ensures IsPlainKey(Dash(a, b)) && Keep(Dash(a, b)) == Keep(a) + Keep(b)
  {
    JoinedPlain(a, b);
    KeepDash(a, b);
  }

  lemma JoinedPlain(a: string, b: string)
    requires IsPlainKey(a) && IsPlainKey(b)
    ensures IsPlainKey(Dash(a, b))
  {
    var k := Dash(a, b);
    forall i | 0 <= i < |k| ensures 'a' <= k[i] <= 'z' || k[i] == '-' {
      assert k[i] == if i < |a| then a[i] else if i == |a| then '-' else b[i - |a| - 1];
    }
  }

  lemma TwoWords(a: string, b: string)
    requires IsWord(a) && IsWord(b) && a != "" && b != ""
    ensures IsPlainKey(Dash(a, b)) && Keep(Dash(a, b)) == a + b
  {
    Word(a);
    Word(b);
    Joined(a, b);
  }

  /** A word is its own normalized key. */
  lemma {:induction false} WordIsOwnKey(word: string)
    requires IsWord(word) && word != ""
    ensures NormalizeKey(word) == word
  {
    Word(word);
    NormalizePlain(word);
  }
}
