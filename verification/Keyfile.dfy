/**
The key file in which the authentication dialog describes its fields, and a reader for it.
The escapes are those of the section "Possible value types" of the Desktop Entry
Specification; its section "Basic format of the file" gives groups, comments, and the
spaces that are ignored around the equals sign. A character stands for a byte.
*/
module Keyfile {
  import opened Wrappers
  import opened Text
  import opened L = Lines

  // ---------- values ----------

  /** How one character is written; `leading` tells whether only spaces came before it. */
  function EscapeChar(c: char, leading: bool): string {
    match c
    case '\\' => "\\\\"
    case '\n' => "\\n"
    case '\r' => "\\r"
    case '\t' => "\\t"
    case ' ' => if leading then "\\s" else " "
    case _ => [c]
  }

  function EscapeFrom(value: string, leading: bool): string {
    if value == "" then ""
    else EscapeChar(value[0], leading) + EscapeFrom(value[1..], leading && value[0] == ' ')
  }

  function Escape(value: string): string {
    EscapeFrom(value, true)
  }

  /** The character an escape sequence stands for. */
  function Unescaped(c: char): Option<char> {
    match c
    case 's' => Some(' ')
    case 'n' => Some('\n')
    case 't' => Some('\t')
    case 'r' => Some('\r')
    case '\\' => Some('\\')
    case _ => None
  }

  function Unescape(text: string): Option<string> {
    if text == "" then Some("")
    else if text[0] != '\\' then
      match Unescape(text[1..])
      case None => None
      case Some(rest) => Some([text[0]] + rest)
    else if |text| == 1 then None
    else
      match (Unescaped(text[1]), Unescape(text[2..]))
      case (Some(c), Some(rest)) => Some([c] + rest)
      case _ => None
  }

  lemma {:induction false} UnescapeOne(c: char, leading: bool, rest: string)
    requires Unescape(rest).Some?
    ensures Unescape(EscapeChar(c, leading) + rest) == Some([c] + Unescape(rest).value)
  {
    var head := EscapeChar(c, leading);
    assert (head + rest)[|head|..] == rest;
  }

  /** Reading back what was written gives the value, for every value. */
  lemma {:induction false} EscapeRoundTrip(value: string, leading: bool)
    ensures Unescape(EscapeFrom(value, leading)) == Some(value)
  {
    if value != "" {
      var still := leading && value[0] == ' ';
      EscapeRoundTrip(value[1..], still);
      UnescapeOne(value[0], leading, EscapeFrom(value[1..], still));
      assert [value[0]] + value[1..] == value;
    }
  }

  /** What is written fits on one line and does not start with a space that a reader would skip. */
  lemma {:induction false} EscapedIsOneLine(value: string, leading: bool)
    ensures forall c :: c in EscapeFrom(value, leading) ==> c != '\n' && c != '\r' && c != '\t'
    ensures leading && EscapeFrom(value, leading) != "" ==> EscapeFrom(value, leading)[0] != ' '
  {
    if value != "" {
      EscapedIsOneLine(value[1..], leading && value[0] == ' ');
    }
  }

  // ---------- writing ----------

  datatype Entry = Entry(key: string, value: string, caption: string, isSecret: bool, shouldAsk: bool)

  const UI_GROUP := "VPN Plugin UI"

  function FormatBool(b: bool): string {
    if b then "true" else "false"
  }

  function Pair(key: string, text: string): string {
    key + "=" + text
  }

  /** A line that is only written when its value is not empty. */
  function OptionalLine(key: string, value: string): seq<string> {
    if value != "" then [Pair(key, Escape(value))] else []
  }

  function HeaderLines(title: string, description: string): seq<string> {
    ["[" + UI_GROUP + "]", Pair("Version", "2")]
    + OptionalLine("Description", description)
    + OptionalLine("Title", title)
    + [""]
  }

  function EntryLines(e: Entry): seq<string> {
    ["[" + e.key + "]", Pair("Value", Escape(e.value)), Pair("Label", Escape(e.caption)),
     Pair("IsSecret", FormatBool(e.isSecret)), Pair("ShouldAsk", FormatBool(e.shouldAsk))]
  }

  function EntriesLines(es: seq<Entry>): seq<string> {
    if es == [] then [] else EntryLines(es[0]) + EntriesLines(es[1..])
  }

  lemma {:induction false} JoinAppend(a: seq<string>, b: seq<string>)
    ensures Join(a + b) == Join(a) + Join(b)
  {
    if a == [] {
      assert a + b == b;
    } else {
      JoinAppend(a[1..], b);
      assert (a + b)[1..] == a[1..] + b;
    }
  }

  class Builder {
    var text: string

    constructor ()
      ensures text == ""
    {
      text := "";
    }

    method Write(s: string)
      modifies this
      ensures text == old(text) + s
    {
      text := text + s;
    }
  }

  method EscapeKeyfileValue(value: string) returns (escaped: string)
    ensures escaped == Escape(value)
  {
    escaped := "";
    var leading := true;
    var i := 0;
    while i < |value|
      invariant 0 <= i <= |value|
      invariant Escape(value) == escaped + EscapeFrom(value[i..], leading)
    {
      ghost var before, wasLeading := escaped, leading;
      var c := value[i];
      match c {
        case '\\' => leading := false; escaped := escaped + "\\\\";
        case '\n' => leading := false; escaped := escaped + "\\n";
        case '\r' => leading := false; escaped := escaped + "\\r";
        case '\t' => leading := false; escaped := escaped + "\\t";
        case ' ' => escaped := escaped + if leading then "\\s" else " ";
        case _ => leading := false; escaped := escaped + [c];
      }
      EscapeStep(value, i, before, wasLeading);
      i := i + 1;
    }
  }

  /** Writing one more character moves it from what is left to what is written. */
  lemma {:induction false} EscapeStep(value: string, i: nat, written: string, leading: bool)
    requires i < |value|
    ensures written + EscapeFrom(value[i..], leading)
         == written + EscapeChar(value[i], leading) + EscapeFrom(value[i + 1..], leading && value[i] == ' ')
  {
    assert value[i..][0] == value[i] && value[i..][1..] == value[i + 1..];
  }

  function OptionalText(tag: string, value: string): string {
    if value != "" then tag + Escape(value) + "\n" else ""
  }

  function HeaderStart(): string {
    "[" + UI_GROUP + "]\nVersion=2\n"
  }

  function HeaderText(title: string, description: string): string {
    HeaderStart() + OptionalText("Description=", description) + OptionalText("Title=", title) + "\n"
  }

  function EntryText(e: Entry): string {
    TextsText(e) + FlagsText(e)
  }

  function TextsText(e: Entry): string {
    "[" + e.key + "]\nValue=" + Escape(e.value) + "\nLabel=" + Escape(e.caption)
  }

  function FlagsText(e: Entry): string {
    "\nIsSecret=" + FormatBool(e.isSecret) + "\nShouldAsk=" + FormatBool(e.shouldAsk) + "\n"
  }

  function EntriesText(es: seq<Entry>): string {
    if es == [] then "" else EntryText(es[0]) + EntriesText(es[1..])
  }

  lemma Assoc(t: string, a: string, b: string)
    ensures t + a + b == t + (a + b)
  {
  }

  method WriteOptional(b: Builder, tag: string, value: string)
    modifies b
    ensures b.text == old(b.text) + OptionalText(tag, value)
  {
    if value != "" {
      var escaped := EscapeKeyfileValue(value);
      ghost var before := b.text;
      b.Write(tag);
      b.Write(escaped);
      Assoc(before, tag, escaped);
      b.Write("\n");
      Assoc(before, tag + escaped, "\n");
    }
  }

  method WriteHeaderStart(b: Builder)
    modifies b
    ensures b.text == old(b.text) + HeaderStart()
  {
    ghost var before := b.text;
    b.Write("[");
    b.Write(UI_GROUP);
    Assoc(before, "[", UI_GROUP);
    b.Write("]\nVersion=2\n");
    Assoc(before, "[" + UI_GROUP, "]\nVersion=2\n");
  }

  method WriteKeyfileUIHeader(b: Builder, title: string, description: string)
    modifies b
    ensures b.text == old(b.text) + HeaderText(title, description)
  {
    ghost var before := b.text;
    ghost var first, second := OptionalText("Description=", description), OptionalText("Title=", title);
    WriteHeaderStart(b);
    WriteOptional(b, "Description=", description);
    Assoc(before, HeaderStart(), first);
    WriteOptional(b, "Title=", title);
    Assoc(before, HeaderStart() + first, second);
    b.Write("\n");
    Assoc(before, HeaderStart() + first + second, "\n");
  }

  method WriteKeyfileEntry(b: Builder, e: Entry)
    modifies b
    ensures b.text == old(b.text) + EntryText(e)
  {
    ghost var before := b.text;
    WriteTexts(b, e);
    WriteFlags(b, e);
    Assoc(before, TextsText(e), FlagsText(e));
  }

  method WriteTexts(b: Builder, e: Entry)
    modifies b
    ensures b.text == old(b.text) + TextsText(e)
  {
    var value := EscapeKeyfileValue(e.value);
    var caption := EscapeKeyfileValue(e.caption);
    b.Write("[");
    b.Write(e.key);
    b.Write("]\nValue=");
    b.Write(value);
    b.Write("\nLabel=");
    b.Write(caption);
  }

  method WriteFlags(b: Builder, e: Entry)
    modifies b
    ensures b.text == old(b.text) + FlagsText(e)
  {
    b.Write("\nIsSecret=");
    b.Write(FormatBool(e.isSecret));
    b.Write("\nShouldAsk=");
    b.Write(FormatBool(e.shouldAsk));
    b.Write("\n");
  }

  /** The texts written are the lines of the file. */
  lemma HeaderTextIsLines(title: string, description: string)
    ensures HeaderText(title, description) == Join(HeaderLines(title, description))
  {
    var l0 := ["[" + UI_GROUP + "]", Pair("Version", "2")];
    JoinTwo(l0[0], l0[1]);
    assert Join(l0) == HeaderStart();
    OptionalTextIsLine(l0, "Description=", "Description", description);
    var l1 := l0 + OptionalLine("Description", description);
    OptionalTextIsLine(l1, "Title=", "Title", title);
    var l2 := l1 + OptionalLine("Title", title);
    JoinSnoc(l2, "");
    assert Join(l2) + "" + "\n" == Join(l2) + "\n";
  }

  lemma {:induction false} OptionalTextIsLine(lines: seq<string>, tag: string, key: string, value: string)
    requires tag == key + "="
    ensures Join(lines + OptionalLine(key, value)) == Join(lines) + OptionalText(tag, value)
  {
    if value != "" {
      JoinSnoc(lines, Pair(key, Escape(value)));
    } else {
      assert lines + [] == lines && Join(lines) + "" == Join(lines);
    }
  }

  lemma EntryTextIsLines(e: Entry)
    ensures EntryText(e) == Join(EntryLines(e))
  {
    var l := EntryLines(e);
    JoinFive(l);
    TextsTextIsLines(e);
    FlagsTextIsLines(e);
    Regroup(l[0] + "\n" + l[1] + "\n" + l[2], "\n", l[3], l[4]);
  }

  lemma Regroup(a: string, n: string, b: string, c: string)
    ensures a + (n + b + n + c + n) == a + n + b + n + c + n
  {
  }

  lemma TextsTextIsLines(e: Entry)
    ensures TextsText(e) == "[" + e.key + "]" + "\n" + Pair("Value", Escape(e.value)) + "\n"
        + Pair("Label", Escape(e.caption))
  {
    var t := "[" + e.key + "]" + "\n" + Pair("Value", Escape(e.value));
    assert "[" + e.key + "]\nValue=" + Escape(e.value) == t;
    assert t + "\nLabel=" + Escape(e.caption) == t + "\n" + Pair("Label", Escape(e.caption));
  }

  lemma FlagsTextIsLines(e: Entry)
    ensures FlagsText(e) == "\n" + Pair("IsSecret", FormatBool(e.isSecret)) + "\n"
        + Pair("ShouldAsk", FormatBool(e.shouldAsk)) + "\n"
  {
    var t := "\n" + Pair("IsSecret", FormatBool(e.isSecret));
    assert "\nIsSecret=" + FormatBool(e.isSecret) == t;
    assert t + "\nShouldAsk=" + FormatBool(e.shouldAsk) == t + "\n" + Pair("ShouldAsk", FormatBool(e.shouldAsk));
  }

  lemma {:induction false} EntriesTextIsLines(es: seq<Entry>)
    ensures EntriesText(es) == Join(EntriesLines(es))
  {
    if es != [] {
      EntryTextIsLines(es[0]);
      EntriesTextIsLines(es[1..]);
      JoinAppend(EntryLines(es[0]), EntriesLines(es[1..]));
    }
  }

  lemma {:induction false} JoinSnoc(lines: seq<string>, line: string)
    ensures Join(lines + [line]) == Join(lines) + line + "\n"
  {
    JoinAppend(lines, [line]);
    assert Join([line]) == line + "\n" + Join([]);
  }

  lemma JoinTwo(a: string, b: string)
    ensures Join([a, b]) == a + "\n" + b + "\n"
  {
    assert [a] + [b] == [a, b] && [] + [a] == [a];
    JoinSnoc([a], b);
    JoinSnoc([], a);
  }

  lemma {:induction false} JoinFive(l: seq<string>)
    requires |l| == 5
    ensures Join(l) == l[0] + "\n" + l[1] + "\n" + l[2] + "\n" + l[3] + "\n" + l[4] + "\n"
  {
    JoinTwo(l[0], l[1]);
    assert l[..2] == [l[0], l[1]] && l[..3] == l[..2] + [l[2]] && l[..4] == l[..3] + [l[3]] && l == l[..4] + [l[4]];
    JoinSnoc(l[..2], l[2]);
    JoinSnoc(l[..3], l[3]);
    JoinSnoc(l[..4], l[4]);
  }

  // ---------- reading ----------

  datatype Group = Group(name: string, pairs: seq<(string, string)>)

  /** The lines of a text; what follows its last newline is a line only if it is not empty. */
  function Lines(text: string): seq<string>
    decreases |text|
  {
    if text == "" then [] else
      var i := FirstOf(text, '\n');
      [text[..i]] + (if i < |text| then Lines(text[i + 1..]) else [])
  }

  function SkipSpaces(text: string): string {
    if text != "" && text[0] == ' ' then SkipSpaces(text[1..]) else text
  }

  function DropSpaces(text: string): string {
    if text != "" && text[|text| - 1] == ' ' then DropSpaces(text[..|text| - 1]) else text
  }

  /** One line: nothing, a comment, a group header, or a key and its value in the last group. */
  function ReadLine(groups: seq<Group>, line: string): Option<seq<Group>> {
    if line == "" || line[0] == '#' then Some(groups)
    else if line[0] == '[' then
      if |line| >= 2 && line[|line| - 1] == ']' then Some(groups + [Group(line[1..|line| - 1], [])]) else None
    else
      var i := FirstOf(line, '=');
      if i == |line| || groups == [] then None else
        match Unescape(SkipSpaces(line[i + 1..]))
        case None => None
        case Some(value) =>
          var last := groups[|groups| - 1];
          Some(groups[..|groups| - 1] + [last.(pairs := last.pairs + [(DropSpaces(line[..i]), value)])])
  }

  function ReadLines(groups: seq<Group>, lines: seq<string>): Option<seq<Group>>
    decreases |lines|
  {
    if lines == [] then Some(groups) else
      match ReadLine(groups, lines[0])
      case None => None
      case Some(next) => ReadLines(next, lines[1..])
  }

  function Read(text: string): Option<seq<Group>> {
    ReadLines([], Lines(text))
  }

  // ---------- round trip ----------

  lemma {:induction false} LinesOfJoin(lines: seq<string>)
    requires forall i :: 0 <= i < |lines| ==> IsLine(lines[i])
    ensures Lines(Join(lines)) == lines
  {
    if lines != [] {
      LinesOfJoin(lines[1..]);
      var text := Join(lines);
      FirstOfIs(text, '\n', |lines[0]|);
      assert text[..|lines[0]|] == lines[0];
      assert text[|lines[0]| + 1..] == Join(lines[1..]);
    }
  }

  lemma {:induction false} ReadLinesAppend(groups: seq<Group>, a: seq<string>, b: seq<string>)
    ensures ReadLines(groups, a + b) == match ReadLines(groups, a) case None => None case Some(g) => ReadLines(g, b)
    decreases |a|
  {
    if a == [] {
      assert a + b == b;
    } else {
      assert (a + b)[1..] == a[1..] + b;
      match ReadLine(groups, a[0])
      case None =>
      case Some(g) => ReadLinesAppend(g, a[1..], b);
    }
  }

  lemma {:induction false} ReadOne(groups: seq<Group>, line: string)
    ensures ReadLines(groups, [line]) == ReadLine(groups, line)
  {
    assert ReadLine(groups, line).Some? ==>
        ReadLines(ReadLine(groups, line).value, [line][1..]) == ReadLine(groups, line);
  }

  /** A key as the dialog writes them: letters only, so it cannot be taken for a header or a comment. */
  predicate IsPlainKey(key: string) {
    key != "" && forall i :: 0 <= i < |key| ==> 'a' <= key[i] <= 'z' || 'A' <= key[i] <= 'Z'
  }

  lemma ReadPair(groups: seq<Group>, g: Group, key: string, value: string)
    requires IsPlainKey(key)
    ensures ReadLine(groups + [g], Pair(key, Escape(value))) == Some(groups + [g.(pairs := g.pairs + [(key, value)])])
    ensures IsLine(Pair(key, Escape(value)))
  {
    EscapedIsOneLine(value, true);
    EscapeRoundTrip(value, true);
    var line := Pair(key, Escape(value));
    FirstOfIs(line, '=', |key|);
    assert line[..|key|] == key && line[|key| + 1..] == Escape(value);
    assert SkipSpaces(Escape(value)) == Escape(value);
    assert line[0] == key[0] && key[|key| - 1] != ' ';
    assert (groups + [g])[..|groups|] == groups;
  }

  function OptionalPair(key: string, value: string): seq<(string, string)> {
    if value != "" then [(key, value)] else []
  }

  /** The group a header is read back as. */
  function HeaderGroup(title: string, description: string): Group {
    Group(UI_GROUP, [("Version", "2")]
                    + OptionalPair("Description", description)
                    + OptionalPair("Title", title))
  }

  function EntryGroup(e: Entry): Group {
    Group(e.key, [("Value", e.value), ("Label", e.caption),
                  ("IsSecret", FormatBool(e.isSecret)), ("ShouldAsk", FormatBool(e.shouldAsk))])
  }

  function EntryGroups(es: seq<Entry>): seq<Group> {
    if es == [] then [] else [EntryGroup(es[0])] + EntryGroups(es[1..])
  }

  lemma {:induction false} ReadThenPair(groups: seq<Group>, lines: seq<string>, before: seq<Group>, g: Group,
      key: string, value: string)
    requires IsPlainKey(key) && ReadLines(groups, lines) == Some(before + [g])
    ensures ReadLines(groups, lines + [Pair(key, Escape(value))]) ==
        Some(before + [g.(pairs := g.pairs + [(key, value)])])
  {
    ReadLinesAppend(groups, lines, [Pair(key, Escape(value))]);
    ReadOne(before + [g], Pair(key, Escape(value)));
    ReadPair(before, g, key, value);
  }

  lemma {:induction false} ReadHeader(groups: seq<Group>, name: string)
    ensures ReadLines(groups, ["[" + name + "]"]) == Some(groups + [Group(name, [])])
  {
    var line := "[" + name + "]";
    assert line[1..|line| - 1] == name;
    ReadOne(groups, line);
  }

  predicate IsPlainChar(c: char) {
    'a' <= c <= 'z' || '0' <= c <= '9'
  }

  lemma PlainCharIsNotEscaped(c: char, leading: bool)
    requires IsPlainChar(c)
    ensures EscapeChar(c, leading) == [c]
  {
  }

  lemma {:induction false} PlainIsNotEscaped(word: string, leading: bool)
    requires forall i :: 0 <= i < |word| ==> IsPlainChar(word[i])
    ensures EscapeFrom(word, leading) == word
  {
    if word != "" {
      PlainCharIsNotEscaped(word[0], leading);
      PlainIsNotEscaped(word[1..], leading && word[0] == ' ');
      assert word == [word[0]] + word[1..];
    }
  }

  lemma PlainWords()
    ensures Escape("2") == "2" && Escape("true") == "true" && Escape("false") == "false"
  {
    PlainIsNotEscaped("2", true);
    PlainIsNotEscaped("true", true);
    PlainIsNotEscaped("false", true);
  }

  /** A pair that is only written when its value is not empty. */
  lemma {:induction false} ReadOptional(lines: seq<string>, g: Group, key: string, value: string)
    requires IsPlainKey(key) && ReadLines([], lines) == Some([g])
    ensures ReadLines([], lines + OptionalLine(key, value))
         == Some([g.(pairs := g.pairs + OptionalPair(key, value))])
  {
    assert [] + [g] == [g];
    if value != "" {
      ReadThenPair([], lines, [], g, key, value);
      assert [] + [g.(pairs := g.pairs + [(key, value)])] == [g.(pairs := g.pairs + [(key, value)])];
    } else {
      assert lines + [] == lines && g.pairs + [] == g.pairs;
    }
  }

  lemma ReadVersion()
    ensures ReadLines([], ["[" + UI_GROUP + "]"] + [Pair("Version", "2")]) ==
        Some([Group(UI_GROUP, [("Version", "2")])])
  {
    PlainWords();
    ReadHeader([], UI_GROUP);
    assert [] + [Group(UI_GROUP, [])] == [Group(UI_GROUP, [])] && [] + [("Version", "2")] == [("Version", "2")];
    ReadOptional(["[" + UI_GROUP + "]"], Group(UI_GROUP, []), "Version", "2");
  }

  lemma ReadHeaderLines(title: string, description: string)
    ensures ReadLines([], HeaderLines(title, description)) == Some([HeaderGroup(title, description)])
  {
    ReadVersion();
    var l1, g1 := ["[" + UI_GROUP + "]"] + [Pair("Version", "2")], Group(UI_GROUP, [("Version", "2")]);
    assert l1 == ["[" + UI_GROUP + "]", Pair("Version", "2")];
    ReadTwoOptional(l1, g1, description, title);
    ReadBlank(l1 + OptionalLine("Description", description) + OptionalLine("Title", title),
        HeaderGroup(title, description));
  }

  lemma {:induction false} ReadTwoOptional(lines: seq<string>, g: Group, description: string, title: string)
    requires ReadLines([], lines) == Some([g])
    ensures ReadLines([], lines + OptionalLine("Description", description) + OptionalLine("Title", title))
         == Some([g.(pairs := g.pairs + OptionalPair("Description", description) + OptionalPair("Title", title))])
  {
    ReadOptional(lines, g, "Description", description);
    ReadOptional(lines + OptionalLine("Description", description),
        g.(pairs := g.pairs + OptionalPair("Description", description)), "Title", title);
  }

  lemma {:induction false} ReadBlank(lines: seq<string>, g: Group)
    requires ReadLines([], lines) == Some([g])
    ensures ReadLines([], lines + [""]) == Some([g])
  {
    ReadLinesAppend([], lines, [""]);
    ReadOne([g], "");
  }

  lemma {:induction false} ReadEntryLines(groups: seq<Group>, e: Entry)
    ensures ReadLines(groups, EntryLines(e)) == Some(groups + [EntryGroup(e)])
  {
    PlainWords();
    var s, a := FormatBool(e.isSecret), FormatBool(e.shouldAsk);
    ReadTexts(groups, e);
    var l := ["[" + e.key + "]", Pair("Value", Escape(e.value)), Pair("Label", Escape(e.caption))];
    var p := [("Value", e.value), ("Label", e.caption)];
    ReadFlags(groups, l, Group(e.key, p), s, a);
    assert l + [Pair("IsSecret", s), Pair("ShouldAsk", a)] == EntryLines(e);
    assert p + [("IsSecret", s), ("ShouldAsk", a)] == EntryGroup(e).pairs;
  }

  lemma {:induction false} ReadTexts(groups: seq<Group>, e: Entry)
    ensures ReadLines(groups, ["[" + e.key + "]", Pair("Value", Escape(e.value)), Pair("Label", Escape(e.caption))])
         == Some(groups + [Group(e.key, [("Value", e.value), ("Label", e.caption)])])
  {
    var l0, l1, l2 := "[" + e.key + "]", Pair("Value", Escape(e.value)), Pair("Label", Escape(e.caption));
    ReadHeader(groups, e.key);
    ReadThenPair(groups, [l0], groups, Group(e.key, []), "Value", e.value);
    assert [l0] + [l1] == [l0, l1] && [] + [("Value", e.value)] == [("Value", e.value)];
    ReadThenPair(groups, [l0, l1], groups, Group(e.key, [("Value", e.value)]), "Label", e.caption);
    assert [l0, l1] + [l2] == [l0, l1, l2];
    assert [("Value", e.value)] + [("Label", e.caption)] == [("Value", e.value), ("Label", e.caption)];
  }

  lemma {:induction false} ReadFlags(groups: seq<Group>, lines: seq<string>, g: Group, s: string, a: string)
    requires ReadLines(groups, lines) == Some(groups + [g]) && Escape(s) == s && Escape(a) == a
    ensures ReadLines(groups, lines + [Pair("IsSecret", s), Pair("ShouldAsk", a)])
         == Some(groups + [g.(pairs := g.pairs + [("IsSecret", s), ("ShouldAsk", a)])])
  {
    ReadThenPair(groups, lines, groups, g, "IsSecret", s);
    var g1 := g.(pairs := g.pairs + [("IsSecret", s)]);
    ReadThenPair(groups, lines + [Pair("IsSecret", s)], groups, g1, "ShouldAsk", a);
    assert lines + [Pair("IsSecret", s)] + [Pair("ShouldAsk", a)] ==
        lines + [Pair("IsSecret", s), Pair("ShouldAsk", a)];
    assert g1.pairs + [("ShouldAsk", a)] == g.pairs + [("IsSecret", s), ("ShouldAsk", a)];
  }

  lemma {:induction false} ReadEntriesLines(groups: seq<Group>, es: seq<Entry>)
    ensures ReadLines(groups, EntriesLines(es)) == Some(groups + EntryGroups(es))
    decreases |es|
  {
    if es == [] {
      assert groups + [] == groups;
    } else {
      ReadEntriesLines(groups + [EntryGroup(es[0])], es[1..]);
      ReadEntryThen(groups, es[0], EntriesLines(es[1..]));
      assert groups + [EntryGroup(es[0])] + EntryGroups(es[1..]) == groups + EntryGroups(es);
    }
  }

  lemma {:induction false} ReadEntryThen(groups: seq<Group>, e: Entry, rest: seq<string>)
    ensures ReadLines(groups, EntryLines(e) + rest) == ReadLines(groups + [EntryGroup(e)], rest)
  {
    ReadEntryLines(groups, e);
    ReadLinesAppend(groups, EntryLines(e), rest);
  }

  lemma HeaderIsLines(title: string, description: string)
    ensures forall l :: l in HeaderLines(title, description) ==> IsLine(l)
  {
    EscapedIsOneLine(title, true);
    EscapedIsOneLine(description, true);
  }

  lemma EntryIsLines(e: Entry)
    requires IsLine(e.key)
    ensures forall l :: l in EntryLines(e) ==> IsLine(l)
  {
    PlainWords();
    EscapedIsOneLine(e.value, true);
    EscapedIsOneLine(e.caption, true);
    PairIsLine("Value", Escape(e.value));
    PairIsLine("Label", Escape(e.caption));
    PairIsLine("IsSecret", FormatBool(e.isSecret));
    PairIsLine("ShouldAsk", FormatBool(e.shouldAsk));
  }

  lemma PairIsLine(key: string, text: string)
    requires IsLine(key) && IsLine(text)
    ensures IsLine(Pair(key, text))
  {
  }

  lemma {:induction false} EntriesAreLines(es: seq<Entry>)
    requires forall i :: 0 <= i < |es| ==> IsLine(es[i].key)
    ensures forall l :: l in EntriesLines(es) ==> IsLine(l)
    decreases |es|
  {
    if es != [] {
      EntriesAreLines(es[1..]);
      EntryIsLines(es[0]);
    }
  }

  /** A header and any entries, whatever their values and labels, are read back as they were. */
  lemma {:induction false} FileRoundTrip(title: string, description: string, es: seq<Entry>)
    requires forall i :: 0 <= i < |es| ==> IsLine(es[i].key)
    ensures Read(HeaderText(title, description) + EntriesText(es)) ==
        Some([HeaderGroup(title, description)] + EntryGroups(es))
  {
    HeaderTextIsLines(title, description);
    EntriesTextIsLines(es);
    var header, body := HeaderLines(title, description), EntriesLines(es);
    JoinAppend(header, body);
    FileIsLines(title, description, es);
    LinesOfJoin(header + body);
    ReadHeaderLines(title, description);
    ReadEntriesLines([HeaderGroup(title, description)], es);
    ReadLinesAppend([], header, body);
  }

  lemma {:induction false} FileIsLines(title: string, description: string, es: seq<Entry>)
    requires forall i :: 0 <= i < |es| ==> IsLine(es[i].key)
    ensures var file := HeaderLines(title, description) + EntriesLines(es);
            forall i :: 0 <= i < |file| ==> IsLine(file[i])
  {
    HeaderIsLines(title, description);
    EntriesAreLines(es);
    var header, body := HeaderLines(title, description), EntriesLines(es);
    forall i | 0 <= i < |header + body| ensures IsLine((header + body)[i]) {
      assert (header + body)[i] in header || (header + body)[i] in body;
    }
  }
}
