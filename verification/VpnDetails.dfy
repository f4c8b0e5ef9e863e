/**
The line protocol on which NetworkManager hands a connection's data and secrets to the
authentication dialog: the parser, as functions on values, and the grammar it accepts. A
string here is a sequence of bytes, one character a byte, as the parser never looks further.
*/
module VpnDetails {
  import opened Wrappers

  const MAX_LINES := 4096
  const DONE := "DONE"

  datatype Target = NoTarget | Data | Secrets

  datatype Field = NoField | Key | Value

  datatype Details = Details(data: map<string, string>, secrets: map<string, string>)

  datatype Error =
    | MissingDone
    | TooManyLines
    | LineTooLong
    | LineContainsNul
    | NothingProvided
    | UnknownTag
    | DanglingContinuation
    | KeyBeforeValue
    | ValueWithoutKey
    | IncompletePair
    | InvalidTarget

  datatype Parser = Parser(
    details: Details,
    done: bool,
    gotItem: bool,
    target: Target,
    key: string,
    value: string,
    hasKey: bool,
    hasValue: bool,
    field: Field)

  const EMPTY := Details(map[], map[])
  const START := Parser(EMPTY, false, false, NoTarget, "", "", false, false, NoField)

  // ---------- the parser ----------

  function KeyTag(t: Target): string {
    if t == Data then "DATA_KEY=" else "SECRET_KEY="
  }

  function ValueTag(t: Target): string {
    if t == Data then "DATA_VAL=" else "SECRET_VAL="
  }

  function ContinuePrevious(p: Parser, text: string): Result<Parser, Error> {
    match p.field
    case Key => Ok(p.(key := p.key + "\n" + text))
    case Value => Ok(p.(value := p.value + "\n" + text))
    case NoField => Err(DanglingContinuation)
  }

  function StartKey(p: Parser, t: Target, key: string): Result<Parser, Error> {
    if p.hasKey || p.hasValue then Err(KeyBeforeValue)
    else Ok(p.(target := t, key := key, hasKey := true, field := Key))
  }

  function SetValue(p: Parser, t: Target, value: string): Result<Parser, Error> {
    if !p.hasKey || p.hasValue || p.target != t then Err(ValueWithoutKey)
    else Ok(p.(value := value, hasValue := true, field := Value))
  }

  function Store(d: Details, t: Target, key: string, value: string): Details {
    match t
    case Data => d.(data := d.data[key := value])
    case Secrets => d.(secrets := d.secrets[key := value])
    case NoTarget => d
  }

  function Flush(p: Parser): Result<Parser, Error> {
    if !p.hasKey && !p.hasValue then Ok(p)
    else if !p.hasKey || !p.hasValue then Err(IncompletePair)
    else if p.target == NoTarget then Err(InvalidTarget)
    else Ok(Parser(Store(p.details, p.target, p.key, p.value), p.done, true, NoTarget, "", "", false, false, NoField))
  }

  function Finish(p: Parser): Result<Parser, Error> {
    match Flush(p)
    case Err(e) => Err(e)
    case Ok(q) => if !q.gotItem then Err(NothingProvided) else Ok(q.(done := true))
  }

  predicate HasPrefix(line: string, prefix: string) {
    prefix <= line
  }

  function Tagged(p: Parser, line: string): Result<Parser, Error> {
    if HasPrefix(line, KeyTag(Data)) then StartKey(p, Data, line[|KeyTag(Data)|..])
    else if HasPrefix(line, ValueTag(Data)) then SetValue(p, Data, line[|ValueTag(Data)|..])
    else if HasPrefix(line, KeyTag(Secrets)) then StartKey(p, Secrets, line[|KeyTag(Secrets)|..])
    else if HasPrefix(line, ValueTag(Secrets)) then SetValue(p, Secrets, line[|ValueTag(Secrets)|..])
    else Err(UnknownTag)
  }

  function Consume(p: Parser, line: string): Result<Parser, Error> {
    if line == "" then Ok(p)
    else if line == DONE then Finish(p)
    else if HasPrefix(line, "=") then ContinuePrevious(p, line[1..])
    else if p.hasKey && p.hasValue then
      match Flush(p)
      case Err(e) => Err(e)
      case Ok(q) => Tagged(q, line)
    else Tagged(p, line)
  }

  /** The parser after all of `lines`. */
  function Feed(p: Parser, lines: seq<string>): Result<Parser, Error>
    decreases |lines|
  {
    if lines == [] then Ok(p) else
      match Feed(p, lines[..|lines| - 1])
      case Err(e) => Err(e)
      case Ok(q) => Consume(q, lines[|lines| - 1])
  }

  /** Reading lines until the parser is done, within the limit on their number. */
  function ReadLines(p: Parser, lines: seq<string>, budget: nat): Result<Details, Error>
    decreases budget
  {
    if budget == 0 then Err(TooManyLines)
    else if lines == [] then Err(MissingDone)
    else
      match Consume(p, lines[0])
      case Err(e) => Err(e)
      case Ok(q) => if q.done then Ok(q.details) else ReadLines(q, lines[1..], budget - 1)
  }

  // ---------- the grammar ----------

  /** One key and its value; either may span several lines. */
  datatype Entry = Entry(target: Target, key: string, value: string)

  predicate IsEntry(e: Entry) {
    e.target != NoTarget
  }

  predicate AreEntries(es: seq<Entry>) {
    forall i :: 0 <= i < |es| ==> IsEntry(es[i])
  }

  /** The position of the last newline of `text`, or -1. */
  function LastBreak(text: string): (i: int)
    ensures -1 <= i < |text|
    ensures i >= 0 ==> text[i] == '\n'
    ensures forall k :: i < k < |text| ==> text[k] != '\n'
  {
    if text == "" then -1
    else if text[|text| - 1] == '\n' then |text| - 1
    else LastBreak(text[..|text| - 1])
  }

  /** A tag line for the first line of `text`, and a continuation line for each further one. */
  function EncodeField(tag: string, text: string): seq<string>
    decreases |text|
  {
    var i := LastBreak(text);
    if i < 0 then [tag + text] else EncodeField(tag, text[..i]) + ["=" + text[i + 1..]]
  }

  function Encode(e: Entry): seq<string> {
    EncodeField(KeyTag(e.target), e.key) + EncodeField(ValueTag(e.target), e.value)
  }

  function EncodeAll(es: seq<Entry>): seq<string> {
    if es == [] then [] else EncodeAll(es[..|es| - 1]) + Encode(es[|es| - 1])
  }

  /** The entries stored one after the other, so that a later one wins. */
  function StoreAll(es: seq<Entry>): Details {
    if es == [] then EMPTY else
      var e := es[|es| - 1];
      Store(StoreAll(es[..|es| - 1]), e.target, e.key, e.value)
  }

  /** Blank separator lines carry no meaning. */
  function NonBlank(lines: seq<string>): seq<string> {
    if lines == [] then []
    else NonBlank(lines[..|lines| - 1]) + (if lines[|lines| - 1] == "" then [] else [lines[|lines| - 1]])
  }

  // ---------- what a key stands for in the end ----------

  function Part(d: Details, t: Target): map<string, string> {
    match t
    case Data => d.data
    case Secrets => d.secrets
    case NoTarget => map[]
  }

  predicate Binds(e: Entry, t: Target, key: string) {
    e.target == t && e.key == key
  }

  predicate IsLastBinding(es: seq<Entry>, t: Target, key: string, i: nat) {
    i < |es| && Binds(es[i], t, key) && forall j :: i < j < |es| ==> !Binds(es[j], t, key)
  }

  /** The value stored for a key is the one of its last entry, and only keys with an entry are stored. */
  lemma {:induction false} LastEntryWins(es: seq<Entry>, t: Target, key: string)
    requires AreEntries(es) && t != NoTarget
    ensures key in Part(StoreAll(es), t) ==>
        exists i: nat :: IsLastBinding(es, t, key, i) && Part(StoreAll(es), t)[key] == es[i].value
    ensures key !in Part(StoreAll(es), t) ==> forall i :: 0 <= i < |es| ==> !Binds(es[i], t, key)
  {
    if es != [] {
      var last := |es| - 1;
      LastEntryWins(es[..last], t, key);
      if Binds(es[last], t, key) {
        assert IsLastBinding(es, t, key, last);
      } else if key in Part(StoreAll(es), t) {
        var i: nat :| IsLastBinding(es[..last], t, key, i) && Part(StoreAll(es[..last]), t)[key] == es[..last][i].value;
        forall j | i < j < |es| ensures !Binds(es[j], t, key) {
          assert j < last ==> es[..last][j] == es[j];
        }
        assert IsLastBinding(es, t, key, i);
      } else {
        forall i | 0 <= i < |es| ensures !Binds(es[i], t, key) {
          assert i < last ==> es[..last][i] == es[i];
        }
      }
    }
  }

  // ---------- reachable parser states ----------

  /** A value comes with a key, a key with a target, and what a continuation extends is the latest of the two. */
  predicate Coherent(p: Parser) {
    && (p.hasValue ==> p.hasKey)
    && (p.hasKey ==> p.target != NoTarget)
    && p.field == (if p.hasValue then Value else if p.hasKey then Key else NoField)
  }

  lemma ConsumeKeepsCoherent(p: Parser, line: string)
    requires Coherent(p)
    ensures Consume(p, line) != Err(InvalidTarget)
    ensures Consume(p, line).Ok? ==> Coherent(Consume(p, line).value)
  {
  }

  /** Every state the parser can reach is coherent, so its check for an invalid target never fires. */
  lemma {:induction false} ReachableIsCoherent(lines: seq<string>)
    ensures Feed(START, lines) != Err(InvalidTarget)
    ensures Feed(START, lines).Ok? ==> Coherent(Feed(START, lines).value)
  {
    if lines != [] {
      ReachableIsCoherent(lines[..|lines| - 1]);
      var before := Feed(START, lines[..|lines| - 1]);
      if before.Ok? {
        ConsumeKeepsCoherent(before.value, lines[|lines| - 1]);
      }
    }
  }
}
