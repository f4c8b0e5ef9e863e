/**
The parser object and the loop that feeds it from a byte stream. A string here is a sequence
of bytes, one character a byte, so the limit on the length of a line counts bytes.
*/
module VpnDetailsReader {
  import opened Wrappers
  import opened Text
  import opened Lines
  import opened VpnDetails
  import T = VpnDetailsTheorems

  /** In bytes. */
  const MAX_LINE_LENGTH := 524288

  // ---------- lines of a stream ----------

  datatype Line = Line(text: string, rest: string)

  function TrimReturn(line: string): string {
    if line != "" && line[|line| - 1] == '\r' then line[..|line| - 1] else line
  }

  /** One line: its newline goes with a carriage return before it, and one more carriage return is trimmed. */
  function NextLine(input: string): Result<Line, Error> {
    if input == "" then Err(MissingDone) else
      var i := FirstOf(input, '\n');
      var raw := if i < |input| then TrimReturn(input[..i]) else input;
      if |raw| > MAX_LINE_LENGTH then Err(LineTooLong)
      else if '\0' in raw then Err(LineContainsNul)
      else Ok(Line(TrimReturn(raw), if i < |input| then input[i + 1..] else ""))
  }

  function ReadStream(p: Parser, input: string, budget: nat): Result<Details, Error>
    decreases budget
  {
    if budget == 0 then Err(TooManyLines) else
      match NextLine(input)
      case Err(e) => Err(e)
      case Ok(line) =>
        match Consume(p, line.text)
        case Err(e) => Err(e)
        case Ok(q) => if q.done then Ok(q.details) else ReadStream(q, line.rest, budget - 1)
  }

  // ---------- the original's objects ----------

  class Reader {
    var rest: string

    constructor (input: string)
      ensures rest == input
    {
      rest := input;
    }

    method ReadProtocolLine() returns (r: Result<string, Error>)
      modifies this
      ensures match NextLine(old(rest))
              case Err(e) => r == Err(e)
              case Ok(line) => r == Ok(line.text) && rest == line.rest
    {
      if rest == "" {
        return Err(MissingDone);
      }
      var i := 0;
      while i < |rest| && rest[i] != '\n'
        invariant 0 <= i <= |rest| && rest == old(rest) && (forall k :: 0 <= k < i ==> rest[k] != '\n')
      {
        i := i + 1;
      }
      FirstOfIs(rest, '\n', i);
      var line := rest;
      if i < |rest| {
        line := TrimReturn(rest[..i]);
        rest := rest[i + 1..];
      } else {
        rest := "";
      }
      if |line| > MAX_LINE_LENGTH {
        return Err(LineTooLong);
      }
      if '\0' in line {
        return Err(LineContainsNul);
      }
      r := Ok(TrimReturn(line));
    }
  }

  class ProtocolParser {
    var details: Details
    var done: bool
    var gotItem: bool
    var pendingTarget: Target
    var pendingKey: string
    var pendingValue: string
    var hasKey: bool
    var hasValue: bool
    var currentField: Field

    constructor ()
      ensures View() == START
    {
      details := EMPTY;
      done, gotItem := false, false;
      pendingTarget, pendingKey, pendingValue := NoTarget, "", "";
      hasKey, hasValue, currentField := false, false, NoField;
    }

    ghost function View(): Parser
      reads this
    {
      Parser(details, done, gotItem, pendingTarget, pendingKey, pendingValue, hasKey, hasValue, currentField)
    }

    /** An operation that failed has `error`; otherwise the object is what `after` says. */
    ghost predicate Outcome(after: Result<Parser, Error>, error: Option<Error>)
      reads this
    {
      match after
      case Err(e) => error == Some(e)
      case Ok(p) => error == None && View() == p
    }

    method ContinuePrevious(text: string) returns (error: Option<Error>)
      modifies this
      ensures Outcome(VpnDetails.ContinuePrevious(old(View()), text), error)
    {
      match currentField
      case Key => pendingKey := pendingKey + "\n" + text; error := None;
      case Value => pendingValue := pendingValue + "\n" + text; error := None;
      case NoField => error := Some(DanglingContinuation);
    }

    method StartKey(target: Target, key: string) returns (error: Option<Error>)
      modifies this
      ensures Outcome(VpnDetails.StartKey(old(View()), target, key), error)
    {
      if hasKey || hasValue {
        return Some(KeyBeforeValue);
      }
      pendingTarget, pendingKey, hasKey, currentField := target, key, true, Key;
      error := None;
    }

    method SetValue(target: Target, value: string) returns (error: Option<Error>)
      modifies this
      ensures Outcome(VpnDetails.SetValue(old(View()), target, value), error)
    {
      if !hasKey || hasValue || pendingTarget != target {
        return Some(ValueWithoutKey);
      }
      pendingValue, hasValue, currentField := value, true, Value;
      error := None;
    }

    method Flush() returns (error: Option<Error>)
      modifies this
      ensures Outcome(VpnDetails.Flush(old(View())), error)
    {
      if !hasKey && !hasValue {
        return None;
      }
      if !hasKey || !hasValue {
        return Some(IncompletePair);
      }
      match pendingTarget {
        case Data => details := details.(data := details.data[pendingKey := pendingValue]);
        case Secrets => details := details.(secrets := details.secrets[pendingKey := pendingValue]);
        case NoTarget => return Some(InvalidTarget);
      }
      pendingTarget, pendingKey, pendingValue := NoTarget, "", "";
      hasKey, hasValue, currentField, gotItem := false, false, NoField, true;
      error := None;
    }

    method ConsumeLine(line: string) returns (error: Option<Error>)
      modifies this
      ensures Outcome(Consume(old(View()), line), error)
    {
      if line == "" {
        return None;
      }
      if line == DONE {
        error := Flush();
        if error.Some? {
          return;
        }
        if !gotItem {
          return Some(NothingProvided);
        }
        done := true;
        return None;
      }
      if HasPrefix(line, "=") {
        error := ContinuePrevious(line[1..]);
        return;
      }
      if hasKey && hasValue {
        error := Flush();
        if error.Some? {
          return;
        }
      }
      if HasPrefix(line, KeyTag(Data)) {
        error := StartKey(Data, line[|KeyTag(Data)|..]);
      } else if HasPrefix(line, ValueTag(Data)) {
        error := SetValue(Data, line[|ValueTag(Data)|..]);
      } else if HasPrefix(line, KeyTag(Secrets)) {
        error := StartKey(Secrets, line[|KeyTag(Secrets)|..]);
      } else if HasPrefix(line, ValueTag(Secrets)) {
        error := SetValue(Secrets, line[|ValueTag(Secrets)|..]);
      } else {
        error := Some(UnknownTag);
      }
    }
  }

  method ReadVpnDetails(reader: Reader) returns (r: Result<Details, Error>)
    modifies reader
    ensures r == ReadStream(START, old(reader.rest), MAX_LINES)
  {
    var parser := new ProtocolParser();
    var lineNumber := 1;
    while lineNumber <= MAX_LINES
      invariant 1 <= lineNumber <= MAX_LINES + 1
      invariant !parser.done
      invariant ReadStream(parser.View(), reader.rest, MAX_LINES + 1 - lineNumber) ==
          ReadStream(START, old(reader.rest), MAX_LINES)
    {
      var line := reader.ReadProtocolLine();
      if line.Err? {
        return Err(line.error);
      }
      var error := parser.ConsumeLine(line.value);
      if error.Some? {
        return Err(error.value);
      }
      if parser.done {
        return Ok(parser.details);
      }
      lineNumber := lineNumber + 1;
    }
    r := Err(TooManyLines);
  }

  // ---------- from lines to bytes ----------

  /** What a line must be like to come back from the stream as it went in. */
  predicate IsClean(line: string) {
    '\0' !in line && |line| <= MAX_LINE_LENGTH && (line != "" ==> line[|line| - 1] != '\r')
  }

  /** A line survives the stream if and only if it is clean. */
  lemma LineSurvivesExactly(line: string, rest: string)
    requires IsLine(line)
    ensures NextLine(line + "\n" + rest) == Ok(Line(line, rest)) <==> IsClean(line)
  {
    var input := line + "\n" + rest;
    assert input[..|line|] == line && input[|line|] == '\n' && input[|line| + 1..] == rest;
    FirstOfIs(input, '\n', |line|);
  }

  predicate AreClean(lines: seq<string>) {
    forall i :: 0 <= i < |lines| ==> IsLine(lines[i]) && IsClean(lines[i])
  }

  /** From every parser state, the stream of the lines reads like the lines themselves. */
  ghost predicate ReadsAlike(lines: seq<string>, budget: nat) {
    forall p :: ReadStream(p, Join(lines), budget) == ReadLines(p, lines, budget)
  }

  lemma {:induction false} StreamIsLines(lines: seq<string>, budget: nat)
    requires AreClean(lines)
    ensures ReadsAlike(lines, budget)
    decreases |lines|
  {
    if lines != [] && budget > 0 {
      CleanTail(lines);
      StreamIsLines(lines[1..], budget - 1);
      forall p ensures ReadStream(p, Join(lines), budget) == ReadLines(p, lines, budget) {
        ReadOneLine(p, lines, budget);
      }
    }
  }

  lemma CleanTail(lines: seq<string>)
    requires AreClean(lines) && lines != []
    ensures AreClean(lines[1..])
  {
  }

  lemma {:induction false} ReadOneLine(p: Parser, lines: seq<string>, budget: nat)
    requires AreClean(lines) && lines != [] && budget > 0 && ReadsAlike(lines[1..], budget - 1)
    ensures ReadStream(p, Join(lines), budget) == ReadLines(p, lines, budget)
  {
    LineSurvivesExactly(lines[0], Join(lines[1..]));
  }

  /**
  Round trip: entries encoded as lines, with blank lines anywhere among them, written to a
  stream and closed by DONE in time, are read back as the maps in which the last entry wins.
  */
  lemma {:induction false} StreamRoundTrip(lines: seq<string>, es: seq<Entry>)
    requires es != [] && AreEntries(es) && NonBlank(lines) == EncodeAll(es)
    requires AreClean(lines) && |lines| < MAX_LINES
    ensures ReadStream(START, Join(lines + [DONE]), MAX_LINES) == Ok(StoreAll(es))
  {
    var all := lines + [DONE];
    assert all[..|lines|] == lines;
    T.EncodingsAccepted(all, es, |lines|);
    StreamIsLines(all, MAX_LINES);
    assert ReadStream(START, Join(all), MAX_LINES) == ReadLines(START, all, MAX_LINES);
  }

  // ---------- any stream ----------

  /** The lines of a stream up to the first that cannot be read, and why that one cannot. */
  datatype Split = Split(lines: seq<string>, stop: Error)

  function SplitStream(input: string): Split
    decreases |input|
  {
    match NextLine(input)
    case Err(e) => Split([], e)
    case Ok(line) =>
      NextLineShortens(input);
      var more := SplitStream(line.rest);
      Split([line.text] + more.lines, more.stop)
  }

  lemma NextLineShortens(input: string)
    requires NextLine(input).Ok?
    ensures |NextLine(input).value.rest| < |input|
  {
  }

  /** When its lines run out before DONE, the stream ends the way it was split; otherwise its lines decide alone. */
  function ReadSplit(p: Parser, split: Split, budget: nat): Result<Details, Error> {
    var result := ReadLines(p, split.lines, budget);
    if result == Err(MissingDone) then Err(split.stop) else result
  }

  lemma ConsumeNeverMissesDone(p: Parser, line: string)
    ensures Consume(p, line) != Err(MissingDone)
  {
  }

  /** From every parser state, the stream is read as its lines say. */
  ghost predicate ReadsAsSplit(input: string, budget: nat) {
    forall p :: ReadStream(p, input, budget) == ReadSplit(p, SplitStream(input), budget)
  }

  lemma {:induction false} AnyStreamIsItsLines(input: string, budget: nat)
    ensures ReadsAsSplit(input, budget)
    decreases budget
  {
    if budget > 0 && NextLine(input).Ok? {
      AnyStreamIsItsLines(NextLine(input).value.rest, budget - 1);
    }
    forall p
      ensures ReadStream(p, input, budget) == ReadSplit(p, SplitStream(input), budget)
    {
      if budget > 0 && NextLine(input).Ok? {
        ReadOneSplit(p, input, budget);
      }
    }
  }

  lemma {:induction false} ReadOneSplit(p: Parser, input: string, budget: nat)
    requires budget > 0 && NextLine(input).Ok? && ReadsAsSplit(NextLine(input).value.rest, budget - 1)
    ensures ReadStream(p, input, budget) == ReadSplit(p, SplitStream(input), budget)
  {
    var line := NextLine(input).value;
    var split, more := SplitStream(input), SplitStream(line.rest);
    assert split.lines[0] == line.text && split.lines[1..] == more.lines && split.stop == more.stop;
    ConsumeNeverMissesDone(p, line.text);
  }

  lemma {:induction false} SplitIntoLines(input: string)
    ensures forall i :: 0 <= i < |SplitStream(input).lines| ==> IsLine(SplitStream(input).lines[i])
    decreases |input|
  {
    if NextLine(input).Ok? {
      var line := NextLine(input).value;
      NextLineShortens(input);
      NextIsLine(input);
      SplitIntoLines(line.rest);
    }
  }

  lemma NextIsLine(input: string)
    requires NextLine(input).Ok?
    ensures IsLine(NextLine(input).value.text)
  {
  }

  /**
  For every stream of bytes: exactly those are accepted in which, before any line that is too
  long or has a NUL and within the limit, DONE closes an encoding of entries with blank lines
  among it; and what is returned is what those entries say.
  */
  lemma {:induction false} StreamIsExact(input: string, d: Details)
    ensures ReadStream(START, input, MAX_LINES) == Ok(d) <==> T.Says(SplitStream(input).lines, d)
  {
    StreamOkExactly(input, d);
    SplitIntoLines(input);
    T.ParserIsExact(SplitStream(input).lines, d);
  }

  lemma {:induction false} StreamOkExactly(input: string, d: Details)
    ensures ReadStream(START, input, MAX_LINES) == Ok(d) <==>
              ReadLines(START, SplitStream(input).lines, MAX_LINES) == Ok(d)
  {
    AnyStreamIsItsLines(input, MAX_LINES);
    ReadsAsSplitHere(input, MAX_LINES, START);
  }

  lemma {:induction false} ReadsAsSplitHere(input: string, budget: nat, p: Parser)
    requires ReadsAsSplit(input, budget)
    ensures ReadStream(p, input, budget) == ReadSplit(p, SplitStream(input), budget)
  {
  }
}
