/** The parser accepts exactly the encodings of non-empty lists of entries, and returns what they say. */
module VpnDetailsTheorems {
  import opened Wrappers
  import opened VpnDetails
  import opened Lines

  // ---------- feeding lines ----------

  lemma {:induction false} FeedAppend(p: Parser, a: seq<string>, b: seq<string>)
    ensures Feed(p, a + b) == match Feed(p, a) case Err(e) => Err(e) case Ok(q) => Feed(q, b)
    decreases |b|
  {
    if b == [] {
      assert a + b == a;
    } else {
      var last := |b| - 1;
      assert (a + b)[..|a + b| - 1] == a + b[..last];
      FeedAppend(p, a, b[..last]);
    }
  }

  lemma {:induction false} FeedOne(p: Parser, line: string)
    ensures Feed(p, [line]) == Consume(p, line)
  {
    assert Feed(p, [line][..0]) == Ok(p);
  }

  /** Blank lines, wherever they are, change nothing. */
  lemma {:induction false} BlankLinesIgnored(p: Parser, lines: seq<string>)
    ensures Feed(p, lines) == Feed(p, NonBlank(lines))
    decreases |lines|
  {
    if lines != [] {
      var init, line := lines[..|lines| - 1], lines[|lines| - 1];
      BlankLinesIgnored(p, init);
      if line == "" {
        assert NonBlank(lines) == NonBlank(init);
      } else {
        FeedAppend(p, NonBlank(init), [line]);
        if Feed(p, init).Ok? {
          FeedOne(Feed(p, init).value, line);
        }
      }
    }
  }

  // ---------- what the parser has seen ----------

  /** The state after the encoding of `es`: the last entry is still pending. */
  function Seen(es: seq<Entry>): Parser {
    if es == [] then START else
      var e := es[|es| - 1];
      Parser(StoreAll(es[..|es| - 1]), false, |es| > 1, e.target, e.key, e.value, true, true, Value)
  }

  /** The state after the encoding of `es` and of one more key. */
  function SeenKey(es: seq<Entry>, t: Target, key: string): Parser {
    Parser(StoreAll(es), false, es != [], t, key, "", true, false, Key)
  }

  lemma {:induction false} StoreAllAppend(es: seq<Entry>, e: Entry)
    ensures StoreAll(es + [e]) == Store(StoreAll(es), e.target, e.key, e.value)
    ensures EncodeAll(es + [e]) == EncodeAll(es) + Encode(e)
    ensures Seen(es + [e]) == Parser(StoreAll(es), false, es != [], e.target, e.key, e.value, true, true, Value)
  {
    assert (es + [e])[..|es|] == es;
  }

  lemma {:induction false} FlushSeen(es: seq<Entry>)
    requires AreEntries(es)
    ensures Flush(Seen(es)) == Ok(START.(details := StoreAll(es), gotItem := es != []))
  {
  }

  lemma TagLine(t: Target, text: string)
    requires t != NoTarget
    ensures var k := KeyTag(t) + text;
            k != "" && k != DONE && !HasPrefix(k, "=") && forall p :: Tagged(p, k) == StartKey(p, t, text)
    ensures var v := ValueTag(t) + text;
            v != "" && v != DONE && !HasPrefix(v, "=") && forall p :: Tagged(p, v) == SetValue(p, t, text)
  {
    var k, v := KeyTag(t) + text, ValueTag(t) + text;
    assert k[1] != 'O' && v[1] != 'O' && DONE[1] == 'O';
    assert k[|KeyTag(t)|..] == text && v[|ValueTag(t)|..] == text;
    assert k[0] == KeyTag(t)[0] && v[0] == ValueTag(t)[0];
    if t == Data {
      assert v[5] == 'V' && KeyTag(Data)[5] == 'K';
    } else {
      assert v[7] == 'V' && KeyTag(Secrets)[7] == 'K';
    }
  }

  lemma ContinuationLine(text: string)
    ensures var c := "=" + text;
            c != "" && c != DONE && HasPrefix(c, "=") && c[1..] == text
  {
    assert ("=" + text)[0] == '=' && DONE[0] == 'D';
  }

  // ---------- reading back an encoding ----------

  lemma {:induction false} ReadKey(es: seq<Entry>, t: Target, key: string)
    requires AreEntries(es) && t != NoTarget
    ensures Feed(Seen(es), EncodeField(KeyTag(t), key)) == Ok(SeenKey(es, t, key))
    decreases |key|
  {
    var i := LastBreak(key);
    if i < 0 {
      ReadKeyLine(es, t, key);
    } else {
      ReadKey(es, t, key[..i]);
      FeedAppend(Seen(es), EncodeField(KeyTag(t), key[..i]), ["=" + key[i + 1..]]);
      ReadMoreKey(es, t, key[..i], key[i + 1..]);
      assert key[..i] + "\n" + key[i + 1..] == key;
    }
  }

  lemma ReadKeyLine(es: seq<Entry>, t: Target, key: string)
    requires AreEntries(es) && t != NoTarget
    ensures Feed(Seen(es), [KeyTag(t) + key]) == Ok(SeenKey(es, t, key))
  {
    TagLine(t, key);
    FlushSeen(es);
    FeedOne(Seen(es), KeyTag(t) + key);
  }

  lemma ReadMoreKey(es: seq<Entry>, t: Target, key: string, rest: string)
    ensures Feed(SeenKey(es, t, key), ["=" + rest]) == Ok(SeenKey(es, t, key + "\n" + rest))
  {
    ContinuationLine(rest);
    FeedOne(SeenKey(es, t, key), "=" + rest);
  }

  lemma {:induction false} ReadValue(es: seq<Entry>, e: Entry)
    requires AreEntries(es) && IsEntry(e)
    ensures Feed(SeenKey(es, e.target, e.key), EncodeField(ValueTag(e.target), e.value)) == Ok(Seen(es + [e]))
    decreases |e.value|
  {
    var i := LastBreak(e.value);
    if i < 0 {
      ReadValueLine(es, e);
    } else {
      var p, shorter := SeenKey(es, e.target, e.key), e.(value := e.value[..i]);
      ReadValue(es, shorter);
      FeedAppend(p, EncodeField(ValueTag(e.target), e.value[..i]), ["=" + e.value[i + 1..]]);
      ReadMore(es, shorter, e.value[i + 1..]);
      assert e.value[..i] + "\n" + e.value[i + 1..] == e.value;
    }
  }

  lemma ReadValueLine(es: seq<Entry>, e: Entry)
    requires IsEntry(e)
    ensures Feed(SeenKey(es, e.target, e.key), [ValueTag(e.target) + e.value]) == Ok(Seen(es + [e]))
  {
    StoreAllAppend(es, e);
    TagLine(e.target, e.value);
    FeedOne(SeenKey(es, e.target, e.key), ValueTag(e.target) + e.value);
  }

  lemma ReadMore(es: seq<Entry>, e: Entry, rest: string)
    ensures Feed(Seen(es + [e]), ["=" + rest]) == Ok(Seen(es + [e.(value := e.value + "\n" + rest)]))
  {
    StoreAllAppend(es, e);
    StoreAllAppend(es, e.(value := e.value + "\n" + rest));
    ContinuationLine(rest);
    FeedOne(Seen(es + [e]), "=" + rest);
  }

  lemma ReadEntry(es: seq<Entry>, e: Entry)
    requires AreEntries(es) && IsEntry(e)
    ensures Feed(Seen(es), Encode(e)) == Ok(Seen(es + [e]))
  {
    FeedAppend(Seen(es), EncodeField(KeyTag(e.target), e.key), EncodeField(ValueTag(e.target), e.value));
    ReadKey(es, e.target, e.key);
    ReadValue(es, e);
  }

  lemma {:induction false} ReadEntries(es: seq<Entry>)
    requires AreEntries(es)
    ensures Feed(START, EncodeAll(es)) == Ok(Seen(es))
    decreases |es|
  {
    if es != [] {
      var init, e := es[..|es| - 1], es[|es| - 1];
      assert init + [e] == es && IsEntry(e);
      ReadEntries(init);
      ReadOneMore(init, e);
    }
  }

  lemma {:induction false} ReadOneMore(es: seq<Entry>, e: Entry)
    requires AreEntries(es) && IsEntry(e) && Feed(START, EncodeAll(es)) == Ok(Seen(es))
    ensures Feed(START, EncodeAll(es + [e])) == Ok(Seen(es + [e]))
  {
    StoreAllAppend(es, e);
    ReadEntry(es, e);
    FeedAppend(START, EncodeAll(es), Encode(e));
  }

  // ---------- every accepted input is an encoding ----------

  /** Lines the parser may see before DONE, blank ones left out. */
  predicate AreBodyLines(lines: seq<string>) {
    forall i :: 0 <= i < |lines| ==> lines[i] != "" && lines[i] != DONE && IsLine(lines[i])
  }

  datatype Shape = Whole(es: seq<Entry>) | Half(es: seq<Entry>, target: Target, key: string)

  predicate Explains(shape: Shape, p: Parser, lines: seq<string>) {
    match shape
    case Whole(es) => AreEntries(es) && p == Seen(es) && lines == EncodeAll(es)
    case Half(es, t, key) =>
      AreEntries(es) && t != NoTarget && p == SeenKey(es, t, key)
          && lines == EncodeAll(es) + EncodeField(KeyTag(t), key)
  }

  lemma {:induction false} LastBreakUnique(text: string, rest: string)
    requires IsLine(rest)
    ensures LastBreak(text + "\n" + rest) == |text|
    ensures LastBreak(rest) == -1
  {
    assert (text + "\n" + rest)[|text|] == '\n';
    assert forall k :: |text| < k < |text + "\n" + rest| ==> (text + "\n" + rest)[k] == rest[k - |text| - 1];
  }

  lemma {:induction false} ContinueField(tag: string, text: string, rest: string)
    requires IsLine(rest)
    ensures EncodeField(tag, text + "\n" + rest) == EncodeField(tag, text) + ["=" + rest]
    ensures EncodeField(tag, rest) == [tag + rest]
  {
    LastBreakUnique(text, rest);
    var whole := text + "\n" + rest;
    assert whole[..|text|] == text && whole[|text| + 1..] == rest;
  }

  /** One more line extends what the parser has seen by exactly that line. */
  lemma ExplainNext(shape: Shape, p: Parser, lines: seq<string>, line: string) returns (next: Shape)
    requires Explains(shape, p, lines) && AreBodyLines([line]) && Consume(p, line).Ok?
    ensures Explains(next, Consume(p, line).value, lines + [line])
  {
    assert [line][0] == line;
    if HasPrefix(line, "=") {
      next := ExplainContinuation(shape, p, lines, line);
    } else {
      next := ExplainTag(shape, p, lines, line);
    }
  }

  lemma ExplainContinuation(shape: Shape, p: Parser, lines: seq<string>, line: string) returns (next: Shape)
    requires Explains(shape, p, lines) && IsLine(line) && HasPrefix(line, "=") && line != DONE && Consume(p, line).Ok?
    ensures Explains(next, Consume(p, line).value, lines + [line])
  {
    var rest := line[1..];
    assert line == "=" + rest;
    match shape
    case Half(es, t, key) =>
      LongerKey(es, t, key, rest);
      next := Half(es, t, key + "\n" + rest);
    case Whole(es) =>
      next := shape;
      if es != [] {
        var init, e := es[..|es| - 1], es[|es| - 1];
        assert init + [e] == es;
        ExtendLast(init, e, p, lines, rest);
        next := Whole(init + [e.(value := e.value + "\n" + rest)]);
      }
  }

  lemma {:induction false} LongerKey(es: seq<Entry>, t: Target, key: string, rest: string)
    requires IsLine(rest)
    ensures EncodeAll(es) + EncodeField(KeyTag(t), key + "\n" + rest) ==
        EncodeAll(es) + EncodeField(KeyTag(t), key) + ["=" + rest]
  {
    ContinueField(KeyTag(t), key, rest);
  }

  lemma ExtendLast(init: seq<Entry>, e: Entry, p: Parser, lines: seq<string>, rest: string)
    requires Explains(Whole(init + [e]), p, lines) && IsLine(rest)
    ensures p.field == Value && p.value == e.value
    ensures Explains(Whole(init + [e.(value := e.value + "\n" + rest)]), p.(value := p.value + "\n" + rest),
        lines + ["=" + rest])
  {
    LongerValue(init, e, rest);
    StoreAllAppend(init, e);
    StillEntries(init, e, e.(value := e.value + "\n" + rest));
  }

  lemma StillEntries(init: seq<Entry>, e: Entry, f: Entry)
    requires AreEntries(init + [e]) && f.target == e.target
    ensures AreEntries(init + [f])
  {
    assert IsEntry((init + [e])[|init|]);
    forall i | 0 <= i < |init + [f]| ensures IsEntry((init + [f])[i]) {
      assert i < |init| ==> (init + [f])[i] == (init + [e])[i];
    }
  }

  /** Continuing the value of the last entry. */
  lemma {:induction false} LongerValue(es: seq<Entry>, e: Entry, rest: string)
    requires IsLine(rest)
    ensures var longer := e.(value := e.value + "\n" + rest);
            && EncodeAll(es + [longer]) == EncodeAll(es + [e]) + ["=" + rest]
            && Seen(es + [longer]) == Seen(es + [e]).(value := longer.value)
  {
    var longer := e.(value := e.value + "\n" + rest);
    StoreAllAppend(es, e);
    StoreAllAppend(es, longer);
    LongerEncoding(e, rest);
    Regroup(EncodeAll(es), Encode(e), ["=" + rest]);
  }

  lemma Regroup(a: seq<string>, b: seq<string>, c: seq<string>)
    ensures a + b + c == a + (b + c)
  {
  }

  lemma LongerEncoding(e: Entry, rest: string)
    requires IsLine(rest)
    ensures Encode(e.(value := e.value + "\n" + rest)) == Encode(e) + ["=" + rest]
  {
    ContinueField(ValueTag(e.target), e.value, rest);
  }

  lemma ExplainTag(shape: Shape, p: Parser, lines: seq<string>, line: string) returns (next: Shape)
    requires Explains(shape, p, lines) && IsLine(line) && !HasPrefix(line, "=") && line != "" && line != DONE
    requires Consume(p, line).Ok?
    ensures Explains(next, Consume(p, line).value, lines + [line])
  {
    match shape
    case Whole(es) => next := ExplainKeyTag(es, p, lines, line);
    case Half(es, t, key) => next := ExplainValueTag(es, t, key, p, lines, line);
  }

  lemma ExplainKeyTag(es: seq<Entry>, p: Parser, lines: seq<string>, line: string) returns (next: Shape)
    requires Explains(Whole(es), p, lines) && IsLine(line) && !HasPrefix(line, "=") && line != "" && line != DONE
    requires Consume(p, line).Ok?
    ensures Explains(next, Consume(p, line).value, lines + [line])
  {
    var key, t, rest := SplitTag(line);
    TagLine(t, rest);
    FlushSeen(es);
    assert key by {
      assert !key ==> Consume(p, line).Err?;
    }
    ContinueField(KeyTag(t), "", rest);
    next := Half(es, t, rest);
  }

  lemma ExplainValueTag(es: seq<Entry>, u: Target, k: string, p: Parser, lines: seq<string>, line: string)
      returns (next: Shape)
    requires Explains(Half(es, u, k), p, lines) && IsLine(line) && !HasPrefix(line, "=") && line != ""
    requires line != DONE && Consume(p, line).Ok?
    ensures Explains(next, Consume(p, line).value, lines + [line])
  {
    var key, t, rest := SplitTag(line);
    TagLine(t, rest);
    assert Consume(p, line) == Tagged(p, line);
    assert !key && t == u;
    next := Whole(es + [Entry(t, k, rest)]);
    WholeFromHalf(es, t, k, rest);
  }

  lemma {:induction false} WholeFromHalf(es: seq<Entry>, t: Target, key: string, value: string)
    requires IsLine(value)
    ensures var e := Entry(t, key, value);
            && EncodeAll(es + [e]) == EncodeAll(es) + EncodeField(KeyTag(t), key) + [ValueTag(t) + value]
            && Seen(es + [e]) == SeenKey(es, t, key).(value := value, hasValue := true, field := Value)
  {
    StoreAllAppend(es, Entry(t, key, value));
    ContinueField(ValueTag(t), "", value);
  }

  /** Which of the four tags an accepted line starts with. */
  lemma SplitTag(line: string) returns (key: bool, t: Target, rest: string)
    requires exists p :: Tagged(p, line).Ok?
    requires IsLine(line)
    ensures t != NoTarget && line == (if key then KeyTag(t) else ValueTag(t)) + rest && IsLine(rest)
  {
    key := HasPrefix(line, KeyTag(Data)) || (!HasPrefix(line, ValueTag(Data)) && HasPrefix(line, KeyTag(Secrets)));
    t := if HasPrefix(line, KeyTag(Data)) || HasPrefix(line, ValueTag(Data)) then Data else Secrets;
    rest := line[|if key then KeyTag(t) else ValueTag(t)|..];
  }

  lemma {:induction false} Explain(lines: seq<string>) returns (shape: Shape)
    requires AreBodyLines(lines) && Feed(START, lines).Ok?
    ensures Explains(shape, Feed(START, lines).value, lines)
    decreases |lines|
  {
    if lines == [] {
      shape := ExplainNothing();
    } else {
      var init, line := lines[..|lines| - 1], lines[|lines| - 1];
      BodySplits(lines);
      FeedSnoc(init, line);
      assert init + [line] == lines;
      var before := Explain(init);
      shape := ExplainLast(before, init, line);
    }
  }

  lemma ExplainNothing() returns (shape: Shape)
    ensures Explains(shape, START, [])
  {
    shape := Whole([]);
  }

  lemma BodySplits(lines: seq<string>)
    requires AreBodyLines(lines) && lines != []
    ensures AreBodyLines(lines[..|lines| - 1]) && AreBodyLines([lines[|lines| - 1]])
  {
  }

  lemma {:induction false} FeedSnoc(init: seq<string>, line: string)
    ensures Feed(START, init + [line]) == match Feed(START, init) case Err(e) => Err(e) case Ok(q) => Consume(q, line)
  {
    FeedAppend(START, init, [line]);
    if Feed(START, init).Ok? {
      FeedOne(Feed(START, init).value, line);
    }
  }

  lemma ExplainLast(before: Shape, init: seq<string>, line: string) returns (shape: Shape)
    requires Feed(START, init).Ok? && Explains(before, Feed(START, init).value, init)
    requires AreBodyLines([line]) && Consume(Feed(START, init).value, line).Ok?
    ensures Explains(shape, Consume(Feed(START, init).value, line).value, init + [line])
  {
    shape := ExplainNext(before, Feed(START, init).value, init, line);
  }

  // ---------- the whole input ----------

  /** A finished body is the encoding of at least one entry, and what is returned is their fold. */
  lemma FinishExplained(shape: Shape, p: Parser, lines: seq<string>)
    requires Explains(shape, p, lines)
    ensures Finish(p).Ok? <==> shape.Whole? && shape.es != []
    ensures Finish(p).Ok? ==> Finish(p).value.details == StoreAll(shape.es) && Finish(p).value.done
  {
    if shape.Whole? {
      FlushSeen(shape.es);
    }
  }

  lemma {:induction false} NonBlankLines(lines: seq<string>)
    ensures forall l :: l in NonBlank(lines) <==> l in lines && l != ""
    ensures |NonBlank(lines)| <= |lines|
  {
    if lines != [] {
      NonBlankLines(lines[..|lines| - 1]);
      assert lines == lines[..|lines| - 1] + [lines[|lines| - 1]];
    }
  }

  lemma {:induction false} DoneOnlyByDone(lines: seq<string>)
    requires DONE !in lines && Feed(START, lines).Ok?
    ensures !Feed(START, lines).value.done
    decreases |lines|
  {
    if lines != [] {
      var init, line := lines[..|lines| - 1], lines[|lines| - 1];
      assert line in lines;
      assert forall l :: l in init ==> l in lines;
      DoneOnlyByDone(init);
    }
  }

  /** Reading stops at the first DONE line. */
  lemma {:induction false} ReadLinesFeeds(done: seq<string>, todo: seq<string>, budget: nat, n: nat)
    requires n <= |todo| && n < budget && DONE !in done && DONE !in todo[..n]
    requires Feed(START, done).Ok?
    ensures match Feed(START, done + todo[..n])
            case Err(e) => ReadLines(Feed(START, done).value, todo, budget) == Err(e)
            case Ok(p) => ReadLines(Feed(START, done).value, todo, budget) == ReadLines(p, todo[n..], budget - n)
    decreases n
  {
    if n == 0 {
      assert done + todo[..0] == done;
    } else {
      var line, rest := todo[0], todo[1..];
      FirstOfMany(done, todo, n);
      FeedSnoc(done, line);
      if Consume(Feed(START, done).value, line).Ok? {
        NotDoneAfter(done, line);
        ReadLinesFeeds(done + [line], rest, budget - 1, n - 1);
      } else {
        FeedAppend(START, done + [line], rest[..n - 1]);
      }
    }
  }

  lemma FirstOfMany(done: seq<string>, todo: seq<string>, n: nat)
    requires 0 < n <= |todo|
    ensures done + todo[..n] == done + [todo[0]] + todo[1..][..n - 1]
    ensures todo[1..][n - 1..] == todo[n..]
    ensures forall l :: l in todo[..n] <==> l == todo[0] || l in todo[1..][..n - 1]
  {
    assert todo[..n] == [todo[0]] + todo[1..][..n - 1];
    Regroup(done, [todo[0]], todo[1..][..n - 1]);
  }

  /** The first `n` lines are blank lines and the encoding of `es`, and DONE follows within the limit. */
  ghost predicate Accepted(lines: seq<string>, es: seq<Entry>, n: nat) {
    && n < |lines| && n < MAX_LINES && lines[n] == DONE
    && es != [] && AreEntries(es) && NonBlank(lines[..n]) == EncodeAll(es)
  }

  lemma {:induction false} EncodeFieldIsBody(t: Target, key: bool, text: string)
    requires t != NoTarget
    ensures var f := EncodeField(if key then KeyTag(t) else ValueTag(t), text);
            "" !in f && DONE !in f
    decreases |text|
  {
    var tag := if key then KeyTag(t) else ValueTag(t);
    var i := LastBreak(text);
    if i < 0 {
      TagLine(t, text);
    } else {
      EncodeFieldIsBody(t, key, text[..i]);
      ContinuationLine(text[i + 1..]);
    }
  }

  lemma {:induction false} EncodeAllIsBody(es: seq<Entry>)
    requires AreEntries(es)
    ensures "" !in EncodeAll(es) && DONE !in EncodeAll(es)
    decreases |es|
  {
    if es != [] {
      var e := es[|es| - 1];
      EncodeAllIsBody(es[..|es| - 1]);
      EncodeFieldIsBody(e.target, true, e.key);
      EncodeFieldIsBody(e.target, false, e.value);
    }
  }

  /** Completeness: blank lines interspersed in any encoding, closed by DONE in time, are read as the entries' fold. */
  lemma {:induction false} EncodingsAccepted(lines: seq<string>, es: seq<Entry>, n: nat)
    requires Accepted(lines, es, n)
    ensures ReadLines(START, lines, MAX_LINES) == Ok(StoreAll(es))
  {
    EncodeAllIsBody(es);
    NonBlankLines(lines[..n]);
    assert DONE !in lines[..n];
    BlankLinesIgnored(START, lines[..n]);
    ReadEntries(es);
    assert [] + lines[..n] == lines[..n];
    ReadLinesFeeds([], lines, MAX_LINES, n);
    FinishExplained(Whole(es), Seen(es), EncodeAll(es));
    assert lines[n..][0] == DONE;
  }

  /** Soundness: whatever is accepted is the encoding of some entries, and the result is their fold. */
  lemma AcceptedAreEncodings(lines: seq<string>) returns (es: seq<Entry>, n: nat)
    requires forall i :: 0 <= i < |lines| ==> IsLine(lines[i])
    requires ReadLines(START, lines, MAX_LINES).Ok?
    ensures Accepted(lines, es, n) && ReadLines(START, lines, MAX_LINES) == Ok(StoreAll(es))
  {
    n := FirstDone(lines);
    assert [] + lines[..n] == lines[..n];
    assert Feed(START, []) == Ok(START);
    if n < MAX_LINES {
      ReadLinesFeeds([], lines, MAX_LINES, n);
      var p := Feed(START, lines[..n]).value;
      assert n < |lines| && lines[n..][0] == DONE;
      BlankLinesIgnored(START, lines[..n]);
      NonBlankLines(lines[..n]);
      var body := NonBlank(lines[..n]);
      forall i | 0 <= i < |body| ensures body[i] != "" && body[i] != DONE && IsLine(body[i]) {
        assert body[i] in body;
      }
      var shape := Explain(body);
      FinishExplained(shape, p, body);
      es := shape.es;
    } else {
      NeverDone(lines);
      assert false;
    }
  }

  /** The index of the first DONE line, or the number of lines. */
  lemma {:induction false} FirstDone(lines: seq<string>) returns (n: nat)
    ensures n <= |lines| && DONE !in lines[..n] && (n < |lines| ==> lines[n] == DONE)
  {
    n := 0;
    while n < |lines| && lines[n] != DONE
      invariant n <= |lines| && DONE !in lines[..n]
    {
      n := n + 1;
    }
  }

  lemma {:induction false} NeverDone(lines: seq<string>)
    requires |lines| >= MAX_LINES && DONE !in lines[..MAX_LINES]
    ensures ReadLines(START, lines, MAX_LINES).Err?
  {
    var n := MAX_LINES - 1;
    var init := lines[..n];
    assert [] + init == init && lines[..MAX_LINES] == init + [lines[n]];
    ReadLinesFeeds([], lines, MAX_LINES, n);
    if Feed(START, init).Ok? {
      NotDoneAfter(init, lines[n]);
      assert lines[n..][0] == lines[n];
    }
  }

  lemma {:induction false} NotDoneAfter(init: seq<string>, line: string)
    requires DONE !in init && line != DONE && Feed(START, init).Ok?
    ensures Consume(Feed(START, init).value, line).Ok? ==> !Consume(Feed(START, init).value, line).value.done
  {
    FeedSnoc(init, line);
    if Feed(START, init + [line]).Ok? {
      DoneOnlyByDone(init + [line]);
    }
  }

  /** The lines are, within the limit, an encoding of entries that make up `d`. */
  ghost predicate Says(lines: seq<string>, d: Details) {
    exists es, n: nat :: Accepted(lines, es, n) && d == StoreAll(es)
  }

  /** The parser accepts exactly the encodings, within the line limit, and returns exactly what they say. */
  lemma {:induction false} ParserIsExact(lines: seq<string>, d: Details)
    requires forall i :: 0 <= i < |lines| ==> IsLine(lines[i])
    ensures ReadLines(START, lines, MAX_LINES) == Ok(d) <==> Says(lines, d)
  {
    if ReadLines(START, lines, MAX_LINES) == Ok(d) {
      var es, n := AcceptedAreEncodings(lines);
    }
    forall es, n: nat | Accepted(lines, es, n) ensures ReadLines(START, lines, MAX_LINES) == Ok(StoreAll(es)) {
      EncodingsAccepted(lines, es, n);
    }
  }
}
