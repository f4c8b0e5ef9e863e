/**
Which error the parser reports, and when: decided by the first offending line and the latest tag
line before it, or by what is missing when no line offends.
*/
module VpnDetailsErrors {
  import opened Wrappers
  import opened VpnDetails

  predicate IsKeyLine(line: string, t: Target) {
    t != NoTarget && HasPrefix(line, if t == Data then "DATA_KEY=" else "SECRET_KEY=")
  }

  predicate IsValueLine(line: string, t: Target) {
    t != NoTarget && HasPrefix(line, if t == Data then "DATA_VAL=" else "SECRET_VAL=")
  }

  predicate OpensKey(line: string) {
    IsKeyLine(line, Data) || IsKeyLine(line, Secrets)
  }

  predicate IsFiller(line: string) {
    line == "" || line[0] == '='
  }

  /** The latest of the first `k` lines that is neither blank nor a continuation. */
  function LastTag(lines: seq<string>, k: nat): Option<string>
    requires k <= |lines|
  {
    if k == 0 then None
    else if IsFiller(lines[k - 1]) then LastTag(lines, k - 1)
    else Some(lines[k - 1])
  }

  predicate AwaitsValue(tag: Option<string>, t: Target) {
    tag.Some? && IsKeyLine(tag.value, t)
  }

  /** What is wrong with a line after lines of which `tag` is the latest tag line. */
  function Offence(tag: Option<string>, line: string): Option<Error> {
    var awaits := AwaitsValue(tag, Data) || AwaitsValue(tag, Secrets);
    if line == "" then None
    else if line == "DONE" then
      if tag.None? then Some(NothingProvided) else if awaits then Some(IncompletePair) else None
    else if line[0] == '=' then
      if tag.None? then Some(DanglingContinuation) else None
    else if OpensKey(line) then
      if awaits then Some(KeyBeforeValue) else None
    else if IsValueLine(line, Data) then
      if AwaitsValue(tag, Data) then None else Some(ValueWithoutKey)
    else if IsValueLine(line, Secrets) then
      if AwaitsValue(tag, Secrets) then None else Some(ValueWithoutKey)
    else
      Some(UnknownTag)
  }

  /** The state the parser is in after lines of which `tag` is the latest tag line. */
  predicate InState(p: Parser, tag: Option<string>) {
    && Coherent(p)
    && match tag
       case None => !p.hasKey && !p.gotItem
       case Some(line) =>
         && p.hasKey && p.hasValue == !OpensKey(line)
         && (IsKeyLine(line, Data) ==> p.target == Data) && (IsKeyLine(line, Secrets) ==> p.target == Secrets)
  }

  lemma StateDecides(p: Parser, tag: Option<string>, line: string, e: Error)
    requires InState(p, tag)
    ensures Consume(p, line) == Err(e) <==> Offence(tag, line) == Some(e)
  {
    Prefixes(line);
  }

  /** A line has at most one of the tags. */
  lemma Prefixes(line: string)
    ensures IsKeyLine(line, Data) ==> !IsKeyLine(line, Secrets)
    ensures OpensKey(line) ==> !IsValueLine(line, Data) && !IsValueLine(line, Secrets)
    ensures IsValueLine(line, Data) ==> !IsValueLine(line, Secrets)
    ensures HasPrefix(line, "=") <==> line != "" && line[0] == '='
  {
    PrefixAt(line, "DATA_KEY=", 0);
    PrefixAt(line, "DATA_KEY=", 5);
    PrefixAt(line, "DATA_VAL=", 0);
    PrefixAt(line, "DATA_VAL=", 5);
    PrefixAt(line, "SECRET_KEY=", 0);
    PrefixAt(line, "SECRET_KEY=", 7);
    PrefixAt(line, "SECRET_VAL=", 0);
    PrefixAt(line, "SECRET_VAL=", 7);
    PrefixAt(line, "=", 0);
  }

  lemma PrefixAt(line: string, prefix: string, i: nat)
    requires i < |prefix|
    ensures HasPrefix(line, prefix) ==> i < |line| && line[i] == prefix[i]
  {
  }

  lemma StateGoesOn(p: Parser, tag: Option<string>, line: string)
    requires InState(p, tag) && line != DONE && Consume(p, line).Ok?
    ensures InState(Consume(p, line).value, if IsFiller(line) then tag else Some(line))
    ensures Consume(p, line).value.done == p.done
  {
    Prefixes(line);
    ConsumeKeepsCoherent(p, line);
  }

  lemma DoneFinishes(p: Parser, tag: Option<string>)
    requires InState(p, tag) && Consume(p, DONE).Ok?
    ensures Consume(p, DONE).value.done
  {
  }

  /** No line of the first `k` offends, and none of them is the last. */
  predicate Clean(lines: seq<string>, k: nat)
    requires k <= |lines|
  {
    forall j :: 0 <= j < k ==> lines[j] != DONE && Offence(LastTag(lines, j), lines[j]).None?
  }

  predicate FirstOffence(lines: seq<string>, k: nat, e: Error) {
    k < |lines| && Clean(lines, k) && Offence(LastTag(lines, k), lines[k]) == Some(e)
  }

  /** Why reading `limit` lines at most, of which the first `k` are clean, fails with `e`. */
  ghost predicate Fails(lines: seq<string>, k: nat, limit: nat, e: Error) {
    || (exists j: nat :: k <= j < limit && FirstOffence(lines, j, e))
    || (e == MissingDone && |lines| < limit && Clean(lines, |lines|))
    || (e == TooManyLines && limit <= |lines| && Clean(lines, limit))
  }

  lemma {:induction false} WalkFails(p: Parser, lines: seq<string>, k: nat, limit: nat, e: Error)
    requires k <= |lines| && k <= limit && Clean(lines, k) && InState(p, LastTag(lines, k)) && !p.done
    ensures ReadLines(p, lines[k..], limit - k) == Err(e) <==> Fails(lines, k, limit, e)
    decreases limit - k, 2
  {
    if k == limit || k == |lines| {
      NothingLeft(lines, k, limit, e);
    } else {
      assert lines[k..][0] == lines[k] && lines[k..][1..] == lines[k + 1..];
      if Consume(p, lines[k]).Err? {
        StateDecides(p, LastTag(lines, k), lines[k], e);
        StateDecides(p, LastTag(lines, k), lines[k], Consume(p, lines[k]).error);
        OffenceDecides(lines, k, limit, e);
      } else {
        NoOffence(p, lines, k);
        WalkOn(p, lines, k, limit, e);
      }
    }
  }

  lemma {:induction false} WalkOn(p: Parser, lines: seq<string>, k: nat, limit: nat, e: Error)
    requires k < |lines| && k < limit && Clean(lines, k) && InState(p, LastTag(lines, k)) && !p.done
    requires Consume(p, lines[k]).Ok? && Offence(LastTag(lines, k), lines[k]).None?
    ensures var q := Consume(p, lines[k]).value;
            (!q.done && ReadLines(q, lines[k + 1..], limit - (k + 1)) == Err(e)) <==> Fails(lines, k, limit, e)
    decreases limit - k, 1
  {
    if lines[k] == DONE {
      DoneFinishes(p, LastTag(lines, k));
      DoneEnds(lines, k, limit, e);
    } else {
      MoveOn(p, lines, k);
      WalkPast(Consume(p, lines[k]).value, lines, k, limit, e);
    }
  }

  lemma {:induction false} WalkPast(q: Parser, lines: seq<string>, k: nat, limit: nat, e: Error)
    requires k < |lines| && k < limit && Offence(LastTag(lines, k), lines[k]).None?
    requires Clean(lines, k + 1) && InState(q, LastTag(lines, k + 1)) && !q.done
    ensures ReadLines(q, lines[k + 1..], limit - (k + 1)) == Err(e) <==> Fails(lines, k, limit, e)
    decreases limit - k, 0
  {
    FailsShifts(lines, k, limit, e);
    WalkFails(q, lines, k + 1, limit, e);
  }

  lemma MoveOn(p: Parser, lines: seq<string>, k: nat)
    requires k < |lines| && Clean(lines, k) && InState(p, LastTag(lines, k)) && !p.done
    requires lines[k] != DONE && Consume(p, lines[k]).Ok? && Offence(LastTag(lines, k), lines[k]).None?
    ensures Clean(lines, k + 1) && !Consume(p, lines[k]).value.done
    ensures InState(Consume(p, lines[k]).value, LastTag(lines, k + 1))
  {
    StateGoesOn(p, LastTag(lines, k), lines[k]);
  }

  /** The limit is reached, or the lines are. */
  lemma NothingLeft(lines: seq<string>, k: nat, limit: nat, e: Error)
    requires k <= |lines| && k <= limit && (k == limit || k == |lines|) && Clean(lines, k)
    ensures Fails(lines, k, limit, e) <==> e == if k == limit then TooManyLines else MissingDone
  {
  }

  lemma DoneEnds(lines: seq<string>, k: nat, limit: nat, e: Error)
    requires k < |lines| && k < limit && lines[k] == DONE && Offence(LastTag(lines, k), lines[k]).None?
    ensures !Fails(lines, k, limit, e)
  {
    StuckAt(lines, k);
  }

  lemma NoOffence(p: Parser, lines: seq<string>, k: nat)
    requires k < |lines| && InState(p, LastTag(lines, k)) && Consume(p, lines[k]).Ok?
    ensures Offence(LastTag(lines, k), lines[k]).None?
  {
    var offence := Offence(LastTag(lines, k), lines[k]);
    if offence.Some? {
      StateDecides(p, LastTag(lines, k), lines[k], offence.value);
    }
  }

  /** An offending line settles the matter. */
  lemma OffenceDecides(lines: seq<string>, k: nat, limit: nat, e: Error)
    requires k < |lines| && k < limit && Clean(lines, k) && Offence(LastTag(lines, k), lines[k]).Some?
    ensures Fails(lines, k, limit, e) <==> Offence(LastTag(lines, k), lines[k]) == Some(e)
  {
    if Offence(LastTag(lines, k), lines[k]) == Some(e) {
      assert FirstOffence(lines, k, e);
    }
    if Fails(lines, k, limit, e) {
      StuckAt(lines, k);
      var j: nat :| k <= j < limit && FirstOffence(lines, j, e);
      assert j == k;
    }
  }

  lemma StuckAt(lines: seq<string>, k: nat)
    requires k < |lines| && (lines[k] == DONE || Offence(LastTag(lines, k), lines[k]).Some?)
    ensures forall j :: k < j <= |lines| ==> !Clean(lines, j)
  {
  }

  lemma FailsShifts(lines: seq<string>, k: nat, limit: nat, e: Error)
    requires k < |lines| && Offence(LastTag(lines, k), lines[k]).None?
    ensures Fails(lines, k, limit, e) <==> Fails(lines, k + 1, limit, e)
  {
  }

  /**
  Reading fails with a given error exactly if the first offending line before the end and within the
  limit offends in that way, or the lines run out, or the limit does, before one offends or ends them.
  */
  lemma {:induction false} ErrorsAreExact(lines: seq<string>, e: Error)
    ensures ReadLines(START, lines, MAX_LINES) == Err(e) <==> Fails(lines, 0, MAX_LINES, e)
  {
    assert lines[0..] == lines;
    WalkFails(START, lines, 0, MAX_LINES, e);
  }
}
