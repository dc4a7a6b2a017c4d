/** Demultiplexing KataGo's interleaved response lines into the queries waiting for them. */
module Demux {
  import opened Common

  /** A query id: the owner's own (`q0`, `q1`, ..) or any other string. */
  datatype Id = Q(n: nat) | Foreign(text: string)

  /** One stdout line, as far as the owner looks into it. `Turn` parses as a turn response,
      `Malformed` carries neither error nor warning but does not parse as one. */
  datatype Line =
    | Junk
    | Failure(id: Option<Id>, message: string)
    | Warning(id: Option<Id>)
    | Turn(id: Option<Id>, turn: string)
    | Malformed(id: Option<Id>)

  /** A query in flight. */
  datatype Entry = Entry(expected: nat, got: seq<string>)

  datatype Reply = Turns(turns: seq<string>) | Failed(message: string) | Dropped

  /** The pending table, and the replies sent so far. */
  datatype Table = Table(pending: map<nat, Entry>, answered: map<nat, Reply>)

  function Answer(t: Table, n: nat, r: Reply): Table {
    Table(t.pending - {n}, t.answered[n := r])
  }

  function Handled(t: Table, line: Line): Table {
    match line
    case Failure(Some(Q(n)), message) => if n in t.pending then Answer(t, n, Failed(message)) else t
    case Turn(Some(Q(n)), turn) =>
      if n !in t.pending then t
      else
        var got := t.pending[n].got + [turn];
        if |got| >= t.pending[n].expected then Answer(t, n, Turns(got))
        else t.(pending := t.pending[n := t.pending[n].(got := got)])
    case _ => t
  }

  function HandledAll(t: Table, lines: seq<Line>): Table
    decreases |lines|
  {
    if lines == [] then t else HandledAll(Handled(t, lines[0]), lines[1..])
  }

  // ----- what one query should see

  /** The lines that concern query `n`. */
  function Own(lines: seq<Line>, n: nat): seq<Line> {
    if lines == [] then []
    else
      var rest := Own(lines[1..], n);
      if (lines[0].Turn? || lines[0].Failure?) && lines[0].id == Some(Q(n)) then [lines[0]] + rest else rest
  }

  /** The turns among a query's own lines that come before its first error. */
  function TurnsBeforeError(own: seq<Line>): seq<string> {
    if own == [] || !own[0].Turn? then [] else [own[0].turn] + TurnsBeforeError(own[1..])
  }

  function FirstError(own: seq<Line>): Option<string> {
    if own == [] then None
    else if own[0].Failure? then Some(own[0].message)
    else FirstError(own[1..])
  }

  /** What the caller of a query with `expected` turns should have got, or `None` while it waits. */
  function Expected(expected: nat, own: seq<Line>): Option<Reply> {
    var turns := TurnsBeforeError(own);
    if |turns| >= expected then Some(Turns(turns[..expected]))
    else if FirstError(own).Some? then Some(Failed(FirstError(own).value))
    else None
  }

  /** No line touches another query's entry or reply. */
  lemma LineIsLocal(t: Table, line: Line, n: nat)
    requires Own([line], n) == []
    ensures n in Handled(t, line).pending <==> n in t.pending
    ensures n in t.pending ==> Handled(t, line).pending[n] == t.pending[n]
    ensures n in Handled(t, line).answered <==> n in t.answered
    ensures n in t.answered ==> Handled(t, line).answered[n] == t.answered[n]
  {
    assert Own([line], n) == if (line.Turn? || line.Failure?) && line.id == Some(Q(n)) then [line] else [];
  }

  lemma {:induction false} AnsweredStays(t: Table, lines: seq<Line>, n: nat)
    requires n !in t.pending
    ensures n !in HandledAll(t, lines).pending
    ensures n in HandledAll(t, lines).answered <==> n in t.answered
    ensures n in t.answered ==> HandledAll(t, lines).answered[n] == t.answered[n]
    decreases |lines|
  {
    if lines != [] {
      AnsweredStays(Handled(t, lines[0]), lines[1..], n);
    }
  }

  /** `got` turns were already received: the rest of the query's own lines decide. */
  lemma {:induction false} DemuxFrom(t: Table, lines: seq<Line>, n: nat)
    requires n in t.pending && n !in t.answered && |t.pending[n].got| < t.pending[n].expected
    ensures var e, own, t' := t.pending[n], Own(lines, n), HandledAll(t, lines);
      var turns := e.got + TurnsBeforeError(own);
      if |turns| >= e.expected then
        n !in t'.pending && n in t'.answered && t'.answered[n] == Turns(turns[..e.expected])
      else if FirstError(own).Some? then
        n !in t'.pending && n in t'.answered && t'.answered[n] == Failed(FirstError(own).value)
      else
        n !in t'.answered && n in t'.pending && t'.pending[n] == e.(got := turns)
    decreases |lines|
  {
    if lines == [] {
      assert t.pending[n].got + [] == t.pending[n].got;
    } else {
      var line, t1 := lines[0], Handled(t, lines[0]);
      if (line.Turn? || line.Failure?) && line.id == Some(Q(n)) {
        if n !in t1.pending {
          AnsweredStays(t1, lines[1..], n);
          DemuxAnswered(t, lines, n);
        } else {
          DemuxFrom(t1, lines[1..], n);
          assert t1.pending[n].got == t.pending[n].got + [line.turn];
          assert t.pending[n].got + ([line.turn] + TurnsBeforeError(Own(lines[1..], n))) ==
                 t1.pending[n].got + TurnsBeforeError(Own(lines[1..], n));
        }
      } else {
        assert Own([line], n) == [];
        LineIsLocal(t, line, n);
        DemuxFrom(t1, lines[1..], n);
      }
    }
  }

  lemma DemuxAnswered(t: Table, lines: seq<Line>, n: nat)
    requires lines != [] && n in t.pending && |t.pending[n].got| < t.pending[n].expected
    requires n !in Handled(t, lines[0]).pending
    ensures var e, own, t1 := t.pending[n], Own(lines, n), Handled(t, lines[0]);
      var turns := e.got + TurnsBeforeError(own);
      && n in t1.answered
      && (if lines[0].Turn? then |turns| >= e.expected && t1.answered[n] == Turns(turns[..e.expected])
          else |turns| < e.expected && FirstError(own).Some? && t1.answered[n] == Failed(FirstError(own).value))
  {
    var e, line := t.pending[n], lines[0];
    assert line.id == Some(Q(n));
    if line.Turn? {
      var rest := TurnsBeforeError(Own(lines[1..], n));
      assert TurnsBeforeError(Own(lines, n)) == [line.turn] + rest;
      assert (e.got + ([line.turn] + rest))[..e.expected] == e.got + [line.turn];
    }
  }

  /** Demultiplexing refines filtering: whatever other queries' lines are interleaved, a query just
      submitted gets exactly the first `expected` turn responses carrying its id, in order, unless an
      error line with its id comes first; until one of the two happens it stays pending. */
  lemma DemuxIsFiltering(t: Table, lines: seq<Line>, n: nat)
    requires n in t.pending && n !in t.answered && t.pending[n].got == [] && t.pending[n].expected > 0
    ensures var want, t' := Expected(t.pending[n].expected, Own(lines, n)), HandledAll(t, lines);
      && (want.Some? ==> n !in t'.pending && n in t'.answered && t'.answered[n] == want.value)
      && (want.None? ==> n !in t'.answered && n in t'.pending &&
                         t'.pending[n].got == TurnsBeforeError(Own(lines, n)))
  {
    DemuxFrom(t, lines, n);
    assert [] + TurnsBeforeError(Own(lines, n)) == TurnsBeforeError(Own(lines, n));
  }
}
