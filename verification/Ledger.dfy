/** Balanced journals. */
module Ledger {
  import opened Prelude

  /** Amounts in the smallest unit of the currency. */
  datatype JournalLine = JournalLine(debit: int, credit: int)

  datatype JournalError = TooFewLines | InvalidLine | AmountNotPositive | NotBalanced

  function TotalDebit(lines: seq<JournalLine>): int {
    if lines == [] then 0 else TotalDebit(lines[..|lines| - 1]) + lines[|lines| - 1].debit
  }

  function TotalCredit(lines: seq<JournalLine>): int {
    if lines == [] then 0 else TotalCredit(lines[..|lines| - 1]) + lines[|lines| - 1].credit
  }

  predicate IsInvalid(line: JournalLine) {
    || line.debit < 0 || line.credit < 0
    || (line.debit > 0 && line.credit > 0)
    || (line.debit == 0 && line.credit == 0)
  }

  /** `validate_balanced_journal`: the first complaint, if any. */
  function Validate(lines: seq<JournalLine>): Result<(), JournalError> {
    if |lines| < 2 then Err(TooFewLines)
    else if exists i :: 0 <= i < |lines| && IsInvalid(lines[i]) then Err(InvalidLine)
    else if TotalDebit(lines) <= 0 then Err(AmountNotPositive)
    else if TotalDebit(lines) != TotalCredit(lines) then Err(NotBalanced)
    else Ok(())
  }

  predicate PureDebit(line: JournalLine) {
    line.debit > 0 && line.credit == 0
  }

  predicate PureCredit(line: JournalLine) {
    line.credit > 0 && line.debit == 0
  }

  predicate AllPure(lines: seq<JournalLine>) {
    forall i :: 0 <= i < |lines| ==> PureDebit(lines[i]) || PureCredit(lines[i])
  }

  lemma {:induction false} PureTotals(lines: seq<JournalLine>)
    requires AllPure(lines)
    ensures TotalDebit(lines) >= 0 && TotalCredit(lines) >= 0
    ensures TotalDebit(lines) > 0 <==> exists i :: 0 <= i < |lines| && PureDebit(lines[i])
    ensures TotalCredit(lines) > 0 <==> exists i :: 0 <= i < |lines| && PureCredit(lines[i])
  {
    if lines != [] {
      var front, last := lines[..|lines| - 1], lines[|lines| - 1];
      PureTotals(front);
      assert forall i :: 0 <= i < |front| ==> front[i] == lines[i];
      assert PureDebit(lines[|lines| - 1]) || PureCredit(lines[|lines| - 1]);
    }
  }

  /**
   A journal is accepted if and only if every line is purely a debit or purely a credit, both kinds occur, and the two
   totals agree; the checks for at least two lines and a positive amount follow.
   */
  lemma AcceptedExactlyWhenBalanced(lines: seq<JournalLine>)
    ensures Validate(lines).Ok? <==>
              && AllPure(lines)
              && (exists i :: 0 <= i < |lines| && PureDebit(lines[i]))
              && (exists i :: 0 <= i < |lines| && PureCredit(lines[i]))
              && TotalDebit(lines) == TotalCredit(lines)
  {
    assert forall i :: 0 <= i < |lines| ==> (IsInvalid(lines[i]) <==> !(PureDebit(lines[i]) || PureCredit(lines[i])));
    if AllPure(lines) {
      PureTotals(lines);
      if |lines| < 2 {
        assert !(exists i, j :: 0 <= i < |lines| && 0 <= j < |lines| && PureDebit(lines[i]) && PureCredit(lines[j]));
      }
    }
  }

  function Swapped(lines: seq<JournalLine>): seq<JournalLine> {
    seq(|lines|, i requires 0 <= i < |lines| => JournalLine(lines[i].credit, lines[i].debit))
  }

  lemma {:induction false} SwappingSwapsTotals(lines: seq<JournalLine>)
    ensures TotalDebit(Swapped(lines)) == TotalCredit(lines) && TotalCredit(Swapped(lines)) == TotalDebit(lines)
  {
    if lines != [] {
      assert Swapped(lines)[..|lines| - 1] == Swapped(lines[..|lines| - 1]);
      SwappingSwapsTotals(lines[..|lines| - 1]);
    }
  }

  /** Swapping debits and credits, as a reversal does, keeps a journal acceptable, and swapping back restores it. */
  lemma SwappingPreservesAcceptance(lines: seq<JournalLine>)
    ensures Validate(Swapped(lines)).Ok? <==> Validate(lines).Ok?
    ensures Swapped(Swapped(lines)) == lines
  {
    assert Swapped(Swapped(lines)) == lines;
    SwappingSwapsTotals(lines);
    SwappedLinesAgree(lines, Swapped(lines));
    SwappedLinesAgree(Swapped(lines), lines);
    SwappingSwapsTotals(Swapped(lines));
    AcceptedExactlyWhenBalanced(lines);
    AcceptedExactlyWhenBalanced(Swapped(lines));
  }

  lemma SwappedLinesAgree(lines: seq<JournalLine>, swapped: seq<JournalLine>)
    requires |swapped| == |lines|
    requires forall i :: 0 <= i < |lines| ==> swapped[i] == JournalLine(lines[i].credit, lines[i].debit)
    ensures AllPure(lines) ==> AllPure(swapped)
    ensures (exists i :: 0 <= i < |lines| && PureDebit(lines[i])) ==>
              exists i :: 0 <= i < |swapped| && PureCredit(swapped[i])
    ensures (exists i :: 0 <= i < |lines| && PureCredit(lines[i])) ==>
              exists i :: 0 <= i < |swapped| && PureDebit(swapped[i])
  {
    if i :| 0 <= i < |lines| && PureDebit(lines[i]) {
      assert PureCredit(swapped[i]);
    }
    if i :| 0 <= i < |lines| && PureCredit(lines[i]) {
      assert PureDebit(swapped[i]);
    }
  }

  // ---- the books ----

  /** The lines of all journals, in order; a journal that is refused posts nothing. */
  function Posted(journals: seq<seq<JournalLine>>): seq<JournalLine> {
    if journals == [] then []
    else
      var last := journals[|journals| - 1];
      Posted(journals[..|journals| - 1]) + if Validate(last).Ok? then last else []
  }

  lemma {:induction false} TotalsConcat(a: seq<JournalLine>, b: seq<JournalLine>)
    ensures TotalDebit(a + b) == TotalDebit(a) + TotalDebit(b)
    ensures TotalCredit(a + b) == TotalCredit(a) + TotalCredit(b)
  {
    if b == [] {
      assert a + b == a;
    } else {
      assert (a + b)[..|a + b| - 1] == a + b[..|b| - 1];
      TotalsConcat(a, b[..|b| - 1]);
    }
  }

  /** Conservation: whatever journals are submitted, the books balance. */
  lemma {:induction false} BooksBalance(journals: seq<seq<JournalLine>>)
    ensures TotalDebit(Posted(journals)) == TotalCredit(Posted(journals))
  {
    if journals != [] {
      var last := journals[|journals| - 1];
      BooksBalance(journals[..|journals| - 1]);
      if Validate(last).Ok? {
        TotalsConcat(Posted(journals[..|journals| - 1]), last);
      } else {
        assert Posted(journals) == Posted(journals[..|journals| - 1]);
      }
    }
  }

  /** Which complaint a journal meets: the first that applies, of too few lines, impure lines, no debit, imbalance. */
  lemma ComplaintsAreOrdered(lines: seq<JournalLine>)
    ensures Validate(lines) == Err(TooFewLines) <==> |lines| < 2
    ensures Validate(lines) == Err(InvalidLine) <==> |lines| >= 2 && !AllPure(lines)
    ensures Validate(lines) == Err(AmountNotPositive) <==>
            |lines| >= 2 && AllPure(lines) && forall i :: 0 <= i < |lines| ==> PureCredit(lines[i])
    ensures Validate(lines) == Err(NotBalanced) <==>
            && |lines| >= 2 && AllPure(lines) && (exists i :: 0 <= i < |lines| && PureDebit(lines[i]))
            && TotalDebit(lines) != TotalCredit(lines)
  {
    assert forall i :: 0 <= i < |lines| ==> (IsInvalid(lines[i]) <==> !(PureDebit(lines[i]) || PureCredit(lines[i])));
    if AllPure(lines) {
      PureTotals(lines);
    }
  }
}
