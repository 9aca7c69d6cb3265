/**
 * Boolean-mask selection over the patent table, and the chain of guarded
 * selections that the search page runs, for any list of column criteria.
 */
module Filters {
  import opened Wrappers
  import opened Text
  import opened Records

  /**
   * How one filter line reads its column. `ignoreCase` is `case=False`;
   * `missingAsNan` is a preceding `.astype(str)`, which renders a missing
   * cell as the text "nan" before `str.contains` sees it.
   */
  datatype Criterion = Criterion(column: Column, ignoreCase: bool, missingAsNan: bool)

  /** One guarded filter line: its criterion and the text typed into its search box. */
  datatype Step = Step(criterion: Criterion, query: string)

  /** The value `str.contains` is applied to: text, or a still-missing cell. */
  function TextSeen(c: Criterion, r: PatentRecord): (seen: Option<string>)
    ensures seen.None? <==> Cell(r, c.column).None? && !c.missingAsNan
    ensures Cell(r, c.column).Some? ==> seen == Cell(r, c.column)
  {
    match Cell(r, c.column)
    case Some(s) => Some(s)
    case None => if c.missingAsNan then Some("nan") else None
  }

  /** The mask value of `str.contains(query, case=..., na=False)` for one row. */
  predicate Matches(c: Criterion, query: string, r: PatentRecord)
    ensures Matches(c, query, r) ==> TextSeen(c, r).Some?
  {
    match TextSeen(c, r)
    case None => false
    case Some(t) => if c.ignoreCase then ContainsIgnoringCase(t, query) else Contains(t, query)
  }

  /** Row `r` survives step `st`; an empty search box skips the step (`if q_...:`). */
  predicate Keeps(st: Step, r: PatentRecord)
  {
    st.query == "" || Matches(st.criterion, st.query, r)
  }

  /** Row `r` survives every step of `steps`. */
  predicate KeepsAll(steps: seq<Step>, r: PatentRecord)
  {
    forall st :: st in steps ==> Keeps(st, r)
  }

  /** `a` is `b` with some rows removed and the rest in their original order. */
  predicate IsSubsequence(a: seq<PatentRecord>, b: seq<PatentRecord>)
    decreases |b|
  {
    a == [] || (b != [] && ((a[0] == b[0] && IsSubsequence(a[1..], b[1..])) || IsSubsequence(a, b[1..])))
  }

  /**
   * `rows[mask]`: the rows that survive every step, kept in order and with
   * their multiplicities.
   */
  function Where(rows: seq<PatentRecord>, steps: seq<Step>): (kept: seq<PatentRecord>)
    ensures |kept| <= |rows|
    ensures forall r :: multiset(kept)[r] == if KeepsAll(steps, r) then multiset(rows)[r] else 0
    ensures forall r :: r in kept <==> r in rows && KeepsAll(steps, r)
  {
    if rows == [] then []
    else
      assert rows == [rows[0]] + rows[1..];
      if KeepsAll(steps, rows[0]) then [rows[0]] + Where(rows[1..], steps)
      else Where(rows[1..], steps)
  }

  /** Selection only removes rows: the rest keep their relative order. */
  lemma {:induction false} WhereIsSubsequence(rows: seq<PatentRecord>, steps: seq<Step>)
    ensures IsSubsequence(Where(rows, steps), rows)
  {
    if rows != [] {
      WhereIsSubsequence(rows[1..], steps);
    }
  }

  /** The chain as the page runs it: each step re-filters the previous step's result. */
  function ApplySteps(rows: seq<PatentRecord>, steps: seq<Step>): (kept: seq<PatentRecord>)
    ensures |kept| <= |rows|
    ensures forall r :: r in kept ==> r in rows
    decreases |steps|
  {
    if steps == [] then rows else ApplySteps(Where(rows, [steps[0]]), steps[1..])
  }

  /** Filtering by `a` and then by `b` is filtering once by both. */
  lemma {:induction false} WhereThenWhere(rows: seq<PatentRecord>, a: seq<Step>, b: seq<Step>)
    ensures Where(Where(rows, a), b) == Where(rows, a + b)
  {
    if rows != [] {
      WhereThenWhere(rows[1..], a, b);
      assert KeepsAll(a + b, rows[0]) <==> KeepsAll(a, rows[0]) && KeepsAll(b, rows[0]);
    }
  }

  /** Two step lists that keep the same rows of the table select the same result. */
  lemma {:induction false} WhereEquivalentSteps(rows: seq<PatentRecord>, a: seq<Step>, b: seq<Step>)
    requires forall r :: r in rows ==> (KeepsAll(a, r) <==> KeepsAll(b, r))
    ensures Where(rows, a) == Where(rows, b)
  {
    if rows != [] {
      WhereEquivalentSteps(rows[1..], a, b);
    }
  }

  /** Only which steps are present matters, not their order or repetition. */
  lemma WhereSameSteps(rows: seq<PatentRecord>, a: seq<Step>, b: seq<Step>)
    requires forall st :: st in a <==> st in b
    ensures Where(rows, a) == Where(rows, b)
  {
    WhereEquivalentSteps(rows, a, b);
  }

  /** A selection every row survives returns the table unchanged. */
  lemma {:induction false} WhereKeepingAll(rows: seq<PatentRecord>, steps: seq<Step>)
    requires forall r :: r in rows ==> KeepsAll(steps, r)
    ensures Where(rows, steps) == rows
  {
    if rows != [] {
      WhereKeepingAll(rows[1..], steps);
    }
  }

  /** The step-by-step chain equals one selection by the conjunction of its steps. */
  lemma {:induction false} ChainIsOneSelection(rows: seq<PatentRecord>, steps: seq<Step>)
    ensures ApplySteps(rows, steps) == Where(rows, steps)
    decreases |steps|
  {
    if steps == [] {
      WhereKeepingAll(rows, steps);
    } else {
      ChainIsOneSelection(Where(rows, [steps[0]]), steps[1..]);
      WhereThenWhere(rows, [steps[0]], steps[1..]);
      assert [steps[0]] + steps[1..] == steps;
    }
  }

  /** Running the same steps in any order, or with repeats, gives the same rows. */
  lemma {:induction false} ChainOrderIndependent(rows: seq<PatentRecord>, a: seq<Step>, b: seq<Step>)
    requires forall st :: st in a <==> st in b
    ensures ApplySteps(rows, a) == ApplySteps(rows, b)
  {
    ChainIsOneSelection(rows, a);
    ChainIsOneSelection(rows, b);
    WhereSameSteps(rows, a, b);
  }

  /** With every search box empty the chain returns the whole table. */
  lemma {:induction false} InactiveChainKeepsAll(rows: seq<PatentRecord>, steps: seq<Step>)
    requires forall st :: st in steps ==> st.query == ""
    ensures ApplySteps(rows, steps) == rows
  {
    ChainIsOneSelection(rows, steps);
    WhereKeepingAll(rows, steps);
  }

  /**
   * An active step whose column is not passed through `.astype(str)` never
   * keeps a row whose cell is missing (`na=False`).
   */
  lemma {:induction false} MissingCellNeverKept(rows: seq<PatentRecord>, steps: seq<Step>, st: Step, r: PatentRecord)
    requires st in steps && st.query != "" && !st.criterion.missingAsNan
    requires Cell(r, st.criterion.column).None?
    ensures r !in ApplySteps(rows, steps)
  {
    ChainIsOneSelection(rows, steps);
  }

  /** Six lines run one after another select once by all six steps. */
  lemma SixLines(rows: seq<PatentRecord>, s0: Step, s1: Step, s2: Step, s3: Step, s4: Step, s5: Step)
    ensures Where(Where(Where(Where(Where(Where(rows, [s0]), [s1]), [s2]), [s3]), [s4]), [s5])
            == Where(rows, [s0] + [s1] + [s2] + [s3] + [s4] + [s5])
  {
    WhereThenWhere(rows, [s0], [s1]);
    WhereThenWhere(rows, [s0] + [s1], [s2]);
    WhereThenWhere(rows, [s0] + [s1] + [s2], [s3]);
    WhereThenWhere(rows, [s0] + [s1] + [s2] + [s3], [s4]);
    WhereThenWhere(rows, [s0] + [s1] + [s2] + [s3] + [s4], [s5]);
  }

  /** A row survives six steps exactly when it survives each of them. */
  lemma KeepsAllOfSix(s0: Step, s1: Step, s2: Step, s3: Step, s4: Step, s5: Step, r: PatentRecord)
    ensures KeepsAll([s0] + [s1] + [s2] + [s3] + [s4] + [s5], r)
            <==> (Keeps(s0, r) && Keeps(s1, r) && Keeps(s2, r) && Keeps(s3, r) && Keeps(s4, r) && Keeps(s5, r))
  {
  }

  /** A row an active step keeps has a cell in its column, unless the column renders a missing cell as "nan". */
  lemma KeptRowHasCell(st: Step, r: PatentRecord)
    requires Keeps(st, r) && st.query != "" && !st.criterion.missingAsNan
    ensures Cell(r, st.criterion.column).Some?
  {
  }

  /** Where the cell is present, rendering a missing cell as "nan" or not makes no difference. */
  lemma PresentCellSameMask(c: Criterion, query: string, r: PatentRecord)
    requires Cell(r, c.column).Some?
    ensures Keeps(Step(c, query), r) <==> Keeps(Step(c.(missingAsNan := false), query), r)
  {
  }

  /**
   * One guarded filter line, `if q: filtered = filtered[mask]`: an empty
   * query leaves the rows as they are, any other applies its mask.
   */
  method FilterLine(filtered: seq<PatentRecord>, st: Step) returns (next: seq<PatentRecord>)
    ensures next == Where(filtered, [st])
  {
    next := filtered;
    if st.query != "" {
      next := Where(filtered, [st]);
    } else {
      WhereKeepingAll(filtered, [st]);
    }
  }
}
