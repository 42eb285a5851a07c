/** The arithmetic of the JavaFX matrix multiplication visualizer: two 2 x 2
    grids of text fields are parsed into `int[][]` matrices, every cell of
    the product is scheduled on a timer in row-major order, and each timer
    computes its cell as a dot product in wrapping 32-bit `int` arithmetic
    and stores it into the result matrix in place. */
module MatrixVisualizer {
  import opened Wrappers
  import opened JavaInt

  const MATRIX_SIZE: nat := 2

  /** A MATRIX_SIZE x MATRIX_SIZE grid, as every grid of the visualizer is. */
  predicate IsSquare<T>(m: array2<T>) {
    m.Length0 == MATRIX_SIZE && m.Length1 == MATRIX_SIZE
  }

  /** The value `parseMatrix` stores for the text of one field: the parsed
      `int`, or 0 when `Integer.parseInt` throws. */
  function FieldValue(text: string): (v: int32)
    ensures ParseInt(text).Some? ==> v == ParseInt(text).value
    ensures ParseInt(text).None? ==> v == 0
  {
    ParseInt(text).GetOr(0)
  }

  /** Every entry of `m` is the value of the matching field. */
  ghost predicate ParsedFrom(m: array2<int32>, fields: array2<string>)
    reads m, fields
    requires IsSquare(m) && IsSquare(fields)
  {
    forall i, j :: 0 <= i < MATRIX_SIZE && 0 <= j < MATRIX_SIZE ==> m[i, j] == FieldValue(fields[i, j])
  }

  /** `parseMatrix`: a new MATRIX_SIZE x MATRIX_SIZE `int` matrix filled
      row by row from the fields; it never fails. */
  method ParseMatrix(fields: array2<string>) returns (m: array2<int32>)
    requires IsSquare(fields)
    ensures fresh(m) && IsSquare(m)
    ensures ParsedFrom(m, fields)
  {
    m := new int32[MATRIX_SIZE, MATRIX_SIZE];
    for i := 0 to MATRIX_SIZE
      invariant forall r, c :: 0 <= r < i && 0 <= c < MATRIX_SIZE ==> m[r, c] == FieldValue(fields[r, c])
    {
      for j := 0 to MATRIX_SIZE
        invariant forall r, c :: 0 <= r < i && 0 <= c < MATRIX_SIZE ==> m[r, c] == FieldValue(fields[r, c])
        invariant forall c :: 0 <= c < j ==> m[i, c] == FieldValue(fields[i, c])
      {
        match ParseInt(fields[i, j])
        case Some(v) => m[i, j] := v;
        case None => m[i, j] := 0;
      }
    }
  }

  /** A field holding the text Java prints for an `int` yields that `int`;
      a field holding anything that does not parse yields 0. */
  lemma FieldValueCases(text: string, n: int32)
    ensures FieldValue(Decimal(n)) == n
    ensures ParseInt(text).None? ==> FieldValue(text) == 0
    ensures FieldValue("") == 0
  {
    ParseDecimal(n);
  }

  // ---------------------------------------------------------------------
  // One cell of the product

  /** The exact sum of A[row][k] * B[k][col] over k < n. */
  function CellDot(A: array2<int32>, B: array2<int32>, row: nat, col: nat, n: nat): (r: int)
    reads A, B
    requires IsSquare(A) && IsSquare(B) && row < MATRIX_SIZE && col < MATRIX_SIZE && n <= MATRIX_SIZE
    ensures n == MATRIX_SIZE ==> r == A[row, 0] * B[0, col] + A[row, 1] * B[1, col]
  {
    if n == 0 then 0
    else
      assert n == MATRIX_SIZE ==> CellDot(A, B, row, col, 1) == A[row, 0] * B[0, col];
      CellDot(A, B, row, col, n - 1) + A[row, n - 1] * B[n - 1, col]
  }

  /** Cell (row, col) of A x B as Java's `int` arithmetic yields it: the
      exact dot product modulo 2^32. */
  function ProductCell(A: array2<int32>, B: array2<int32>, row: nat, col: nat): (r: int32)
    reads A, B
    requires IsSquare(A) && IsSquare(B) && row < MATRIX_SIZE && col < MATRIX_SIZE
    ensures (A[row, 0] * B[0, col] + A[row, 1] * B[1, col] - r) % MODULUS == 0
    ensures MIN_VALUE <= A[row, 0] * B[0, col] + A[row, 1] * B[1, col] <= MAX_VALUE ==>
              r == A[row, 0] * B[0, col] + A[row, 1] * B[1, col]
  {
    Wrap(CellDot(A, B, row, col, MATRIX_SIZE))
  }

  /** `animateCellMultiplication`: accumulates the dot product of row `row`
      of A and column `col` of B in an `int`, wrapping on overflow, and
      stores it in C[row][col]; no other cell of C changes. */
  method AnimateCellMultiplication(row: nat, col: nat, A: array2<int32>, B: array2<int32>, C: array2<int32>)
    requires IsSquare(A) && IsSquare(B) && IsSquare(C)
    requires row < MATRIX_SIZE && col < MATRIX_SIZE
    modifies C
    ensures C[row, col] == old(ProductCell(A, B, row, col))
    ensures forall i, j :: 0 <= i < MATRIX_SIZE && 0 <= j < MATRIX_SIZE && (i != row || j != col) ==>
              C[i, j] == old(C[i, j])
  {
    var result: int32 := 0;
    for k := 0 to MATRIX_SIZE
      invariant unchanged(C)
      invariant result == Wrap(CellDot(A, B, row, col, k))
    {
      var term := A[row, k] * B[k, col];
      WrapAddLeft(CellDot(A, B, row, col, k), Wrap(term));
      WrapAddRight(CellDot(A, B, row, col, k), term);
      result := Wrap(result + Wrap(term));
    }
    C[row, col] := result;
  }

  /** With entries below 2^15 in magnitude no `int` overflow happens and the
      cell is the exact dot product. */
  lemma ProductCellExact(A: array2<int32>, B: array2<int32>, row: nat, col: nat)
    requires IsSquare(A) && IsSquare(B) && row < MATRIX_SIZE && col < MATRIX_SIZE
    requires forall i, j :: 0 <= i < MATRIX_SIZE && 0 <= j < MATRIX_SIZE ==>
               -0x8000 < A[i, j] < 0x8000 && -0x8000 < B[i, j] < 0x8000
    ensures ProductCell(A, B, row, col) == A[row, 0] * B[0, col] + A[row, 1] * B[1, col]
  {
  }

  // ---------------------------------------------------------------------
  // The schedule

  /** One `PauseTransition`: after `delayMs` milliseconds it computes cell
      (row, col). */
  datatype Pause = Pause(row: nat, col: nat, delayMs: int)

  /** The pauses `startMultiplication` creates, in creation order. */
  function Schedule(): (s: seq<Pause>)
    ensures |s| == MATRIX_SIZE * MATRIX_SIZE
  {
    seq(MATRIX_SIZE * MATRIX_SIZE, t requires 0 <= t => Pause(t / MATRIX_SIZE, t % MATRIX_SIZE, 500 * t))
  }

  /** Some pause of `pauses` computes cell (i, j). */
  predicate Covers(pauses: seq<Pause>, i: nat, j: nat) {
    exists t :: 0 <= t < |pauses| && pauses[t].row == i && pauses[t].col == j
  }

  /** Cell (i, j) is scheduled at position i * MATRIX_SIZE + j, that is
      row-major, 500 ms after the cell before it. */
  lemma ScheduleRowMajor(i: nat, j: nat)
    requires i < MATRIX_SIZE && j < MATRIX_SIZE
    ensures Schedule()[i * MATRIX_SIZE + j] == Pause(i, j, 500 * (i * MATRIX_SIZE + j))
  {
  }

  /** Every cell is scheduled exactly once, and the delays strictly
      increase, so the timers fire in creation order. */
  lemma ScheduleCoversEachCellOnce()
    ensures forall i, j :: 0 <= i < MATRIX_SIZE && 0 <= j < MATRIX_SIZE ==> Covers(Schedule(), i, j)
    ensures forall s, t :: 0 <= s < t < |Schedule()| ==>
              (Schedule()[s].row, Schedule()[s].col) != (Schedule()[t].row, Schedule()[t].col)
    ensures forall s, t :: 0 <= s < t < |Schedule()| ==> Schedule()[s].delayMs < Schedule()[t].delayMs
    ensures forall t :: 0 <= t < |Schedule()| ==> Schedule()[t].row < MATRIX_SIZE && Schedule()[t].col < MATRIX_SIZE
  {
    forall i, j | 0 <= i < MATRIX_SIZE && 0 <= j < MATRIX_SIZE ensures Covers(Schedule(), i, j) {
      ScheduleRowMajor(i, j);
    }
  }

  /** `startMultiplication`: parses both grids, makes an all-zero C and
      schedules cell (i, j) with delay `500 * delay`, where the counter
      `delay` goes up by one per cell in row-major order. */
  method StartMultiplication(fieldsA: array2<string>, fieldsB: array2<string>)
    returns (A: array2<int32>, B: array2<int32>, C: array2<int32>, pauses: seq<Pause>)
    requires IsSquare(fieldsA) && IsSquare(fieldsB)
    ensures fresh(A) && fresh(B) && fresh(C) && C != A && C != B
    ensures IsSquare(A) && IsSquare(B) && IsSquare(C)
    ensures ParsedFrom(A, fieldsA) && ParsedFrom(B, fieldsB)
    ensures forall i, j :: 0 <= i < MATRIX_SIZE && 0 <= j < MATRIX_SIZE ==> C[i, j] == 0
    ensures pauses == Schedule()
  {
    A := ParseMatrix(fieldsA);
    B := ParseMatrix(fieldsB);
    C := new int32[MATRIX_SIZE, MATRIX_SIZE]((_, _) => 0);
    var delay := 0;
    pauses := [];
    for i := 0 to MATRIX_SIZE
      invariant delay == i * MATRIX_SIZE
      invariant pauses == Schedule()[..delay]
      invariant ParsedFrom(A, fieldsA) && ParsedFrom(B, fieldsB)
      invariant forall r, c :: 0 <= r < MATRIX_SIZE && 0 <= c < MATRIX_SIZE ==> C[r, c] == 0
    {
      for j := 0 to MATRIX_SIZE
        invariant delay == i * MATRIX_SIZE + j
        invariant pauses == Schedule()[..delay]
        invariant ParsedFrom(A, fieldsA) && ParsedFrom(B, fieldsB)
        invariant forall r, c :: 0 <= r < MATRIX_SIZE && 0 <= c < MATRIX_SIZE ==> C[r, c] == 0
      {
        ScheduleRowMajor(i, j);
        pauses := pauses + [Pause(i, j, delay * 500)];
        delay := delay + 1;
      }
    }
  }

  /** The timers firing, in order of their delays (the order they were
      created in): each runs `animateCellMultiplication` for its cell.
      Afterwards every covered cell holds its product and every other cell
      is as it was. */
  method RunSchedule(pauses: seq<Pause>, A: array2<int32>, B: array2<int32>, C: array2<int32>)
    requires IsSquare(A) && IsSquare(B) && IsSquare(C)
    requires C != A && C != B
    requires forall t :: 0 <= t < |pauses| ==> pauses[t].row < MATRIX_SIZE && pauses[t].col < MATRIX_SIZE
    modifies C
    ensures forall i, j :: 0 <= i < MATRIX_SIZE && 0 <= j < MATRIX_SIZE ==>
              C[i, j] == if Covers(pauses, i, j) then ProductCell(A, B, i, j) else old(C[i, j])
  {
    for t := 0 to |pauses|
      invariant forall i, j :: 0 <= i < MATRIX_SIZE && 0 <= j < MATRIX_SIZE ==>
                  C[i, j] == if Covers(pauses[..t], i, j) then ProductCell(A, B, i, j) else old(C[i, j])
    {
      AnimateCellMultiplication(pauses[t].row, pauses[t].col, A, B, C);
      forall i, j | 0 <= i < MATRIX_SIZE && 0 <= j < MATRIX_SIZE
        ensures Covers(pauses[..t + 1], i, j) <==>
                  Covers(pauses[..t], i, j) || (pauses[t].row == i && pauses[t].col == j)
      {
        if Covers(pauses[..t + 1], i, j) {
          var s :| 0 <= s < t + 1 && pauses[..t + 1][s].row == i && pauses[..t + 1][s].col == j;
          if s < t {
            assert pauses[..t][s] == pauses[s];
          }
        }
        if Covers(pauses[..t], i, j) {
          var s :| 0 <= s < t && pauses[..t][s].row == i && pauses[..t][s].col == j;
          assert pauses[..t + 1][s] == pauses[s];
        }
        if pauses[t].row == i && pauses[t].col == j {
          assert pauses[..t + 1][t] == pauses[t];
        }
      }
    }
    assert pauses[..|pauses|] == pauses;
  }

  /** Pressing "Start Multiplication" and letting every scheduled pause
      fire: C ends up as the product A x B of the parsed matrices, in
      Java's `int` arithmetic. */
  method MultiplyWithAnimation(fieldsA: array2<string>, fieldsB: array2<string>)
    returns (A: array2<int32>, B: array2<int32>, C: array2<int32>)
    requires IsSquare(fieldsA) && IsSquare(fieldsB)
    ensures fresh(A) && fresh(B) && fresh(C)
    ensures IsSquare(A) && IsSquare(B) && IsSquare(C)
    ensures ParsedFrom(A, fieldsA) && ParsedFrom(B, fieldsB)
    ensures forall i, j :: 0 <= i < MATRIX_SIZE && 0 <= j < MATRIX_SIZE ==> C[i, j] == ProductCell(A, B, i, j)
  {
    var pauses;
    A, B, C, pauses := StartMultiplication(fieldsA, fieldsB);
    ScheduleCoversEachCellOnce();
    RunSchedule(pauses, A, B, C);
  }
}
