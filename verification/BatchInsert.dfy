/**
 * Fault-tolerant bulk insert by bisection (model/utils.go).
 *
 * The table is any deterministic row-by-row insert, `Insert`; a multi-row `Create` is one
 * transaction that succeeds exactly when inserting its rows in order would. Bisecting a failing
 * chunk then leaves the table that inserting row by row and skipping failures would leave, with
 * a number of `Create` calls bounded by the rows skipped, not by the rows given.
 */
module BatchInsert {
  import opened Basics

  datatype Result<+S, +E> = Ok(table: S) | Err(error: E)

  type Insert<!S, !Row, E> = (S, Row) -> Result<S, E>

  const BATCH_SIZE: nat := 200

  // ----- Reference: one row at a time

  /** All rows in order, or the first error and no change. */
  function InsertAll<S, Row, E>(insert: Insert<S, Row, E>, table: S, rows: seq<Row>): Result<S, E> {
    if rows == [] then Ok(table)
    else match insert(table, rows[0])
      case Ok(next) => InsertAll(insert, next, rows[1..])
      case Err(e) => Err(e)
  }

  /** Rows left to right, skipping those that fail. */
  function InsertEach<S, Row, E>(insert: Insert<S, Row, E>, table: S, rows: seq<Row>): S {
    if rows == [] then table
    else match insert(table, rows[0])
      case Ok(next) => InsertEach(insert, next, rows[1..])
      case Err(_) => InsertEach(insert, table, rows[1..])
  }

  /** The rows `InsertEach` skips: how many, and the error of the first. */
  function Skipped<S, Row, E>(insert: Insert<S, Row, E>, table: S, rows: seq<Row>): nat {
    if rows == [] then 0
    else match insert(table, rows[0])
      case Ok(next) => Skipped(insert, next, rows[1..])
      case Err(_) => 1 + Skipped(insert, table, rows[1..])
  }

  function FirstError<S, Row, E>(insert: Insert<S, Row, E>, table: S, rows: seq<Row>): Option<E> {
    if rows == [] then None
    else match insert(table, rows[0])
      case Ok(next) => FirstError(insert, next, rows[1..])
      case Err(e) => Some(e)
  }

  /** ⌈log2 n⌉ for positive n: how often a chunk of n rows can be halved. */
  function Halvings(n: nat): nat {
    if n <= 1 then 0 else 1 + Halvings((n + 1) / 2)
  }

  lemma {:induction false} HalvingsIsCeilingOfLog2(n: nat, k: nat)
    requires n >= 1
    ensures n <= Pow2(k) <==> Halvings(n) <= k
  {
    if n > 1 && k > 0 {
      HalvingsIsCeilingOfLog2((n + 1) / 2, k - 1);
    }
  }

  function Pow2(k: nat): (p: nat)
    ensures p >= 1
  {
    if k == 0 then 1 else 2 * Pow2(k - 1)
  }

  // ----- The code

  class Db<!S, !Row, !E> {
    var table: S
    /** How many `Create` statements were issued. */
    var creates: nat
    const insert: Insert<S, Row, E>

    constructor (insert: Insert<S, Row, E>, table: S)
      ensures this.insert == insert && this.table == table && creates == 0
    {
      this.insert := insert;
      this.table := table;
      creates := 0;
    }

    /** One transaction. */
    method Create(rows: seq<Row>) returns (err: Option<E>)
      modifies this
      ensures creates == old(creates) + 1
      ensures match InsertAll(insert, old(table), rows)
        case Ok(t) => err == None && table == t
        case Err(e) => err == Some(e) && table == old(table)
    {
      creates := creates + 1;
      match InsertAll(insert, table, rows) {
        case Ok(t) => table := t; err := None;
        case Err(e) => err := Some(e);
      }
    }

    method BatchInsertWithRetry(data: seq<Row>) returns (err: Option<E>)
      modifies this
      ensures table == InsertEach(insert, old(table), data)
      ensures err == FirstError(insert, old(table), data)
      ensures creates <= old(creates) + 1 + 2 * Splits(|data|, Skipped(insert, old(table), data))
      decreases |data|
    {
      if |data| == 0 {
        return None;
      }
      CreateAgrees(insert, table, data);
      err := Create(data);
      if err == None {
        return;
      }
      if |data| == 1 {
        return;
      }
      var mid := |data| / 2;
      assert data == data[..mid] + data[mid..];
      AppendSplits(insert, table, data[..mid], data[mid..]);
      SplitsBound(|data|, Skipped(insert, table, data[..mid]),
                  Skipped(insert, InsertEach(insert, table, data[..mid]), data[mid..]));
      var err1 := BatchInsertWithRetry(data[..mid]);
      var err2 := BatchInsertWithRetry(data[mid..]);
      err := if err1 != None then err1 else err2;
    }

    /** Chunks of 200; errors are logged, never returned. */
    method BatchInsert(data: seq<Row>)
      modifies this
      ensures table == InsertEach(insert, old(table), data)
      ensures creates <= old(creates) + Chunks(|data|) + 16 * Skipped(insert, old(table), data)
    {
      var i := 0;
      while i < |data|
        invariant i <= |data|
        invariant Chunks(i) * BATCH_SIZE == i || i == |data|
        invariant table == InsertEach(insert, old(table), data[..i])
        invariant creates <= old(creates) + Chunks(i) + 16 * Skipped(insert, old(table), data[..i])
      {
        var end := if i + BATCH_SIZE > |data| then |data| else i + BATCH_SIZE;
        assert data[..end] == data[..i] + data[i..end];
        AppendSplits(insert, old(table), data[..i], data[i..end]);
        ChunksStep(i, end);
        ChunkBound(end - i, Skipped(insert, table, data[i..end]));
        var _ := BatchInsertWithRetry(data[i..end]);
        i := end;
      }
      assert data[..i] == data;
    }
  }

  /** ⌈n / 200⌉ */
  function Chunks(n: nat): nat {
    (n + BATCH_SIZE - 1) / BATCH_SIZE
  }

  /** Failing chunks of two or more rows among n rows with b skipped: at most b per halving. */
  function Splits(n: nat, b: nat): nat {
    b * Halvings(n)
  }

  // ----- Lemmas

  lemma {:induction false} CreateAgrees<S, Row, E>(insert: Insert<S, Row, E>, table: S, rows: seq<Row>)
    ensures match InsertAll(insert, table, rows)
      case Ok(t) => InsertEach(insert, table, rows) == t && Skipped(insert, table, rows) == 0
                    && FirstError(insert, table, rows) == None
      case Err(e) => Skipped(insert, table, rows) > 0 && FirstError(insert, table, rows) == Some(e)
    decreases rows
  {
    if rows != [] {
      match insert(table, rows[0]) {
        case Ok(next) => CreateAgrees(insert, next, rows[1..]);
        case Err(_) =>
      }
    }
  }

  lemma {:induction false} AppendSplits<S, Row, E>(insert: Insert<S, Row, E>, table: S, a: seq<Row>, b: seq<Row>)
    ensures var mid := InsertEach(insert, table, a);
      && InsertEach(insert, table, a + b) == InsertEach(insert, mid, b)
      && Skipped(insert, table, a + b) == Skipped(insert, table, a) + Skipped(insert, mid, b)
      && FirstError(insert, table, a + b)
         == (if FirstError(insert, table, a) != None then FirstError(insert, table, a) else FirstError(insert, mid, b))
    decreases a
  {
    if a == [] {
      assert a + b == b;
    } else {
      TailOfConcat(a, b);
      var next := match insert(table, a[0]) case Ok(t) => t case Err(_) => table;
      AppendSplits(insert, next, a[1..], b);
    }
  }

  lemma {:induction false} HalvingsMonotone(m: nat, n: nat)
    requires m <= n
    ensures Halvings(m) <= Halvings(n)
    decreases n
  {
    if m > 1 {
      HalvingsMonotone((m + 1) / 2, (n + 1) / 2);
    }
  }

  /** A failing chunk is one split plus the splits of its halves. */
  lemma SplitsBound(n: nat, left: nat, right: nat)
    requires n >= 2 && left + right >= 1
    ensures 1 + Splits(n / 2, left) + Splits(n - n / 2, right) <= Splits(n, left + right)
  {
    var h := Halvings((n + 1) / 2);
    HalvingsMonotone(n / 2, (n + 1) / 2);
    assert left * Halvings(n / 2) <= left * h;
    assert Splits(n, left + right) == (left + right) * (1 + h) == left * h + right * h + left + right;
  }

  lemma ChunksStep(i: nat, end: nat)
    requires Chunks(i) * BATCH_SIZE == i < end <= i + BATCH_SIZE
    ensures Chunks(end) == Chunks(i) + 1
    ensures end == i + BATCH_SIZE ==> Chunks(end) * BATCH_SIZE == end
  {
  }

  lemma ChunkBound(n: nat, b: nat)
    requires n <= BATCH_SIZE
    ensures 2 * Splits(n, b) <= 16 * b
  {
    ChunkHalvings(n);
    hide Halvings, Pow2;
    AtMostTimes(b, Halvings(n), 8);
  }

  lemma ChunkHalvings(n: nat)
    requires n <= BATCH_SIZE
    ensures Halvings(n) <= 8
  {
    HalvingsIsCeilingOfLog2(if n == 0 then 1 else n, 8);
    assert Pow2(8) == 2 * Pow2(7) == 4 * Pow2(6) == 8 * Pow2(5) == 256;
  }

  lemma AtMostTimes(b: nat, m: nat, n: nat)
    requires m <= n
    ensures b * m <= b * n
  {
  }
}
