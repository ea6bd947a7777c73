/**
 * The three ways the scrapers walk a result set:
 *  - accumulate: a row that fails to decode is skipped and its error kept,
 *    the rest are still read, and the kept errors go through combineErr;
 *  - abort: the first row that fails to decode ends the scrape with its
 *    error, after the samples of the rows before it were sent;
 *  - first row: only the first row is read, and an empty result is an error.
 * `emit` turns a decoded row into the samples the scraper sends for it.
 */
module RowPolicies {
  import opened Samples
  import opened Errors

  /** What one row sends: its samples when it decoded, nothing when it did not. */
  function RowSamples<T>(r: Row<T>, emit: T -> seq<Sample>): seq<Sample>
  {
    match r
    case Decoded(v) => emit(v)
    case DecodeError(_, _) => []
  }

  /** What one row adds to the kept errors: Scan's error when it did not decode. */
  function RowErrors<T>(r: Row<T>): seq<Error>
  {
    match r
    case Decoded(_) => []
    case DecodeError(m, _) => [Some(m)]
  }

  /** The samples of the decoded rows, in row order; rows that failed to decode send nothing. */
  function EmitDecoded<T>(rows: seq<Row<T>>, emit: T -> seq<Sample>): seq<Sample>
  {
    if rows == [] then [] else EmitDecoded(rows[..|rows| - 1], emit) + RowSamples(rows[|rows| - 1], emit)
  }

  /** The errors of the rows that failed to decode, in row order. */
  function DecodeErrors<T>(rows: seq<Row<T>>): seq<Error>
  {
    if rows == [] then [] else DecodeErrors(rows[..|rows| - 1]) + RowErrors(rows[|rows| - 1])
  }

  /** The number of rows that decoded. */
  function DecodedCount<T>(rows: seq<Row<T>>): nat
  {
    if rows == [] then 0
    else DecodedCount(rows[..|rows| - 1]) + if rows[|rows| - 1].Decoded? then 1 else 0
  }

  /** The accumulate policy on a whole query: a failed query sends nothing and returns its error. */
  function Accumulate<T>(q: QueryResult<T>, emit: T -> seq<Sample>): ScrapeResult
  {
    match q
    case QueryError(m) => ScrapeResult([], Some(m))
    case Rows(rs) => ScrapeResult(EmitDecoded(rs, emit), Combined(DecodeErrors(rs)))
  }

  /** The row loop of the accumulate policy: samples sent, errors kept and rows counted. */
  method ScanAll<T>(rows: seq<Row<T>>, emit: T -> seq<Sample>) returns (out: seq<Sample>, errs: seq<Error>, decoded: nat)
    ensures out == EmitDecoded(rows, emit)
    ensures errs == DecodeErrors(rows)
    ensures decoded == DecodedCount(rows)
  {
    out, errs, decoded := [], [], 0;
    for i := 0 to |rows|
      invariant out == EmitDecoded(rows[..i], emit)
      invariant errs == DecodeErrors(rows[..i])
      invariant decoded == DecodedCount(rows[..i])
    {
      assert rows[..i + 1][..i] == rows[..i];
      match rows[i] {
        case DecodeError(m, _) =>
          errs := errs + [Some(m)];
        case Decoded(v) =>
          out := out + emit(v);
          decoded := decoded + 1;
      }
    }
    assert rows[..|rows|] == rows;
  }

  lemma {:induction false} EmitDecodedAppend<T>(a: seq<Row<T>>, b: seq<Row<T>>, emit: T -> seq<Sample>)
    ensures EmitDecoded(a + b, emit) == EmitDecoded(a, emit) + EmitDecoded(b, emit)
  {
    if b == [] {
      assert a + b == a;
    } else {
      assert (a + b)[..|a + b| - 1] == a + b[..|b| - 1];
      EmitDecodedAppend(a, b[..|b| - 1], emit);
    }
  }

  lemma {:induction false} DecodeErrorsAppend<T>(a: seq<Row<T>>, b: seq<Row<T>>)
    ensures DecodeErrors(a + b) == DecodeErrors(a) + DecodeErrors(b)
  {
    if b == [] {
      assert a + b == a;
    } else {
      assert (a + b)[..|a + b| - 1] == a + b[..|b| - 1];
      DecodeErrorsAppend(a, b[..|b| - 1]);
    }
  }

  /** A row that fails to decode is skipped: it sends nothing, and the rows after it are still read. */
  lemma FailedRowSendsNothing<T>(a: seq<Row<T>>, m: string, p: T, b: seq<Row<T>>, emit: T -> seq<Sample>)
    ensures EmitDecoded(a + [DecodeError(m, p)] + b, emit) == EmitDecoded(a + b, emit)
    ensures DecodeErrors(a + [DecodeError(m, p)] + b) == DecodeErrors(a) + [Some(m)] + DecodeErrors(b)
  {
    var f: seq<Row<T>> := [DecodeError(m, p)];
    assert f[..0] == [];
    assert EmitDecoded(f, emit) == [];
    assert DecodeErrors(f) == [Some(m)];
    EmitDecodedAppend(a + f, b, emit);
    EmitDecodedAppend(a, f, emit);
    EmitDecodedAppend(a, b, emit);
    DecodeErrorsAppend(a + f, b);
    DecodeErrorsAppend(a, f);
  }

  /** Every decoded row and every failed row is accounted for exactly once. */
  lemma {:induction false} RowsAccounted<T>(rows: seq<Row<T>>)
    ensures DecodedCount(rows) + |DecodeErrors(rows)| == |rows|
  {
    if rows != [] {
      RowsAccounted(rows[..|rows| - 1]);
    }
  }

  /** When every row's samples number n, the rows send n samples per decoded row. */
  lemma {:induction false} EmitDecodedLength<T>(rows: seq<Row<T>>, emit: T -> seq<Sample>, n: nat)
    requires forall v :: |emit(v)| == n
    ensures |EmitDecoded(rows, emit)| == n * DecodedCount(rows)
  {
    if rows != [] {
      EmitDecodedLength(rows[..|rows| - 1], emit, n);
    }
  }

  /** Rows whose samples carry the right number of label values give a stream that does too. */
  lemma {:induction false} EmitDecodedWellFormed<T>(rows: seq<Row<T>>, emit: T -> seq<Sample>)
    requires forall v :: AllWellFormed(emit(v))
    ensures AllWellFormed(EmitDecoded(rows, emit))
  {
    if rows != [] {
      EmitDecodedWellFormed(rows[..|rows| - 1], emit);
      assert AllWellFormed(RowSamples(rows[|rows| - 1], emit));
    }
  }

  /** The k-th sample of the stream was sent by a row that decoded: this returns that row's index. */
  lemma {:induction false} EmitDecodedSource<T>(rows: seq<Row<T>>, emit: T -> seq<Sample>, k: nat) returns (i: nat)
    requires k < |EmitDecoded(rows, emit)|
    ensures i < |rows| && rows[i].Decoded?
    ensures EmitDecoded(rows, emit)[k] in emit(rows[i].value)
  {
    var init := rows[..|rows| - 1];
    var last := rows[|rows| - 1];
    assert EmitDecoded(rows, emit) == EmitDecoded(init, emit) + RowSamples(last, emit);
    if k < |EmitDecoded(init, emit)| {
      i := EmitDecodedSource(init, emit, k);
      assert rows[i] == init[i];
    } else {
      i := |rows| - 1;
      assert EmitDecoded(rows, emit)[k] == RowSamples(last, emit)[k - |EmitDecoded(init, emit)|];
    }
  }

  /** With no row failing to decode, nothing is kept for combineErr. */
  lemma {:induction false} AllDecodedNoErrors<T>(rows: seq<Row<T>>)
    requires forall i :: 0 <= i < |rows| ==> rows[i].Decoded?
    ensures DecodeErrors(rows) == [] && DecodedCount(rows) == |rows|
  {
    if rows != [] {
      AllDecodedNoErrors(rows[..|rows| - 1]);
    }
  }

  /** The accumulate policy returns nil when every row decodes, and an error when a row fails with a message. */
  lemma AccumulateError<T>(rs: seq<Row<T>>, emit: T -> seq<Sample>)
    ensures (forall i :: 0 <= i < |rs| ==> rs[i].Decoded?) ==> Accumulate(Rows(rs), emit).err == None
    ensures (exists i :: 0 <= i < |rs| && rs[i].DecodeError? && rs[i].msg != "") ==> Accumulate(Rows(rs), emit).err.Some?
  {
    if forall i :: 0 <= i < |rs| ==> rs[i].Decoded? {
      AllDecodedNoErrors(rs);
    }
    if exists i :: 0 <= i < |rs| && rs[i].DecodeError? && rs[i].msg != "" {
      var i :| 0 <= i < |rs| && rs[i].DecodeError? && rs[i].msg != "";
      assert rs == rs[..i] + [rs[i]] + rs[i + 1..];
      FailedRowSendsNothing(rs[..i], rs[i].msg, rs[i].partial, rs[i + 1..], emit);
      var errs := DecodeErrors(rs);
      var k := |DecodeErrors(rs[..i])|;
      assert errs[k] == Some(rs[i].msg);
      CombinedNilIff(errs);
      assert !Silent(errs[k]);
    }
  }

  /** The index of the first row that failed to decode, or the number of rows when all decoded. */
  function FailureIndex<T>(rows: seq<Row<T>>): (k: nat)
    ensures k <= |rows|
    ensures forall i :: 0 <= i < k ==> rows[i].Decoded?
    ensures k < |rows| ==> rows[k].DecodeError?
  {
    if rows == [] || rows[0].DecodeError? then 0 else 1 + FailureIndex(rows[1..])
  }

  /** The abort policy on a result set: the samples of the rows before the first failure, and that failure's error. */
  function AbortOnFailure<T>(rows: seq<Row<T>>, emit: T -> seq<Sample>): ScrapeResult
  {
    var k := FailureIndex(rows);
    ScrapeResult(EmitDecoded(rows[..k], emit), if k < |rows| then Some(rows[k].msg) else None)
  }

  /** The abort policy on a whole query: a failed query sends nothing and returns its error. */
  function Abort<T>(q: QueryResult<T>, emit: T -> seq<Sample>): ScrapeResult
  {
    match q
    case QueryError(m) => ScrapeResult([], Some(m))
    case Rows(rs) => AbortOnFailure(rs, emit)
  }

  /** The row loop of the abort policy: it returns at the first row Scan rejects. */
  method ScanUntilFailure<T>(rows: seq<Row<T>>, emit: T -> seq<Sample>) returns (out: seq<Sample>, err: Error)
    ensures ScrapeResult(out, err) == AbortOnFailure(rows, emit)
  {
    out := [];
    var i := 0;
    while i < |rows|
      invariant i <= |rows|
      invariant forall j :: 0 <= j < i ==> rows[j].Decoded?
      invariant out == EmitDecoded(rows[..i], emit)
    {
      assert rows[..i + 1][..i] == rows[..i];
      match rows[i] {
        case DecodeError(m, _) =>
          return out, Some(m);
        case Decoded(v) =>
          out := out + emit(v);
      }
      i := i + 1;
    }
    assert rows[..|rows|] == rows;
    err := None;
  }

  /** When every row decodes, aborting and accumulating send and return the same. */
  lemma AbortAgreesWhenAllDecode<T>(rs: seq<Row<T>>, emit: T -> seq<Sample>)
    requires forall i :: 0 <= i < |rs| ==> rs[i].Decoded?
    ensures Abort(Rows(rs), emit) == Accumulate(Rows(rs), emit)
  {
    AllDecodedNoErrors(rs);
    assert rs[..|rs|] == rs;
  }

  /** What the abort policy sends is always a prefix of what accumulating would have sent. */
  lemma AbortSendsPrefix<T>(rs: seq<Row<T>>, emit: T -> seq<Sample>)
    ensures AbortOnFailure(rs, emit).samples <= EmitDecoded(rs, emit)
  {
    var k := FailureIndex(rs);
    assert rs == rs[..k] + rs[k..];
    EmitDecodedAppend(rs[..k], rs[k..], emit);
  }

  /** The first-row policy: only the first row counts; no rows at all is the `notFound` error. */
  function FirstRowOnly<T>(q: QueryResult<T>, emit: T -> seq<Sample>, notFound: string): ScrapeResult
  {
    match q
    case QueryError(m) => ScrapeResult([], Some(m))
    case Rows(rs) =>
      if rs == [] then ScrapeResult([], Some(notFound))
      else match rs[0]
        case Decoded(v) => ScrapeResult(emit(v), None)
        case DecodeError(m, _) => ScrapeResult([], Some(m))
  }

  /** The row loop of the first-row policy, whose body returns in its first iteration. */
  method ReadFirstRow<T>(q: QueryResult<T>, emit: T -> seq<Sample>, notFound: string) returns (out: seq<Sample>, err: Error)
    ensures ScrapeResult(out, err) == FirstRowOnly(q, emit, notFound)
  {
    if q.QueryError? {
      return [], Some(q.msg);
    }
    var rows := q.rows;
    if rows != [] {
      match rows[0] {
        case DecodeError(m, _) =>
          return [], Some(m);
        case Decoded(v) =>
          return emit(v), None;
      }
    }
    out, err := [], Some(notFound);
  }

  /** The first-row policy sends exactly what the abort policy sends on the first row alone, or a not-found error. */
  lemma FirstRowIsAbortOnHead<T>(rs: seq<Row<T>>, emit: T -> seq<Sample>, notFound: string)
    requires rs != []
    ensures FirstRowOnly(Rows(rs), emit, notFound) == AbortOnFailure(rs[..1], emit)
  {
    var head := rs[..1];
    assert head[..0] == [];
    if rs[0].Decoded? {
      assert head[..1] == head;
      assert head[..|head| - 1] == [];
      assert EmitDecoded(head, emit) == EmitDecoded([], emit) + emit(rs[0].value);
    }
  }

  /** A value read from the first row, with the error that came with it. */
  datatype Lookup<T> = Lookup(value: T, err: Error)

  /**
   * A single-column first-row lookup. A Scan into a single destination that
   * fails leaves it untouched, so a failed row, a failed query and an empty
   * result all give the zero value; only `notFound` depends on the caller.
   */
  function FirstValue<T>(q: QueryResult<T>, zero: T, notFound: Error): (r: Lookup<T>)
    ensures r.err == None && notFound != None ==> q.Rows? && q.rows != [] && q.rows[0].Decoded?
    ensures r.err == None ==> r.value == (if q.Rows? && q.rows != [] then Scanned(q.rows[0]) else zero)
    ensures r.err != None ==> r.value == zero
  {
    match q
    case QueryError(m) => Lookup(zero, Some(m))
    case Rows(rs) =>
      if rs == [] then Lookup(zero, notFound)
      else match rs[0]
        case Decoded(v) => Lookup(v, None)
        case DecodeError(m, _) => Lookup(zero, Some(m))
  }

  /** The row loop of a single-column lookup, whose body returns in its first iteration. */
  method ReadFirstValue<T>(q: QueryResult<T>, zero: T, notFound: Error) returns (value: T, err: Error)
    ensures Lookup(value, err) == FirstValue(q, zero, notFound)
  {
    value := zero;
    if q.QueryError? {
      return value, Some(q.msg);
    }
    var rows := q.rows;
    if rows != [] {
      match rows[0] {
        case DecodeError(m, _) =>
          return value, Some(m);
        case Decoded(v) =>
          return v, None;
      }
    }
    err := notFound;
  }
}
