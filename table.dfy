/** The positional tab-table splitter of the `quantum` routine
    (support/parse_data.py:101-127). Rows arrive as lists of text fields
    (what `csv.reader(..., delimiter="\t")` yields); the first n//2 rows fill
    the training arrays and the following rows the testing arrays. Field 1
    is the label, fields 2 .. len-2 are the features, and field 0 and the
    last field are dropped. */
module Table {
  import opened Descriptor

  /** The fields of one row. */
  type Row = seq<string>

  /** The four arrays the loop fills, as rows. */
  datatype Tables = Tables(xTr: seq<seq<Elem>>, yTr: seq<seq<Elem>>, xTe: seq<seq<Elem>>, yTe: seq<seq<Elem>>)

  /** The loop variables and the arrays after some rows. */
  datatype State = State(idx: nat, switcher: bool, t: Tables)

  /** `line[2:-1]`: empty for a row of two fields. */
  function Features(row: Row): (f: seq<string>)
    requires |row| >= 2
    ensures |f| == |row| - 3 || (|row| == 2 && f == [])
  {
    if |row| >= 3 then row[2 .. |row| - 1] else []
  }

  /** numpy accepts `X[idx, :] = np.array(f)` for d features, and also for
      a single one, which it broadcasts across the whole row. */
  predicate Fits(f: seq<string>, d: nat)
  {
    |f| == d || |f| == 1
  }

  /** A row the loop stores without raising. */
  predicate WellFormed(row: Row, d: nat)
  {
    |row| >= 2 && Fits(Features(row), d)
  }

  /** The feature row stored for a row: element j is the value of feature j,
      or of the single feature when it is broadcast. */
  function FeatureRow(row: Row, d: nat): (x: seq<Elem>)
    requires WellFormed(row, d)
    ensures |x| == d
  {
    var f := Features(row);
    seq(d, j requires 0 <= j < d => FromText(if |f| == d then f[j] else f[0]))
  }

  /** The label row stored for a row: `np.uint8(line[1])`. */
  function LabelRow(row: Row): seq<Elem>
    requires |row| >= 2
  {
    [FromText(row[1])]
  }

  /** n rows of m copies of one element. */
  function Filled(n: nat, m: nat, e: Elem): seq<seq<Elem>>
  {
    seq(n, i => seq(m, j => e))
  }

  /** `np.zeros((half, d), dtype=np.float64)`. */
  function ZeroFeatures(half: nat, d: nat): seq<seq<Elem>>
  {
    Filled(half, d, F64(0.0))
  }

  /** `np.zeros((half, 1), dtype=np.uint8)`. */
  function ZeroLabels(half: nat): seq<seq<Elem>>
  {
    Filled(half, 1, U8(0))
  }

  function Init(half: nat, d: nat): State
  {
    State(0, true, Tables(ZeroFeatures(half, d), ZeroLabels(half), ZeroFeatures(half, d), ZeroLabels(half)))
  }

  /** The arrays have their allocated sizes. */
  predicate Sized(t: Tables, half: nat, d: nat)
  {
    && |t.xTr| == half && |t.yTr| == half && |t.xTe| == half && |t.yTe| == half
    && (forall i :: 0 <= i < half ==> |t.xTr[i]| == d && |t.xTe[i]| == d)
    && (forall i :: 0 <= i < half ==> |t.yTr[i]| == 1 && |t.yTe[i]| == 1)
  }

  /** `idx` indexes the arrays of the current half. */
  predicate InRange(st: State)
  {
    if st.switcher then st.idx < |st.t.xTr| && st.idx < |st.t.yTr|
    else st.idx < |st.t.xTe| && st.idx < |st.t.yTe|
  }

  /** One pass of the loop body: store the row at idx of the current half,
      then advance idx and switch to the test half when idx reaches n//2. */
  function Step(st: State, row: Row, half: nat, d: nat): (r: Result<State>)
    ensures r.Ok? <==> |row| >= 2 && InRange(st) && Fits(Features(row), d)
    ensures r.Err? ==> r.error == if |row| < 2 || !InRange(st) then IndexError else BroadcastError
    ensures r.Ok? ==> if st.switcher then r.value.t.xTe == st.t.xTe && r.value.t.yTe == st.t.yTe
                      else r.value.t.xTr == st.t.xTr && r.value.t.yTr == st.t.yTr
    ensures r.Ok? && Sized(st.t, half, d) ==> Sized(r.value.t, half, d)
  {
    if |row| < 2 || !InRange(st) then
      Err(IndexError)
    else if !Fits(Features(row), d) then
      Err(BroadcastError)
    else
      var x := FeatureRow(row, d);
      var y := LabelRow(row);
      var t := if st.switcher
               then st.t.(yTr := st.t.yTr[st.idx := y], xTr := st.t.xTr[st.idx := x])
               else st.t.(yTe := st.t.yTe[st.idx := y], xTe := st.t.xTe[st.idx := x]);
      var idx := st.idx + 1;
      if idx == half then Ok(State(0, false, t)) else Ok(State(idx, st.switcher, t))
  }

  /** The loop over all rows: the first exception ends it. */
  function Run(rows: seq<Row>, half: nat, d: nat): (r: Result<State>)
    ensures r.Ok? ==> Sized(r.value.t, half, d)
  {
    if rows == [] then Ok(Init(half, d))
    else match Run(rows[..|rows| - 1], half, d)
      case Err(e) => Err(e)
      case Ok(st) => Step(st, rows[|rows| - 1], half, d)
  }

  /** Feature arrays hold only float64 values and label arrays only uint8
      values (a parsed text field counts as either). */
  predicate Typed(t: Tables)
  {
    && (forall i, e :: 0 <= i < |t.xTr| && e in t.xTr[i] ==> Holds(Float64, e))
    && (forall i, e :: 0 <= i < |t.xTe| && e in t.xTe[i] ==> Holds(Float64, e))
    && (forall i, e :: 0 <= i < |t.yTr| && e in t.yTr[i] ==> Holds(UInt8, e))
    && (forall i, e :: 0 <= i < |t.yTe| && e in t.yTe[i] ==> Holds(UInt8, e))
  }

  /** Every run that does not raise leaves arrays of their declared dtypes. */
  lemma {:induction false} RunTyped(rows: seq<Row>, half: nat, d: nat)
    requires Run(rows, half, d).Ok?
    ensures Typed(Run(rows, half, d).value.t)
  {
    if rows != [] {
      var init := rows[..|rows| - 1];
      assert Run(init, half, d).Ok?;
      RunTyped(init, half, d);
      StepTyped(Run(init, half, d).value, rows[|rows| - 1], half, d);
    }
    else {
      var t := Init(half, d).t;
      assert forall i :: 0 <= i < half ==> t.xTr[i] == t.xTe[i] == seq(d, j => F64(0.0));
      assert forall i :: 0 <= i < half ==> t.yTr[i] == t.yTe[i] == seq(1, j => U8(0));
    }
  }

  /** Storing one row keeps every array of its dtype: a stored field is text. */
  lemma StepTyped(st: State, row: Row, half: nat, d: nat)
    requires Typed(st.t) && Step(st, row, half, d).Ok?
    ensures Typed(Step(st, row, half, d).value.t)
  {
    var x, y := FeatureRow(row, d), LabelRow(row);
    assert forall e :: e in x ==> e.FromText?;
    assert forall e :: e in y ==> e.FromText?;
  }

  /** Once a row raises, the whole run raises that exception. */
  lemma {:induction false} RunErrSticks(rows: seq<Row>, k: nat, half: nat, d: nat)
    requires k <= |rows| && Run(rows[..k], half, d).Err?
    ensures Run(rows, half, d) == Run(rows[..k], half, d)
  {
    if k < |rows| {
      assert rows[..|rows| - 1][..k] == rows[..k];
      RunErrSticks(rows[..|rows| - 1], k, half, d);
    } else {
      assert rows[..k] == rows;
    }
  }

  /** The rows the loop stores and how its variables evolve: after k rows,
      `switcher` is True exactly while k < n//2, and `idx` is k in the
      training half and (k - n//2) mod n//2 afterwards, so `idx` is reset to
      0 each time it reaches n//2 and `switcher` never turns back. */
  lemma {:induction false} RunCounters(rows: seq<Row>, half: nat, d: nat)
    requires half > 0 && Run(rows, half, d).Ok?
    ensures Run(rows, half, d).value.switcher == (|rows| < half)
    ensures Run(rows, half, d).value.idx
            == if |rows| < half then |rows| else (|rows| - half) % half
    ensures Sized(Run(rows, half, d).value.t, half, d)
  {
    if rows != [] {
      var k := |rows| - 1;
      var init := rows[..k];
      assert Run(init, half, d).Ok?;
      RunCounters(init, half, d);
      var st := Run(init, half, d).value;
      StepCounters(st, rows[k], half, d);
      assert Run(rows, half, d) == Step(st, rows[k], half, d);
      CounterStep(k, half, st.idx, st.switcher);
    }
  }

  /** The counters after k rows, advanced by one row, are the counters after
      k + 1 rows. */
  lemma CounterStep(k: nat, half: nat, idx: nat, switcher: bool)
    requires half > 0 && switcher == (k < half)
    requires idx == if k < half then k else (k - half) % half
    ensures (if idx + 1 == half then 0 else idx + 1)
            == if k + 1 < half then k + 1 else (k + 1 - half) % half
    ensures (switcher && idx + 1 != half) == (k + 1 < half)
  {
    if k >= half {
      ModStep(k - half, half);
      assert k + 1 - half == k - half + 1;
    } else if k + 1 == half {
      assert (k + 1 - half) % half == 0;
    }
  }

  /** One stored row advances idx, wrapping it to 0 and clearing switcher
      when it reaches n//2, and keeps the array sizes. */
  lemma StepCounters(st: State, row: Row, half: nat, d: nat)
    requires Sized(st.t, half, d) && Step(st, row, half, d).Ok?
    ensures var st' := Step(st, row, half, d).value;
            && st'.idx == (if st.idx + 1 == half then 0 else st.idx + 1)
            && st'.switcher == (st.switcher && st.idx + 1 != half)
            && Sized(st'.t, half, d)
  {
  }

  /** Whether the loop runs to the end: every row has a label field and a
      feature list numpy can store, and n//2 > 0 whenever there is a row. */
  lemma {:induction false} RunOk(rows: seq<Row>, half: nat, d: nat)
    ensures Run(rows, half, d).Ok?
            <==> (rows == [] || half > 0) && forall r :: 0 <= r < |rows| ==> WellFormed(rows[r], d)
  {
    if rows != [] {
      var k := |rows| - 1;
      var init := rows[..k];
      RunOk(init, half, d);
      assert forall r :: 0 <= r < k ==> init[r] == rows[r];
      if Run(init, half, d).Ok? && half > 0 {
        RunCounters(init, half, d);
      }
    }
  }

  /** Row s, past the training half, goes to test position q. */
  predicate MapsToTest(s: nat, half: nat, q: nat)
    requires half > 0
  {
    s >= half && (s - half) % half == q
  }

  /** The last row before row n that the loop stores at test position q. */
  function LastTestRow(n: nat, half: nat, q: nat): (r: Option<nat>)
    requires half > 0
    ensures r.Some? ==> r.value < n && MapsToTest(r.value, half, q)
    ensures r.Some? ==> forall s :: r.value < s < n ==> !MapsToTest(s, half, q)
    ensures r.None? ==> forall s :: 0 <= s < n ==> !MapsToTest(s, half, q)
  {
    if n == 0 then None
    else if MapsToTest(n - 1, half, q) then Some(n - 1)
    else LastTestRow(n - 1, half, q)
  }

  /** Training position p holds row p if there was one, else zeros. */
  predicate TrainSlot(t: Tables, rows: seq<Row>, half: nat, d: nat, p: nat)
    requires Sized(t, half, d) && p < half
  {
    if p < |rows| then
      WellFormed(rows[p], d) && t.xTr[p] == FeatureRow(rows[p], d) && t.yTr[p] == LabelRow(rows[p])
    else
      t.xTr[p] == seq(d, j => F64(0.0)) && t.yTr[p] == [U8(0)]
  }

  /** Test position q holds the last row mapped to it, else zeros. */
  predicate TestSlot(t: Tables, rows: seq<Row>, half: nat, d: nat, q: nat)
    requires Sized(t, half, d) && q < half
  {
    match LastTestRow(|rows|, half, q)
    case Some(r) =>
      WellFormed(rows[r], d) && t.xTe[q] == FeatureRow(rows[r], d) && t.yTe[q] == LabelRow(rows[r])
    case None =>
      t.xTe[q] == seq(d, j => F64(0.0)) && t.yTe[q] == [U8(0)]
  }

  /** Row r < n//2 is training row r, and training rows are never written
      again; a training position no row reached keeps the zeros of
      `np.zeros`. */
  lemma {:induction false} TrainContents(rows: seq<Row>, half: nat, d: nat)
    requires half > 0 && Run(rows, half, d).Ok?
    ensures Sized(Run(rows, half, d).value.t, half, d)
    ensures forall p :: 0 <= p < half ==> TrainSlot(Run(rows, half, d).value.t, rows, half, d, p)
  {
    RunCounters(rows, half, d);
    if rows != [] {
      var k := |rows| - 1;
      var init := rows[..k];
      var st := Run(init, half, d).value;
      var t := Run(rows, half, d).value.t;
      RunCounters(init, half, d);
      TrainContents(init, half, d);
      assert Run(rows, half, d) == Step(st, rows[k], half, d);
      forall p | 0 <= p < half
        ensures TrainSlot(t, rows, half, d, p)
      {
        TrainSlotStep(st, init, rows, half, d, p);
      }
    }
  }

  /** One more row keeps training position p as TrainSlot describes it. */
  lemma TrainSlotStep(st: State, init: seq<Row>, rows: seq<Row>, half: nat, d: nat, p: nat)
    requires half > 0 && p < half && |rows| == |init| + 1 && init == rows[..|init|]
    requires Sized(st.t, half, d) && TrainSlot(st.t, init, half, d, p)
    requires st.switcher == (|init| < half) && (st.switcher ==> st.idx == |init|)
    requires Step(st, rows[|init|], half, d).Ok?
    ensures Sized(Step(st, rows[|init|], half, d).value.t, half, d)
    ensures TrainSlot(Step(st, rows[|init|], half, d).value.t, rows, half, d, p)
  {
    StepCounters(st, rows[|init|], half, d);
    if p < |init| {
      assert init[p] == rows[p];
    }
  }

  /** One more row keeps test position q as TestSlot describes it: the row
      lands there exactly when it is the last row mapped to q. */
  lemma TestSlotStep(st: State, init: seq<Row>, rows: seq<Row>, half: nat, d: nat, q: nat)
    requires half > 0 && q < half && |rows| == |init| + 1 && init == rows[..|init|]
    requires Sized(st.t, half, d) && TestSlot(st.t, init, half, d, q)
    requires st.switcher == (|init| < half)
    requires !st.switcher ==> st.idx == (|init| - half) % half
    requires Step(st, rows[|init|], half, d).Ok?
    ensures Sized(Step(st, rows[|init|], half, d).value.t, half, d)
    ensures TestSlot(Step(st, rows[|init|], half, d).value.t, rows, half, d, q)
  {
    StepCounters(st, rows[|init|], half, d);
    var k := |init|;
    var last := LastTestRow(k, half, q);
    if last.Some? {
      assert init[last.value] == rows[last.value];
    }
    if MapsToTest(k, half, q) {
      assert LastTestRow(k + 1, half, q) == Some(k);
    } else {
      assert LastTestRow(k + 1, half, q) == last;
    }
  }

  /** Rows from n//2 on go to test position (r - n//2) mod n//2, and a later
      row overwrites an earlier one; a test position no row reached keeps
      the zeros of `np.zeros`. */
  lemma {:induction false} TestContents(rows: seq<Row>, half: nat, d: nat)
    requires half > 0 && Run(rows, half, d).Ok?
    ensures Sized(Run(rows, half, d).value.t, half, d)
    ensures forall q :: 0 <= q < half ==> TestSlot(Run(rows, half, d).value.t, rows, half, d, q)
  {
    RunCounters(rows, half, d);
    if rows != [] {
      var k := |rows| - 1;
      var init := rows[..k];
      var st := Run(init, half, d).value;
      var t := Run(rows, half, d).value.t;
      RunCounters(init, half, d);
      TestContents(init, half, d);
      assert Run(rows, half, d) == Step(st, rows[k], half, d);
      forall q | 0 <= q < half
        ensures TestSlot(t, rows, half, d, q)
      {
        TestSlotStep(st, init, rows, half, d, q);
      }
    }
  }

  /** Row r < n//2 is training row r, with its label and features, and the
      training positions past the last row keep their zeros. */
  lemma TrainInOrder(rows: seq<Row>, half: nat, d: nat)
    requires half > 0 && Run(rows, half, d).Ok?
    ensures forall r :: 0 <= r < |rows| ==> WellFormed(rows[r], d)
    ensures Sized(Run(rows, half, d).value.t, half, d)
    ensures forall r :: 0 <= r < |rows| && r < half ==>
              Run(rows, half, d).value.t.xTr[r] == FeatureRow(rows[r], d)
              && Run(rows, half, d).value.t.yTr[r] == LabelRow(rows[r])
    ensures forall p :: |rows| <= p < half ==>
              Run(rows, half, d).value.t.xTr[p] == seq(d, j => F64(0.0))
              && Run(rows, half, d).value.t.yTr[p] == [U8(0)]
  {
    var t := Run(rows, half, d).value.t;
    RunOk(rows, half, d);
    TrainContents(rows, half, d);
    forall r | 0 <= r < |rows| && r < half
      ensures t.xTr[r] == FeatureRow(rows[r], d) && t.yTr[r] == LabelRow(rows[r])
    {
      assert TrainSlot(t, rows, half, d, r);
    }
    forall p | |rows| <= p < half
      ensures t.xTr[p] == seq(d, j => F64(0.0)) && t.yTr[p] == [U8(0)]
    {
      assert TrainSlot(t, rows, half, d, p);
    }
  }

  /** With at most n rows nothing is overwritten: row n//2 <= r < n is test
      row r - n//2, in order, and the test positions past the last row keep
      their zeros. */
  lemma TestInOrder(rows: seq<Row>, half: nat, d: nat)
    requires half > 0 && Run(rows, half, d).Ok? && |rows| <= 2 * half
    ensures forall r :: 0 <= r < |rows| ==> WellFormed(rows[r], d)
    ensures Sized(Run(rows, half, d).value.t, half, d)
    ensures forall r :: half <= r < |rows| ==>
              Run(rows, half, d).value.t.xTe[r - half] == FeatureRow(rows[r], d)
              && Run(rows, half, d).value.t.yTe[r - half] == LabelRow(rows[r])
    ensures forall q :: 0 <= q < half && |rows| <= half + q ==>
              Run(rows, half, d).value.t.xTe[q] == seq(d, j => F64(0.0))
              && Run(rows, half, d).value.t.yTe[q] == [U8(0)]
  {
    var t := Run(rows, half, d).value.t;
    RunOk(rows, half, d);
    TestContents(rows, half, d);
    forall r | half <= r < |rows|
      ensures t.xTe[r - half] == FeatureRow(rows[r], d) && t.yTe[r - half] == LabelRow(rows[r])
    {
      TestSlotWithin(t, rows, half, d, r - half);
    }
    forall q | 0 <= q < half && |rows| <= half + q
      ensures t.xTe[q] == seq(d, j => F64(0.0)) && t.yTe[q] == [U8(0)]
    {
      TestSlotWithin(t, rows, half, d, q);
    }
  }

  /** With at most n rows, test position q holds row n//2 + q if there is
      one, else zeros. */
  lemma TestSlotWithin(t: Tables, rows: seq<Row>, half: nat, d: nat, q: nat)
    requires half > 0 && |rows| <= 2 * half && q < half
    requires Sized(t, half, d) && TestSlot(t, rows, half, d, q)
    ensures half + q < |rows| ==>
              WellFormed(rows[half + q], d)
              && t.xTe[q] == FeatureRow(rows[half + q], d) && t.yTe[q] == LabelRow(rows[half + q])
    ensures |rows| <= half + q ==> t.xTe[q] == seq(d, j => F64(0.0)) && t.yTe[q] == [U8(0)]
  {
    LastTestRowWithin(|rows|, half, q);
  }

  /** With at most n rows, the only row mapped to test position q is row
      n//2 + q. */
  lemma LastTestRowWithin(n: nat, half: nat, q: nat)
    requires half > 0 && q < half && n <= 2 * half
    ensures LastTestRow(n, half, q) == if half + q < n then Some(half + q) else None
  {
    forall s | half <= s < n
      ensures MapsToTest(s, half, q) <==> s == half + q
    {
      ModUnique(s - half, half, 0, s - half);
    }
    if half + q < n {
      assert MapsToTest(half + q, half, q);
    }
  }

  /** The rows of a numpy 2-D array. */
  function Contents(a: array2<Elem>): (s: seq<seq<Elem>>)
    reads a
    ensures |s| == a.Length0
    ensures forall i :: 0 <= i < a.Length0 ==> |s[i]| == a.Length1
  {
    seq(a.Length0, i requires 0 <= i < a.Length0 reads a =>
      seq(a.Length1, j requires 0 <= j < a.Length1 reads a => a[i, j]))
  }

  /** `np.zeros((n, m))` of the given element type. */
  method NewZeros(n: nat, m: nat, zero: Elem) returns (a: array2<Elem>)
    ensures fresh(a) && a.Length0 == n && a.Length1 == m && Contents(a) == Filled(n, m, zero)
  {
    a := new Elem[n, m]((i, j) => zero);
    forall i | 0 <= i < n
      ensures Contents(a)[i] == Filled(n, m, zero)[i]
    {
    }
  }

  /** `y[idx, 0] = np.uint8(line[1])` and `X[idx, :] = np.array(line[2:-1])`
      for a row that has a label and fits. */
  method StoreRow(x: array2<Elem>, y: array2<Elem>, idx: nat, line: Row, d: nat)
    requires x != y && idx < x.Length0 && idx < y.Length0
    requires x.Length1 == d && y.Length1 == 1 && WellFormed(line, d)
    modifies x, y
    ensures Contents(x) == old(Contents(x))[idx := FeatureRow(line, d)]
    ensures Contents(y) == old(Contents(y))[idx := LabelRow(line)]
  {
    ghost var x0, y0 := Contents(x), Contents(y);
    y[idx, 0] := FromText(line[1]);
    var row := FeatureRow(line, d);
    forall j | 0 <= j < d {
      x[idx, j] := row[j];
    }
    forall i | 0 <= i < x.Length0
      ensures Contents(x)[i] == x0[idx := row][i]
    {
    }
    forall i | 0 <= i < y.Length0
      ensures Contents(y)[i] == y0[idx := LabelRow(line)][i]
    {
    }
  }

  /** The loop state held in the four arrays and the two counters. */
  function Snapshot(idx: nat, switcher: bool, xTr: array2<Elem>, yTr: array2<Elem>,
                    xTe: array2<Elem>, yTe: array2<Elem>): State
    reads xTr, yTr, xTe, yTe
  {
    State(idx, switcher, Tables(Contents(xTr), Contents(yTr), Contents(xTe), Contents(yTe)))
  }

  /** One pass of the loop body on the arrays: it does what Step does to the
      snapshot, or raises what Step raises. */
  method StepArrays(xTr: array2<Elem>, yTr: array2<Elem>, xTe: array2<Elem>, yTe: array2<Elem>,
                    idx: nat, switcher: bool, line: Row, half: nat, d: nat)
    returns (r: Result<(nat, bool)>)
    requires xTr != yTr && xTe != yTe && xTr != xTe && xTr != yTe && yTr != xTe && yTr != yTe
    requires xTr.Length0 == half && yTr.Length0 == half && xTe.Length0 == half && yTe.Length0 == half
    requires xTr.Length1 == d && xTe.Length1 == d && yTr.Length1 == 1 && yTe.Length1 == 1
    modifies xTr, yTr, xTe, yTe
    ensures var step := Step(old(Snapshot(idx, switcher, xTr, yTr, xTe, yTe)), line, half, d);
            && (r.Ok? <==> step.Ok?)
            && (r.Err? ==> step.error == r.error)
            && (r.Ok? ==> step.value == Snapshot(r.value.0, r.value.1, xTr, yTr, xTe, yTe))
  {
    if |line| < 2 || idx >= half {
      return Err(IndexError);
    }
    if !Fits(Features(line), d) {
      return Err(BroadcastError);
    }
    if switcher {
      StoreRow(xTr, yTr, idx, line, d);
    } else {
      StoreRow(xTe, yTe, idx, line, d);
    }
    var next := idx + 1;
    if next == half {
      r := Ok((0, false));
    } else {
      r := Ok((next, switcher));
    }
  }

  /** The `quantum` loop itself: four zero-filled arrays of shapes
      (n//2, d), (n//2, 1), (n//2, d), (n//2, 1), then `for line in f_reader`
      driven by `idx` and `switcher`. It returns the arrays it filled, or the
      exception the first bad row raised; TrainContents, TestContents and
      TrainInOrder and TestInOrder say where each row lands. */
  method SplitTable(rows: seq<Row>, half: nat, d: nat) returns (r: Result<Tables>)
    ensures r.Ok? <==> Run(rows, half, d).Ok?
    ensures r.Ok? ==> r.value == Run(rows, half, d).value.t
    ensures r.Err? ==> r.error == Run(rows, half, d).error
  {
    var xTr := NewZeros(half, d, F64(0.0));
    var yTr := NewZeros(half, 1, U8(0));
    var xTe := NewZeros(half, d, F64(0.0));
    var yTe := NewZeros(half, 1, U8(0));
    var idx := 0;
    var switcher := true;
    var k := 0;
    assert rows[..0] == [];
    while k < |rows|
      invariant k <= |rows|
      invariant Run(rows[..k], half, d) == Ok(Snapshot(idx, switcher, xTr, yTr, xTe, yTe))
    {
      assert rows[..k + 1][..k] == rows[..k];
      var step := StepArrays(xTr, yTr, xTe, yTe, idx, switcher, rows[k], half, d);
      if step.Err? {
        RunErrSticks(rows, k + 1, half, d);
        return Err(step.error);
      }
      idx, switcher := step.value.0, step.value.1;
      k := k + 1;
    }
    assert rows[..k] == rows;
    r := Ok(Snapshot(idx, switcher, xTr, yTr, xTe, yTe).t);
  }

  lemma {:induction false} MulAtLeast(m: int, k: int)
    requires m > 0 && k >= 1
    ensures m * k >= m
  {
    if k > 1 {
      MulAtLeast(m, k - 1);
      assert m * k == m * (k - 1) + m;
    }
  }

  /** x = m*q + r with 0 <= r < m determines x % m. */
  lemma ModUnique(x: int, m: int, q: int, r: int)
    requires m > 0 && 0 <= r < m && x == m * q + r
    ensures x % m == r
  {
    var q', r' := x / m, x % m;
    assert m * (q' - q) == r - r';
    if q' - q >= 1 {
      MulAtLeast(m, q' - q);
    } else if q - q' >= 1 {
      MulAtLeast(m, q - q');
    }
  }

  /** Counting modulo m: the successor wraps to 0 after m - 1. */
  lemma ModStep(a: nat, m: nat)
    requires m > 0
    ensures (a + 1) % m == if a % m + 1 == m then 0 else a % m + 1
  {
    var q, r := a / m, a % m;
    if r + 1 == m {
      ModUnique(a + 1, m, q + 1, 0);
    } else {
      ModUnique(a + 1, m, q, r + 1);
    }
  }
}
