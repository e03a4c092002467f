/**
 * Batching preserves meaning: running a row-wise executor once on the merged batch and splitting
 * the result gives every request what the executor gives it alone.
 */
module BatchMeaning {
  import opened Wrappers
  import opened Tensors
  import opened BatchCompatibility
  import opened DynamicBatcher
  import opened SplitTheorems

  /** One batch row of a request: the bytes of every input, by name. */
  type Row = map<string, seq<Byte>>

  /** What a request asks, batch extent aside: the outputs it names and the kinds of its inputs. */
  datatype Question = Question(outputs: seq<string>, inputs: map<string, InputKind>)

  datatype OutputSpec = OutputSpec(name: string, dtype: DType, tail: seq<int>)

  datatype Refusal = Refusal(code: string, message: string)

  /** A row-wise computation: which questions it refuses, which outputs the others have, and the bytes of output `j` for one row. */
  datatype RowExecutor = RowExecutor(
    refusal: Question -> Option<Refusal>, specs: Question -> seq<OutputSpec>, row: (Question, nat, Row) -> seq<Byte>)

  function SpecWidth(spec: OutputSpec): int {
    Product(spec.tail) * ElementSize(spec.dtype)
  }

  ghost predicate WellBehaved(e: RowExecutor) {
    forall q, j :: 0 <= j < |e.specs(q)| ==>
      && NonNegative(e.specs(q)[j].tail)
      && forall r :: |e.row(q, j, r)| == SpecWidth(e.specs(q)[j])
  }

  function Width(t: Tensor): int
    requires t.shape != []
  {
    Product(t.shape[1..]) * ElementSize(t.dtype)
  }

  /** Distinct inputs sharing one batch extent, each holding exactly the bytes its shape says. */
  predicate WellFormed(r: Request) {
    && r.inputs != [] && DistinctNames(r.inputs) && Shaped(r.inputs)
    && 0 <= BatchSize(r) < HALF
    && forall t :: t in r.inputs ==> HoldsRows(t, BatchSize(r))
  }

  /** The tensor is `n` rows of the bytes its trailing extents and datatype ask for. */
  predicate HoldsRows(t: Tensor, n: int) {
    t.shape != [] && NonNegative(t.shape) && t.shape[0] == n >= 0 && Width(t) >= 0 && |t.bytes| == Span(n, Width(t))
  }

  function QuestionOf(r: Request): Question
    requires WellFormed(r)
  {
    Question(r.outputs, Signature(r.inputs))
  }

  function Input(r: Request, name: string): Tensor
    requires name in Names(r.inputs)
  {
    FindInput(r.inputs, name).value
  }

  /** Bytes of `n` rows of `w` bytes: the product, kept as a sum so that row arithmetic stays linear. */
  function Span(n: nat, w: nat): nat {
    if n == 0 then 0 else Span(n - 1, w) + w
  }

  lemma {:induction false} SpanIsProduct(n: nat, w: nat)
    ensures Span(n, w) == n * w
  {
    if n > 0 {
      SpanIsProduct(n - 1, w);
      assert n * w == (n - 1) * w + w;
    }
  }

  lemma {:induction false} SpanAdds(n: nat, m: nat, w: nat)
    ensures Span(n + m, w) == Span(n, w) + Span(m, w)
    decreases m
  {
    if m > 0 {
      SpanAdds(n, m - 1, w);
    }
  }

  /** Row `i` of `n` rows of `w` bytes. */
  function RowBytes(bytes: seq<Byte>, n: nat, w: nat, i: nat): seq<Byte>
    requires |bytes| == Span(n, w) && i < n
  {
    SpanAdds(i + 1, n - i - 1, w);
    bytes[Span(i, w)..Span(i + 1, w)]
  }

  /** The inputs of a request as named columns of `n` rows, each row `widths[name]` bytes wide. */
  datatype Table = Table(n: nat, widths: map<string, nat>, columns: map<string, seq<Byte>>) {
    predicate Valid() {
      widths.Keys == columns.Keys && forall name :: name in columns ==> |columns[name]| == Span(n, widths[name])
    }
  }

  function RowOf(t: Table, i: nat): Row
    requires t.Valid() && i < t.n
  {
    map name | name in t.columns :: RowBytes(t.columns[name], t.n, t.widths[name], i)
  }

  function RowsOf(t: Table): seq<Row>
    requires t.Valid()
  {
    seq(t.n, i requires 0 <= i < t.n => RowOf(t, i))
  }

  function TableOf(r: Request): (t: Table)
    requires WellFormed(r)
    ensures t.Valid()
  {
    Table(BatchSize(r),
          map name | name in Names(r.inputs) :: Width(Input(r, name)) as nat,
          map name | name in Names(r.inputs) :: Input(r, name).bytes)
  }

  /** Bytes of output `j` over the given rows. */
  function OutputBytes(e: RowExecutor, q: Question, j: nat, rows: seq<Row>): seq<Byte> {
    if rows == [] then []
    else OutputBytes(e, q, j, rows[..|rows| - 1]) + e.row(q, j, rows[|rows| - 1])
  }

  function OutputTensor(e: RowExecutor, q: Question, j: nat, rows: seq<Row>): Tensor
    requires j < |e.specs(q)|
  {
    var spec := e.specs(q)[j];
    Tensor(spec.name, spec.dtype, [|rows|] + spec.tail, OutputBytes(e, q, j, rows), [])
  }

  /** The response of a row-wise executor to a question about some rows. */
  function Answer(e: RowExecutor, q: Question, rows: seq<Row>): Response {
    Response(true, "", "", seq(|e.specs(q)|, j requires 0 <= j < |e.specs(q)| => OutputTensor(e, q, j, rows)))
  }

  /** The answer where the question is not refused. */
  function Computed(e: RowExecutor, r: Request): Response
    requires WellFormed(r)
  {
    Answer(e, QuestionOf(r), RowsOf(TableOf(r)))
  }

  function Infer(e: RowExecutor, r: Request): Response
    requires WellFormed(r)
  {
    match e.refusal(QuestionOf(r))
    case Some(no) => Response(false, no.code, no.message, [])
    case None => Computed(e, r)
  }

  lemma {:induction false} OutputBytesLength(e: RowExecutor, q: Question, j: nat, rows: seq<Row>)
    requires WellBehaved(e) && j < |e.specs(q)|
    ensures SpecWidth(e.specs(q)[j]) >= 0
    ensures |OutputBytes(e, q, j, rows)| == |rows| * SpecWidth(e.specs(q)[j])
    decreases rows
  {
    var w := SpecWidth(e.specs(q)[j]);
    assert |e.row(q, j, map[])| == w;
    if rows != [] {
      OutputBytesLength(e, q, j, rows[..|rows| - 1]);
      assert |rows| * w == (|rows| - 1) * w + w;
    }
  }

  lemma {:induction false} OutputBytesConcat(e: RowExecutor, q: Question, j: nat, lists: seq<seq<Row>>)
    ensures OutputBytes(e, q, j, Concat(lists))
              == Concat(seq(|lists|, k requires 0 <= k < |lists| => OutputBytes(e, q, j, lists[k])))
    decreases lists
  {
    var parts := seq(|lists|, k requires 0 <= k < |lists| => OutputBytes(e, q, j, lists[k]));
    if lists != [] {
      var last := |lists| - 1;
      OutputBytesConcat(e, q, j, lists[..last]);
      assert parts[..last] == seq(last, k requires 0 <= k < last => OutputBytes(e, q, j, lists[..last][k]));
      OutputBytesJoin(e, q, j, Concat(lists[..last]), lists[last]);
    }
  }

  lemma {:induction false} OutputBytesJoin(e: RowExecutor, q: Question, j: nat, a: seq<Row>, b: seq<Row>)
    ensures OutputBytes(e, q, j, a + b) == OutputBytes(e, q, j, a) + OutputBytes(e, q, j, b)
    decreases b
  {
    if b == [] {
      assert a + b == a;
    } else {
      OutputBytesJoin(e, q, j, a, b[..|b| - 1]);
      assert (a + b)[..|a + b| - 1] == a + b[..|b| - 1];
    }
  }

  // ------------------------------------------------ the rows of a merged batch

  /** A list that batches: well-formed requests of one kind, whose batch extents add up to an `int64_t`. */
  predicate Batchable(requests: seq<Request>) {
    && requests != []
    && (forall r :: r in requests ==> WellFormed(r) && SameKind(requests[0], r))
    && Sum(SizesOf(requests)) < HALF
  }

  lemma RowOfFirst(x: seq<Byte>, y: seq<Byte>, w: nat, n: nat, m: nat, i: nat)
    requires |x| == Span(n, w) && |y| == Span(m, w) && |x + y| == Span(n + m, w) && i < n
    ensures RowBytes(x + y, n + m, w, i) == RowBytes(x, n, w, i)
  {
    SpanAdds(i + 1, n - i - 1, w);
  }

  lemma RowOfSecond(x: seq<Byte>, y: seq<Byte>, w: nat, n: nat, m: nat, i: nat)
    requires |x| == Span(n, w) && |y| == Span(m, w) && |x + y| == Span(n + m, w) && i < m
    ensures RowBytes(x + y, n + m, w, n + i) == RowBytes(y, m, w, i)
  {
    SpanAdds(n, i, w);
    SpanAdds(n, i + 1, w);
    SpanAdds(i + 1, m - i - 1, w);
    var from, upto := Span(i, w), Span(i + 1, w);
    assert (x + y)[|x| + from..|x| + upto] == y[from..upto];
  }

  lemma RowOfJoinedBytes(x: seq<Byte>, y: seq<Byte>, w: nat, n: nat, m: nat, i: nat)
    requires |x| == Span(n, w) && |y| == Span(m, w) && i < n + m
    ensures |x + y| == Span(n + m, w)
    ensures RowBytes(x + y, n + m, w, i) == if i < n then RowBytes(x, n, w, i) else RowBytes(y, m, w, i - n)
  {
    SpanAdds(n, m, w);
    if i < n {
      RowOfFirst(x, y, w, n, m, i);
    } else {
      RowOfSecond(x, y, w, n, m, i - n);
    }
  }

  /** The rows of `a` followed by the rows of `b`. */
  function Join(a: Table, b: Table): (c: Table)
    requires a.Valid() && b.Valid() && a.widths == b.widths
    ensures c.Valid()
  {
    forall name | name in a.columns ensures |a.columns[name] + b.columns[name]| == Span(a.n + b.n, a.widths[name]) {
      SpanAdds(a.n, b.n, a.widths[name]);
    }
    Table(a.n + b.n, a.widths, map name | name in a.columns :: a.columns[name] + b.columns[name])
  }

  lemma JoinedRow(a: Table, b: Table, i: nat)
    requires a.Valid() && b.Valid() && a.widths == b.widths && i < a.n + b.n
    ensures RowOf(Join(a, b), i) == if i < a.n then RowOf(a, i) else RowOf(b, i - a.n)
  {
    forall name | name in a.columns
      ensures RowOf(Join(a, b), i)[name] == if i < a.n then RowOf(a, i)[name] else RowOf(b, i - a.n)[name]
    {
      RowOfJoinedBytes(a.columns[name], b.columns[name], a.widths[name], a.n, b.n, i);
    }
  }

  lemma JoinedRows(a: Table, b: Table)
    requires a.Valid() && b.Valid() && a.widths == b.widths
    ensures RowsOf(Join(a, b)) == RowsOf(a) + RowsOf(b)
  {
    forall i | 0 <= i < a.n + b.n ensures RowsOf(Join(a, b))[i] == (RowsOf(a) + RowsOf(b))[i] {
      JoinedRow(a, b, i);
    }
  }

  predicate SameWidths(tables: seq<Table>) {
    tables != [] && forall t :: t in tables ==> t.Valid() && t.widths == tables[0].widths
  }

  function JoinAll(tables: seq<Table>): (c: Table)
    requires SameWidths(tables)
    ensures c.Valid() && c.widths == tables[0].widths
  {
    if |tables| == 1 then tables[0]
    else
      var last := |tables| - 1;
      assert forall t :: t in tables[..last] ==> t in tables;
      Join(JoinAll(tables[..last]), tables[last])
  }

  function Counts(tables: seq<Table>): seq<nat> {
    seq(|tables|, k requires 0 <= k < |tables| => tables[k].n)
  }

  function Column(tables: seq<Table>, name: string): seq<seq<Byte>>
    requires SameWidths(tables) && name in tables[0].columns
  {
    seq(|tables|, k requires 0 <= k < |tables| => tables[k].columns[name])
  }

  function AllRows(tables: seq<Table>): seq<seq<Row>>
    requires forall t :: t in tables ==> t.Valid()
  {
    seq(|tables|, k requires 0 <= k < |tables| => RowsOf(tables[k]))
  }

  lemma {:induction false} JoinAllRows(tables: seq<Table>)
    requires SameWidths(tables)
    ensures RowsOf(JoinAll(tables)) == Concat(AllRows(tables))
    decreases tables
  {
    var last := |tables| - 1;
    var most := tables[..last];
    assert AllRows(tables)[..last] == AllRows(most);
    if last == 0 {
      assert Concat(AllRows(most)) == [];
    } else {
      assert forall t :: t in most ==> t in tables;
      JoinAllRows(most);
      JoinedRows(JoinAll(most), tables[last]);
    }
  }

  lemma ColumnPrefix(tables: seq<Table>, most: seq<Table>, name: string)
    requires |tables| > 1 && most == tables[..|tables| - 1] && SameWidths(tables) && SameWidths(most) && name in tables[0].columns
    ensures Column(tables, name)[..|most|] == Column(most, name)
  {
  }

  lemma {:induction false} JoinAllColumns(tables: seq<Table>, name: string)
    requires SameWidths(tables) && name in tables[0].columns
    ensures JoinAll(tables).n == Sum(Counts(tables))
    ensures JoinAll(tables).columns.Keys == tables[0].columns.Keys
    ensures JoinAll(tables).columns[name] == Concat(Column(tables, name))
    decreases tables
  {
    var last := |tables| - 1;
    var most := tables[..last];
    assert Counts(tables)[..last] == Counts(most);
    if last == 0 {
      assert Column(tables, name)[..last] == [];
    } else {
      assert forall t :: t in most ==> t in tables;
      JoinAllColumns(most, name);
      ColumnPrefix(tables, most, name);
    }
  }

  function Tables(requests: seq<Request>): seq<Table>
    requires forall r :: r in requests ==> WellFormed(r)
  {
    seq(|requests|, k requires 0 <= k < |requests| => TableOf(requests[k]))
  }

  // -------------------------------------------------------- the merged request

  lemma SameNames(a: Request, b: Request)
    requires Shaped(a.inputs) && Shaped(b.inputs) && Signature(a.inputs) == Signature(b.inputs)
    ensures Names(a.inputs) == Names(b.inputs)
  {
    assert Signature(a.inputs).Keys == Names(a.inputs) && Signature(b.inputs).Keys == Names(b.inputs);
  }

  lemma SameInputKind(a: Request, b: Request, name: string)
    requires Shaped(a.inputs) && Shaped(b.inputs) && Signature(a.inputs) == Signature(b.inputs)
    requires name in Names(a.inputs)
    ensures name in Names(b.inputs) && KindOf(Input(a, name)) == KindOf(Input(b, name))
  {
    SameNames(a, b);
    assert Signature(a.inputs)[name] == Signature(b.inputs)[name];
  }

  lemma SameInputWidth(a: Request, b: Request, name: string)
    requires Shaped(a.inputs) && Shaped(b.inputs) && Signature(a.inputs) == Signature(b.inputs)
    requires name in Names(a.inputs)
    ensures name in Names(b.inputs) && Width(Input(a, name)) == Width(Input(b, name))
  {
    SameInputKind(a, b, name);
  }

  lemma SameTableWidths(a: Request, b: Request)
    requires WellFormed(a) && WellFormed(b) && Signature(a.inputs) == Signature(b.inputs)
    ensures TableOf(a).widths == TableOf(b).widths
  {
    SameNames(a, b);
    var widths := TableOf(a).widths;
    forall name | name in Names(b.inputs) ensures widths[name] == Width(Input(b, name)) {
      SameInputWidth(a, b, name);
    }
    TableWidths(b, widths);
  }

  lemma Member(requests: seq<Request>, k: nat)
    requires Batchable(requests) && k < |requests|
    ensures WellFormed(requests[k]) && SameKind(requests[0], requests[k])
    ensures Names(requests[k].inputs) == Names(requests[0].inputs)
  {
    assert requests[k] in requests;
    SameNames(requests[0], requests[k]);
  }

  lemma BatchableAligned(requests: seq<Request>)
    requires Batchable(requests)
    ensures Aligned(requests, requests[0].inputs)
  {
    forall k | 0 <= k < |requests|
      ensures Names(requests[k].inputs) == Names(requests[0].inputs) && Shaped(requests[0].inputs)
    {
      Member(requests, k);
    }
    Member(requests, 0);
    forall t | t in requests[0].inputs ensures Present(requests, t.name) {
      assert t.name in Names(requests[0].inputs);
    }
  }

  lemma SignedTotal(sizes: seq<nat>)
    requires Sum(sizes) < HALF
    ensures Signed(Total(sizes)) == Sum(sizes)
  {
  }

  lemma MergedTensor(tensors: seq<Tensor>, sizes: seq<nat>)
    requires tensors != [] && tensors[0].shape != [] && Sum(sizes) < HALF
    ensures MergeTensors(tensors, sizes) ==
              tensors[0].(shape := [Sum(sizes)] + tensors[0].shape[1..], bytes := Concat(BytesOf(tensors)))
  {
    SignedTotal(sizes);
    assert tensors[0].shape[0 := Sum(sizes)] == [Sum(sizes)] + tensors[0].shape[1..];
  }

  /** Input `i` of the merged request is input `i` of the first one with all requests' bytes behind each other. */
  lemma MergedInput(requests: seq<Request>, i: nat)
    requires requests != [] && DistinctNames(requests[0].inputs) && Aligned(requests, requests[0].inputs)
    requires Sum(SizesOf(requests)) < HALF && i < |requests[0].inputs|
    ensures var t := requests[0].inputs[i];
            && Present(requests, t.name) && t.shape != []
            && MergeOf(requests).request.inputs[i] ==
                 t.(shape := [Sum(SizesOf(requests))] + t.shape[1..], bytes := Concat(BytesOf(Matching(requests, t.name))))
  {
    var t := requests[0].inputs[i];
    assert t in requests[0].inputs;
    FindsItself(requests[0].inputs, t);
    assert Matching(requests, t.name)[0] == t;
    MergedTensor(Matching(requests, t.name), SizesOf(requests));
  }

  lemma TablesSameWidths(requests: seq<Request>)
    requires Batchable(requests)
    ensures SameWidths(Tables(requests))
  {
    forall k | 0 <= k < |requests| ensures Tables(requests)[k].Valid() && Tables(requests)[k].widths == Tables(requests)[0].widths {
      Member(requests, 0);
      Member(requests, k);
      SameTableWidths(requests[0], requests[k]);
    }
  }

  lemma CountsAreSizes(requests: seq<Request>)
    requires Batchable(requests)
    ensures Counts(Tables(requests)) == SizesOf(requests)
  {
    forall k | 0 <= k < |requests| ensures Tables(requests)[k].n == SizesOf(requests)[k] {
      Member(requests, k);
    }
  }

  lemma ColumnIsMatching(requests: seq<Request>, name: string)
    requires Batchable(requests) && Present(requests, name) && name in Names(requests[0].inputs)
    ensures SameWidths(Tables(requests)) && name in Tables(requests)[0].columns
    ensures Column(Tables(requests), name) == BytesOf(Matching(requests, name))
  {
    TablesSameWidths(requests);
    forall k | 0 <= k < |requests|
      ensures name in Tables(requests)[k].columns && Tables(requests)[k].columns[name] == Matching(requests, name)[k].bytes
    {
      ColumnAt(requests, name, k);
    }
    ColumnEquals(Tables(requests), name, Matching(requests, name));
  }

  lemma ColumnEquals(tables: seq<Table>, name: string, tensors: seq<Tensor>)
    requires tables != [] && SameWidths(tables) && name in tables[0].columns && |tensors| == |tables|
    requires forall k :: 0 <= k < |tables| ==> name in tables[k].columns && tables[k].columns[name] == tensors[k].bytes
    ensures Column(tables, name) == BytesOf(tensors)
  {
  }

  lemma ColumnAt(requests: seq<Request>, name: string, k: nat)
    requires Batchable(requests) && Present(requests, name) && name in Names(requests[0].inputs) && k < |requests|
    ensures name in Tables(requests)[k].columns && Tables(requests)[k].columns[name] == Matching(requests, name)[k].bytes
  {
    Member(requests, k);
  }

  function MergedRequest(requests: seq<Request>): Request
    requires Batchable(requests)
  {
    BatchableAligned(requests);
    MergeOf(requests).request
  }

  /** The joined table of all requests has, under each input's name, exactly the merged bytes. */
  lemma MergedColumn(requests: seq<Request>, i: nat)
    requires Batchable(requests) && i < |requests[0].inputs|
    ensures var t, m := requests[0].inputs[i], MergedRequest(requests).inputs[i];
            && t.shape != [] && m == t.(shape := [Sum(SizesOf(requests))] + t.shape[1..], bytes := m.bytes)
            && SameWidths(Tables(requests))
            && var all := JoinAll(Tables(requests));
            && all.n == Sum(SizesOf(requests))
            && t.name in all.columns && all.columns[t.name] == m.bytes && all.widths[t.name] == Width(t)
            && all.columns.Keys == Names(requests[0].inputs)
  {
    var t := requests[0].inputs[i];
    BatchableAligned(requests);
    Member(requests, 0);
    MergedInput(requests, i);
    assert t in requests[0].inputs;
    assert t.name in Names(requests[0].inputs);
    ColumnIsMatching(requests, t.name);
    CountsAreSizes(requests);
    JoinAllColumns(Tables(requests), t.name);
    FindsItself(requests[0].inputs, t);
  }

  lemma MergedHoldsRows(requests: seq<Request>, i: nat)
    requires Batchable(requests) && i < |requests[0].inputs|
    ensures HoldsRows(MergedRequest(requests).inputs[i], Sum(SizesOf(requests)))
  {
    var t, m := requests[0].inputs[i], MergedRequest(requests).inputs[i];
    MergedColumn(requests, i);
    Member(requests, 0);
    assert HoldsRows(t, BatchSize(requests[0]));
    var all := JoinAll(Tables(requests));
    assert all.Valid() && |all.columns[t.name]| == Span(all.n, all.widths[t.name]);
    HoldsMore(t, m, BatchSize(requests[0]), all.n);
  }

  lemma HoldsMore(t: Tensor, m: Tensor, n: int, total: nat)
    requires HoldsRows(t, n) && m.dtype == t.dtype && m.shape == [total] + t.shape[1..] && |m.bytes| == Span(total, Width(t))
    ensures HoldsRows(m, total)
  {
    assert m.shape[1..] == t.shape[1..];
  }

  lemma MergedWellFormed(requests: seq<Request>)
    requires Batchable(requests)
    ensures WellFormed(MergedRequest(requests))
    ensures BatchSize(MergedRequest(requests)) == Sum(SizesOf(requests))
  {
    var front, m := requests[0], MergedRequest(requests);
    Member(requests, 0);
    forall i | 0 <= i < |m.inputs| ensures HoldsRows(m.inputs[i], Sum(SizesOf(requests))) && m.inputs[i].name == front.inputs[i].name {
      MergedHoldsRows(requests, i);
      MergedColumn(requests, i);
    }
  }

  lemma MergedFinds(requests: seq<Request>, i: nat)
    requires Batchable(requests) && i < |requests[0].inputs| && WellFormed(MergedRequest(requests))
    ensures var name := requests[0].inputs[i].name;
            && FindInput(MergedRequest(requests).inputs, name) == Some(MergedRequest(requests).inputs[i])
            && FindInput(requests[0].inputs, name) == Some(requests[0].inputs[i])
  {
    Member(requests, 0);
    MergedColumn(requests, i);
    FindsItself(MergedRequest(requests).inputs, MergedRequest(requests).inputs[i]);
    FindsItself(requests[0].inputs, requests[0].inputs[i]);
  }

  lemma SameNamesInOrder(xs: seq<Tensor>, ys: seq<Tensor>)
    requires |xs| == |ys| && forall i :: 0 <= i < |xs| ==> xs[i].name == ys[i].name
    ensures Names(xs) == Names(ys)
  {
    forall t | t in xs ensures t.name in Names(ys) {
      var i :| 0 <= i < |xs| && xs[i] == t;
      assert ys[i] in ys;
    }
    forall t | t in ys ensures t.name in Names(xs) {
      var i :| 0 <= i < |ys| && ys[i] == t;
      assert xs[i] in xs;
    }
  }

  lemma MergedNames(requests: seq<Request>)
    requires Batchable(requests)
    ensures Names(MergedRequest(requests).inputs) == Names(requests[0].inputs)
  {
    var front, m := requests[0], MergedRequest(requests);
    forall i | 0 <= i < |front.inputs| ensures m.inputs[i].name == front.inputs[i].name {
      MergedColumn(requests, i);
    }
    SameNamesInOrder(m.inputs, front.inputs);
  }

  lemma MergedAt(requests: seq<Request>, name: string)
    requires Batchable(requests) && name in Names(requests[0].inputs)
    ensures var front, m := requests[0], MergedRequest(requests);
            && name in Names(m.inputs) && Input(m, name).shape != [] && Input(front, name).shape != []
            && KindOf(Input(m, name)) == KindOf(Input(front, name))
            && SameWidths(Tables(requests))
            && var all := JoinAll(Tables(requests));
            && name in all.columns
            && all.columns[name] == Input(m, name).bytes && all.widths[name] == Width(Input(m, name))
  {
    var front, m := requests[0], MergedRequest(requests);
    MergedNames(requests);
    MergedWellFormed(requests);
    var i :| 0 <= i < |front.inputs| && front.inputs[i].name == name;
    MergedColumn(requests, i);
    MergedFinds(requests, i);
    assert m.inputs[i].shape[1..] == front.inputs[i].shape[1..];
  }

  lemma MergedQuestion(requests: seq<Request>)
    requires Batchable(requests)
    ensures WellFormed(MergedRequest(requests)) && WellFormed(requests[0])
    ensures QuestionOf(MergedRequest(requests)) == QuestionOf(requests[0])
  {
    var front, m := requests[0], MergedRequest(requests);
    Member(requests, 0);
    MergedWellFormed(requests);
    MergedNames(requests);
    forall name | name in Names(front.inputs) ensures KindOf(Input(m, name)) == KindOf(Input(front, name)) {
      MergedAt(requests, name);
    }
    assert Signature(m.inputs) == Signature(front.inputs);
  }

  lemma TableIs(r: Request, t: Table)
    requires WellFormed(r) && t.n == BatchSize(r) && t.columns.Keys == t.widths.Keys == Names(r.inputs)
    requires forall name :: name in Names(r.inputs) ==> t.columns[name] == Input(r, name).bytes && t.widths[name] == Width(Input(r, name))
    ensures TableOf(r) == t
  {
    TableColumns(r, t.columns);
    TableWidths(r, t.widths);
  }

  lemma TableColumns(r: Request, columns: map<string, seq<Byte>>)
    requires WellFormed(r) && columns.Keys == Names(r.inputs) && forall name :: name in Names(r.inputs) ==> columns[name] == Input(r, name).bytes
    ensures TableOf(r).columns == columns
  {
  }

  lemma TableWidths(r: Request, widths: map<string, nat>)
    requires WellFormed(r) && widths.Keys == Names(r.inputs) && forall name :: name in Names(r.inputs) ==> widths[name] == Width(Input(r, name))
    ensures TableOf(r).widths == widths
  {
  }

  lemma MergedTable(requests: seq<Request>)
    requires Batchable(requests)
    ensures WellFormed(MergedRequest(requests)) && SameWidths(Tables(requests))
    ensures TableOf(MergedRequest(requests)) == JoinAll(Tables(requests))
  {
    var m, all := MergedRequest(requests), JoinAllOf(requests);
    assert requests[0].inputs != [] by {
      Member(requests, 0);
    }
    MergedWellFormed(requests);
    MergedNames(requests);
    MergedColumn(requests, 0);
    assert all.Valid();
    forall name | name in Names(m.inputs)
      ensures all.columns[name] == Input(m, name).bytes && all.widths[name] == Width(Input(m, name))
    {
      MergedAt(requests, name);
    }
    TableIs(m, all);
  }

  function JoinAllOf(requests: seq<Request>): Table
    requires Batchable(requests)
  {
    TablesSameWidths(requests);
    JoinAll(Tables(requests))
  }

  // ------------------------------------------------------------- the theorem

  /** The batched answer, output by output, is the answers for each request's rows behind each other. */
  lemma MergedAnswerBytes(e: RowExecutor, requests: seq<Request>, j: nat)
    requires Batchable(requests) && WellFormed(requests[0])
    ensures WellFormed(MergedRequest(requests))
    ensures var q := QuestionOf(requests[0]);
            OutputBytes(e, q, j, RowsOf(TableOf(MergedRequest(requests))))
              == Concat(seq(|requests|, k requires 0 <= k < |requests| => OutputBytes(e, q, j, RowsOf(Tables(requests)[k]))))
  {
    var q, tables := QuestionOf(requests[0]), Tables(requests);
    MergedTable(requests);
    JoinAllRows(tables);
    OutputBytesConcat(e, q, j, AllRows(tables));
    assert seq(|tables|, k requires 0 <= k < |tables| => OutputBytes(e, q, j, AllRows(tables)[k]))
        == seq(|requests|, k requires 0 <= k < |requests| => OutputBytes(e, q, j, RowsOf(tables[k])));
  }

  /** The byte counts of an output over `total` rows do not wrap. */
  predicate SpecFits(spec: OutputSpec, total: nat) {
    && Product(spec.tail) < SIZE_LIMIT && SpecWidth(spec) < SIZE_LIMIT
    && total * SpecWidth(spec) < SIZE_LIMIT && total * Product(spec.tail) < SIZE_LIMIT
  }

  /** The batcher can cut this output into rows: fixed-size elements, and at least one of them per row. */
  predicate Splittable(spec: OutputSpec) {
    ElementSize(spec.dtype) > 0 && Product(spec.tail) > 0
  }

  /** Output `j` of the batched run. */
  function BatchedOutput(e: RowExecutor, requests: seq<Request>, j: nat): Tensor
    requires Batchable(requests) && WellFormed(requests[0]) && j < |e.specs(QuestionOf(requests[0]))|
  {
    MergedWellFormed(requests);
    OutputTensor(e, QuestionOf(requests[0]), j, RowsOf(TableOf(MergedRequest(requests))))
  }

  /** Output `j` of request `k` run alone. */
  function LoneOutput(e: RowExecutor, requests: seq<Request>, j: nat, k: nat): Tensor
    requires Batchable(requests) && k < |requests| && WellFormed(requests[0]) && j < |e.specs(QuestionOf(requests[0]))|
  {
    OutputTensor(e, QuestionOf(requests[0]), j, RowsOf(Tables(requests)[k]))
  }

  lemma BatchedShape(e: RowExecutor, requests: seq<Request>, j: nat)
    requires WellBehaved(e) && Batchable(requests) && WellFormed(requests[0]) && j < |e.specs(QuestionOf(requests[0]))|
    requires SpecFits(e.specs(QuestionOf(requests[0]))[j], Sum(SizesOf(requests)))
    ensures var spec, o, total := e.specs(QuestionOf(requests[0]))[j], BatchedOutput(e, requests, j), Sum(SizesOf(requests));
            && Fits(o, SizesOf(requests))
            && o.shape[0] == total && o.shape[1..] == spec.tail && o.dtype == spec.dtype && o.name == spec.name
            && RowWidth(o) == SpecWidth(spec) >= 0 && |o.bytes| == total * RowWidth(o)
  {
    var q := QuestionOf(requests[0]);
    var spec, o := e.specs(q)[j], BatchedOutput(e, requests, j);
    MergedWellFormed(requests);
    OutputBytesLength(e, q, j, RowsOf(TableOf(MergedRequest(requests))));
    assert NonNegative(spec.tail);
    assert o.shape[1..] == spec.tail;
  }

  lemma BatchedShare(e: RowExecutor, requests: seq<Request>, j: nat, k: nat)
    requires WellBehaved(e) && Batchable(requests) && k < |requests| && WellFormed(requests[0]) && j < |e.specs(QuestionOf(requests[0]))|
    requires SpecFits(e.specs(QuestionOf(requests[0]))[j], Sum(SizesOf(requests)))
    ensures var o, sizes := BatchedOutput(e, requests, j), SizesOf(requests);
            && o.shape != [] && RowWidth(o) >= 0 && Sum(ShareWidths(o, sizes)) == |o.bytes|
            && Shares(o, sizes)[k] == LoneOutput(e, requests, j, k).bytes
            && LoneOutput(e, requests, j, k).shape == [sizes[k]] + o.shape[1..]
  {
    var q, sizes, o := QuestionOf(requests[0]), SizesOf(requests), BatchedOutput(e, requests, j);
    BatchedShape(e, requests, j);
    MergedAnswerBytes(e, requests, j);
    var parts := LoneBytes(e, requests, j);
    LoneBytesLengths(e, requests, j, RowWidth(o));
    PartIsPiece(parts, sizes, RowWidth(o), o.bytes, k);
  }

  /** The bytes of output `j` for each request alone. */
  function LoneBytes(e: RowExecutor, requests: seq<Request>, j: nat): seq<seq<Byte>>
    requires Batchable(requests) && WellFormed(requests[0])
  {
    seq(|requests|, i requires 0 <= i < |requests| => OutputBytes(e, QuestionOf(requests[0]), j, RowsOf(Tables(requests)[i])))
  }

  lemma LoneBytesLengths(e: RowExecutor, requests: seq<Request>, j: nat, w: int)
    requires WellBehaved(e) && Batchable(requests) && WellFormed(requests[0]) && j < |e.specs(QuestionOf(requests[0]))|
    requires w == SpecWidth(e.specs(QuestionOf(requests[0]))[j])
    ensures forall i :: 0 <= i < |requests| ==>
      |LoneBytes(e, requests, j)[i]| == SizesOf(requests)[i] * w && |RowsOf(Tables(requests)[i])| == SizesOf(requests)[i]
  {
    CountsAreSizes(requests);
    forall i | 0 <= i < |requests|
      ensures |LoneBytes(e, requests, j)[i]| == SizesOf(requests)[i] * w && |RowsOf(Tables(requests)[i])| == SizesOf(requests)[i]
    {
      assert Tables(requests)[i].n == Counts(Tables(requests))[i];
      OutputBytesLength(e, QuestionOf(requests[0]), j, RowsOf(Tables(requests)[i]));
    }
  }

  /** Cutting a concatenation at multiples of the row width gives the parts back. */
  lemma PartIsPiece(parts: seq<seq<Byte>>, sizes: seq<nat>, w: nat, whole: seq<Byte>, k: nat)
    requires |parts| == |sizes| && k < |parts| && whole == Concat(parts)
    requires forall i :: 0 <= i < |parts| ==> |parts[i]| == sizes[i] * w
    ensures Sum(Scaled(sizes, w)) == |whole| && Pieces(whole, Scaled(sizes, w))[k] == parts[k]
  {
    ConcatLength(parts, sizes, w);
    ScaledSum(sizes, w);
    ConcatPart(parts, k);
    ConcatLength(parts[..k], sizes[..k], w);
    ScaledSum(sizes[..k], w);
    assert Scaled(sizes, w)[..k] == Scaled(sizes[..k], w);
  }

  lemma BatchedSlice(e: RowExecutor, requests: seq<Request>, j: nat, k: nat)
    requires WellBehaved(e) && Batchable(requests) && k < |requests| && WellFormed(requests[0]) && j < |e.specs(QuestionOf(requests[0]))|
    requires SpecFits(e.specs(QuestionOf(requests[0]))[j], Sum(SizesOf(requests)))
    ensures var r := SliceOutput(BatchedOutput(e, requests, j), SizesOf(requests), k);
            if Splittable(e.specs(QuestionOf(requests[0]))[j]) then r == Sliced(LoneOutput(e, requests, j, k)) else r.SliceError?
  {
    var o, sizes := BatchedOutput(e, requests, j), SizesOf(requests);
    BatchedShape(e, requests, j);
    LateGuardsNeverFire(o, sizes, k);
    if EarlyError(o, sizes).None? {
      BatchedShare(e, requests, j, k);
    }
  }

  lemma LoneAnswer(e: RowExecutor, requests: seq<Request>, k: nat)
    requires Batchable(requests) && k < |requests|
    ensures WellFormed(requests[k]) && WellFormed(requests[0])
    ensures var r, n := Computed(e, requests[k]), |e.specs(QuestionOf(requests[0]))|;
            && r.ok && r.code == "" && r.message == "" && |r.outputs| == n
            && forall j :: 0 <= j < n ==> r.outputs[j] == LoneOutput(e, requests, j, k)
  {
    Member(requests, 0);
    Member(requests, k);
    assert QuestionOf(requests[k]) == QuestionOf(requests[0]);
    assert TableOf(requests[k]) == Tables(requests)[k];
  }

  lemma BatchedAnswer(e: RowExecutor, requests: seq<Request>)
    requires Batchable(requests)
    ensures WellFormed(MergedRequest(requests)) && WellFormed(requests[0])
    ensures var r, n := Computed(e, MergedRequest(requests)), |e.specs(QuestionOf(requests[0]))|;
            && r.ok && |r.outputs| == n
            && forall j :: 0 <= j < n ==> r.outputs[j] == BatchedOutput(e, requests, j)
  {
    MergedQuestion(requests);
  }

  /**
   * For every row-wise executor and every batchable list of requests: merge, run once, split
   * gives each request exactly its own answer (names, datatypes, shapes and bytes), provided
   * every output can be cut into rows. If some output cannot, every request fails instead.
   */
  lemma SplitAnswers(e: RowExecutor, requests: seq<Request>, k: nat)
    requires WellBehaved(e) && Batchable(requests) && k < |requests| && WellFormed(requests[0])
    requires forall spec :: spec in e.specs(QuestionOf(requests[0])) ==> SpecFits(spec, Sum(SizesOf(requests)))
    ensures WellFormed(MergedRequest(requests)) && WellFormed(requests[k])
    ensures var r := SplitOne(Computed(e, MergedRequest(requests)), SizesOf(requests), k);
            if forall spec :: spec in e.specs(QuestionOf(requests[0])) ==> Splittable(spec) then r == Computed(e, requests[k]) else !r.ok
  {
    BatchedAnswer(e, requests);
    LoneAnswer(e, requests, k);
    var specs, lone := e.specs(QuestionOf(requests[0])), Computed(e, requests[k]).outputs;
    var batched := Computed(e, MergedRequest(requests));
    forall j | 0 <= j < |specs|
      ensures SliceOutput(batched.outputs[j], SizesOf(requests), k).Sliced? <==> Splittable(specs[j])
      ensures Splittable(specs[j]) ==> SliceOutput(batched.outputs[j], SizesOf(requests), k) == Sliced(lone[j])
    {
      assert specs[j] in specs;
      BatchedSlice(e, requests, j, k);
    }
    SplitByOutput(batched, SizesOf(requests), k, specs, lone);
  }

  /** Splitting goes output by output: it succeeds if every output can be cut, and then gives the cuts. */
  lemma SplitByOutput(batched: Response, sizes: seq<nat>, k: nat, specs: seq<OutputSpec>, lone: seq<Tensor>)
    requires k < |sizes| && batched.ok && batched == Response(true, "", "", batched.outputs) && |batched.outputs| == |specs| == |lone|
    requires forall j :: 0 <= j < |specs| ==> (SliceOutput(batched.outputs[j], sizes, k).Sliced? <==> Splittable(specs[j]))
    requires forall j :: 0 <= j < |specs| && Splittable(specs[j]) ==> SliceOutput(batched.outputs[j], sizes, k) == Sliced(lone[j])
    ensures var r := SplitOne(batched, sizes, k);
      if forall spec :: spec in specs ==> Splittable(spec) then r == Response(true, "", "", lone) else !r.ok
  {
    if forall spec :: spec in specs ==> Splittable(spec) {
      assert forall o :: o in batched.outputs ==> SliceOutput(o, sizes, k).Sliced?;
      assert SplitOne(batched, sizes, k).outputs == lone;
    } else {
      var j :| 0 <= j < |specs| && !Splittable(specs[j]);
      assert batched.outputs[j] in batched.outputs;
    }
  }

  /** `f` answers every well-formed request the way the row-wise computation `e` does. */
  ghost predicate Implements(f: Request -> Response, e: RowExecutor) {
    WellBehaved(e) && forall r :: WellFormed(r) ==> f(r) == Infer(e, r)
  }

  /** The list as the scheduler forms it: well-formed requests, each compatible with the first. */
  predicate Formed(requests: seq<Request>) {
    && |requests| >= 2
    && (forall r :: r in requests ==> WellFormed(r))
    && (forall k :: 0 < k < |requests| ==> Compatible(requests[0], requests[k]))
    && Sum(SizesOf(requests)) < HALF
  }

  lemma FormedMerges(requests: seq<Request>)
    requires Formed(requests)
    ensures Batchable(requests) && MergeSpec(requests) == Merged(MergedRequest(requests), SizesOf(requests))
  {
    FormedIsBatchable(requests);
    NoCompatError(requests[0], requests[1..]);
    BatchableAligned(requests);
  }

  lemma FormedIsBatchable(requests: seq<Request>)
    requires Formed(requests)
    ensures Batchable(requests)
  {
    forall k | 0 <= k < |requests| ensures SameKind(requests[0], requests[k]) {
      assert requests[0] in requests && requests[1] in requests && requests[k] in requests;
      CompatibleIsSameKind(requests[0], requests[if k > 0 then k else 1]);
    }
  }

  /** The batcher can hand the executor's answer to a question out to the requests: it is a refusal, or every output can be cut into rows. */
  predicate Shareable(e: RowExecutor, q: Question) {
    e.refusal(q).Some? || forall spec :: spec in e.specs(q) ==> Splittable(spec)
  }

  predicate OutputsFit(e: RowExecutor, q: Question, total: nat) {
    e.refusal(q).Some? || forall spec :: spec in e.specs(q) ==> SpecFits(spec, total)
  }

  /** A refusal reaches every request of the batch as it would reach it alone. */
  lemma RefusalShared(e: RowExecutor, requests: seq<Request>, k: nat)
    requires Batchable(requests) && k < |requests| && WellFormed(requests[0]) && e.refusal(QuestionOf(requests[0])).Some?
    ensures WellFormed(MergedRequest(requests)) && WellFormed(requests[k])
    ensures SplitOne(Infer(e, MergedRequest(requests)), SizesOf(requests), k) == Infer(e, requests[k])
  {
    MergedQuestion(requests);
    Member(requests, 0);
    Member(requests, k);
    assert QuestionOf(requests[k]) == QuestionOf(requests[0]);
  }

  lemma SharedExactly(e: RowExecutor, requests: seq<Request>, k: nat)
    requires WellBehaved(e) && Batchable(requests) && k < |requests| && WellFormed(requests[0])
    requires OutputsFit(e, QuestionOf(requests[0]), Sum(SizesOf(requests)))
    ensures WellFormed(MergedRequest(requests)) && WellFormed(requests[k])
    ensures var r := SplitOne(Infer(e, MergedRequest(requests)), SizesOf(requests), k);
            r == Infer(e, requests[k]) <==> Shareable(e, QuestionOf(requests[0]))
  {
    if e.refusal(QuestionOf(requests[0])).Some? {
      RefusalShared(e, requests, k);
    } else {
      MergedQuestion(requests);
      Member(requests, 0);
      Member(requests, k);
      assert QuestionOf(requests[k]) == QuestionOf(requests[0]);
      SplitAnswers(e, requests, k);
    }
  }

  /**
   * Batching preserves meaning, for a batch as the scheduler forms it and any executor that
   * works row by row: every request gets the executor's own answer to it alone, exactly when
   * the executor refuses the question or all outputs have fixed-size elements and at least one
   * element per row.
   */
  lemma BatchingPreservesMeaning(f: Request -> Response, e: RowExecutor, requests: seq<Request>)
    requires Implements(f, e) && Formed(requests)
    requires WellFormed(requests[0]) && OutputsFit(e, QuestionOf(requests[0]), Sum(SizesOf(requests)))
    ensures MergeSpec(requests).Merged?
    ensures var m := MergeSpec(requests);
            && |m.sizes| == |requests|
            && ((forall k :: 0 <= k < |requests| ==> SplitOne(f(m.request), m.sizes, k) == f(requests[k]))
                <==> Shareable(e, QuestionOf(requests[0])))
  {
    FormedMerges(requests);
    forall k | 0 <= k < |requests|
      ensures SplitOne(f(MergedRequest(requests)), SizesOf(requests), k) == f(requests[k]) <==> Shareable(e, QuestionOf(requests[0]))
    {
      SharedExactly(e, requests, k);
    }
  }
}
