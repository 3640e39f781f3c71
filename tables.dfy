/**
 * Transition tables: `from_table` reads a machine from a table of strings (a header row
 * of conditions, then one row per state whose cells list the right-hand sides), and
 * `to_table` writes a machine back as such a table. The cell syntax belongs to the
 * `syntax` module, which is not part of this model: its readers and the printing of a
 * store are parameters.
 */
module Tables {
  import opened Wrappers
  import opened Machines
  import opened Sorting
  import opened Text

  type Row = seq<string>

  /** A configuration as a cell lists it: one value per store. */
  type Tracks = seq<seq<Symbol>>

  /** What `string_to_state` reads from a row's first cell: the state and its start and accept attributes. */
  datatype StateCell = StateCell(state: Symbol, start: bool, accept: bool)

  /** `string_to_state`, `string_to_config` and `string_to_configs`; `None` where they raise. */
  datatype Readers = Readers(state: string -> Option<StateCell>,
                             config: string -> Option<Tracks>,
                             configs: string -> Option<seq<Tracks>>)

  /**
   * Which error `from_table` and `to_table` raise. `BadCell` and `DuplicateStart` are the
   * errors the handlers that read `e.message` mean to re-raise; under Python 3 that read
   * fails first with `AttributeError`.
   */
  datatype TableError =
    | EmptyTable      // every row is blank: `etable[0]` raises IndexError
    | BadCell         // a reader raised on a cell
    | DuplicateStart  // "more than one start state"
    | WrongCells      // "row has wrong number of cells"
    | MissingStart    // "missing start state"
    | MissingTrack    // to_table: a transition with no stores at all (IndexError)
    | NotTabular      // to_table: "can't convert to table"

  // ---------------------------------------------------------------------------
  // Blank rows.

  /** The characters Python's `str.strip` removes. */
  predicate IsSpace(c: char)
  {
    || ('\t' <= c <= '\r') || ('\U{1c}' <= c <= ' ') || c == '\U{85}' || c == '\U{a0}'
    || c == '\U{1680}' || ('\U{2000}' <= c <= '\U{200a}') || c == '\U{2028}' || c == '\U{2029}'
    || c == '\U{202f}' || c == '\U{205f}' || c == '\U{3000}'
  }

  /** `sum(len(cell.strip()) for cell in row) == 0`: every character of every cell is whitespace. */
  predicate Blank(row: Row)
  {
    forall j, k | 0 <= j < |row| && 0 <= k < |row[j]| :: IsSpace(row[j][k])
  }

  /** The rows that are not blank, in order. */
  function NonBlank(table: seq<Row>): seq<Row>
  {
    if table == [] then []
    else NonBlank(table[..|table| - 1]) + (if Blank(table[|table| - 1]) then [] else [table[|table| - 1]])
  }

  lemma {:induction false} NonBlankAppend(a: seq<Row>, b: seq<Row>)
    ensures NonBlank(a + b) == NonBlank(a) + NonBlank(b)
    decreases |b|
  {
    if b == [] {
      assert a + b == a;
    } else {
      assert (a + b)[..|a + b| - 1] == a + b[..|b| - 1];
      NonBlankAppend(a, b[..|b| - 1]);
    }
  }

  /** Blank rows are ignored wherever they are. */
  lemma BlankIgnored(a: seq<Row>, row: Row, b: seq<Row>)
    requires Blank(row)
    ensures NonBlank(a + [row] + b) == NonBlank(a + b)
  {
    NonBlankAppend(a + [row], b);
    NonBlankAppend(a, [row]);
    NonBlankAppend(a, b);
    assert [row][..0] == [];
  }

  /** A row survives exactly when it is not blank. */
  lemma {:induction false} NonBlankMeaning(table: seq<Row>, row: Row)
    ensures row in NonBlank(table) <==> row in table && !Blank(row)
    decreases |table|
  {
    if table != [] {
      NonBlankMeaning(table[..|table| - 1], row);
      assert table == table[..|table| - 1] + [table[|table| - 1]];
    }
  }

  /** The first loop of `from_table`: keep the rows that are not blank. */
  method KeepRows(table: seq<Row>) returns (etable: seq<Row>)
    ensures etable == NonBlank(table)
  {
    etable := [];
    for i := 0 to |table|
      invariant etable == NonBlank(table[..i])
    {
      assert table[..i + 1][..i] == table[..i];
      if !Blank(table[i]) {
        etable := etable + [table[i]];
      }
    }
    assert table[..|table|] == table;
  }

  // ---------------------------------------------------------------------------
  // The header.

  /** Read every cell with `read`; `None` if any cell fails. */
  function ReadAll(read: string -> Option<Tracks>, cells: seq<string>): (r: Option<seq<Tracks>>)
    ensures r.Some? <==> forall j | 0 <= j < |cells| :: read(cells[j]).Some?
    ensures r.Some? ==> |r.value| == |cells| && forall j | 0 <= j < |cells| :: r.value[j] == read(cells[j]).value
  {
    if cells == [] then Some([])
    else
      var init := ReadAll(read, cells[..|cells| - 1]);
      var last := read(cells[|cells| - 1]);
      assert forall j | 0 <= j < |cells| - 1 :: cells[..|cells| - 1][j] == cells[j];
      if init.None? || last.None? then None else Some(init.value + [last.value])
  }

  /** The header loop: the conditions of the columns after the first. */
  method ReadHeader(read: string -> Option<Tracks>, cells: seq<string>) returns (r: Option<seq<Tracks>>)
    ensures r == ReadAll(read, cells)
  {
    var lhs2: seq<Tracks> := [];
    for j := 0 to |cells|
      invariant ReadAll(read, cells[..j]) == Some(lhs2)
    {
      assert cells[..j + 1][..j] == cells[..j];
      var c := read(cells[j]);
      if c.None? {
        assert ReadAll(read, cells[..j + 1]) == None;
        ReadAllPrefix(read, cells, j + 1);
        return None;
      }
      lhs2 := lhs2 + [c.value];
    }
    assert cells[..|cells|] == cells;
    r := Some(lhs2);
  }

  lemma ReadAllPrefix(read: string -> Option<Tracks>, cells: seq<string>, k: nat)
    requires k <= |cells| && ReadAll(read, cells[..k]).None?
    ensures ReadAll(read, cells).None?
  {
    var j :| 0 <= j < k && read(cells[..k][j]).None?;
    assert cells[..k][j] == cells[j];
  }

  // ---------------------------------------------------------------------------
  // The rows.

  /** What the row loop accumulates: the start state, the accept states and the transitions. */
  datatype Acc = Acc(start: Option<Symbol>, accepts: set<Symbol>, transitions: seq<Transition>)

  /** `(q,) + lhs2[j - 1]` paired with each right-hand side read from cell j. */
  function Expand(q: Symbol, cond: Tracks, rhss: seq<Tracks>): (r: seq<Transition>)
    ensures |r| == |rhss| && forall k | 0 <= k < |rhss| :: r[k] == Transition([[q]] + cond, rhss[k])
  {
    if rhss == [] then [] else Expand(q, cond, rhss[..|rhss| - 1]) + [Transition([[q]] + cond, rhss[|rhss| - 1])]
  }

  /** The transitions of a row's cells, column by column; `None` if a cell cannot be read. */
  function CellTransitions(configs: string -> Option<seq<Tracks>>, q: Symbol, header: seq<Tracks>, cells: seq<string>)
    : (r: Option<seq<Transition>>)
    requires |cells| <= |header|
    ensures r.Some? <==> forall j | 0 <= j < |cells| :: configs(cells[j]).Some?
  {
    if cells == [] then Some([])
    else
      assert forall j | 0 <= j < |cells| - 1 :: cells[..|cells| - 1][j] == cells[j];
      var init := CellTransitions(configs, q, header, cells[..|cells| - 1]);
      var last := configs(cells[|cells| - 1]);
      if init.None? || last.None? then None
      else Some(init.value + Expand(q, header[|cells| - 1], last.value))
  }

  /** One body row: its state cell, then the cell count, then its cells. */
  function RowStep(rd: Readers, header: seq<Tracks>, row: Row, acc: Acc): Result<Acc, TableError>
    requires |row| > 0
  {
    match rd.state(row[0])
    case None => Failure(BadCell)
    case Some(cell) =>
      if cell.start && acc.start.Some? then Failure(DuplicateStart)
      else
        var start := if cell.start then Some(cell.state) else acc.start;
        var accepts := if cell.accept then acc.accepts + {cell.state} else acc.accepts;
        if |row| - 1 != |header| then Failure(WrongCells)
        else match CellTransitions(rd.configs, cell.state, header, row[1..])
          case None => Failure(BadCell)
          case Some(ts) => Success(Acc(start, accepts, acc.transitions + ts))
  }

  /** The body rows in order; the first error stops the loop. */
  function Rows(rd: Readers, header: seq<Tracks>, rows: seq<Row>, acc: Acc): Result<Acc, TableError>
    requires forall i | 0 <= i < |rows| :: |rows[i]| > 0
    decreases |rows|
  {
    if rows == [] then Success(acc)
    else match RowStep(rd, header, rows[0], acc)
      case Failure(e) => Failure(e)
      case Success(acc') => Rows(rd, header, rows[1..], acc')
  }

  /** A row with no cells is blank, so every row that is kept has a first cell. */
  lemma KeptRowsHaveCells(table: seq<Row>)
    ensures forall i | 0 <= i < |NonBlank(table)| :: |NonBlank(table)[i]| > 0
  {
    forall i | 0 <= i < |NonBlank(table)| ensures |NonBlank(table)[i]| > 0 {
      NonBlankMeaning(table, NonBlank(table)[i]);
    }
  }

  /** The conditions the header row (the first row that is not blank) gives its columns. */
  function Header(rd: Readers, table: seq<Row>): Option<seq<Tracks>>
  {
    var etable := NonBlank(table);
    if etable == [] || etable[0] == [] then None else ReadAll(rd.config, etable[0][1..])
  }

  /** `from_table` on a table, with the readers of the cell syntax. */
  function FromTableSpec(rd: Readers, table: seq<Row>): Result<Machine, TableError>
  {
    var etable := NonBlank(table);
    KeptRowsHaveCells(table);
    if etable == [] then Failure(EmptyTable)
    else match Header(rd, table)
      case None => Failure(BadCell)
      case Some(header) =>
        match Rows(rd, header, etable[1..], Acc(None, {}, []))
        case Failure(e) => Failure(e)
        case Success(acc) =>
          if acc.start.None? then Failure(MissingStart)
          else Success(Machine(acc.start.value, acc.accepts, acc.transitions))
  }

  // ---------------------------------------------------------------------------
  // The loops of `from_table`.

  /** The innermost loop: one transition per right-hand side read from a cell. */
  method AppendAll(ts: seq<Transition>, q: Symbol, cond: Tracks, rhss: seq<Tracks>) returns (ts': seq<Transition>)
    ensures ts' == ts + Expand(q, cond, rhss)
  {
    ts' := ts;
    for k := 0 to |rhss|
      invariant ts' == ts + Expand(q, cond, rhss[..k])
    {
      assert rhss[..k + 1][..k] == rhss[..k];
      ts' := ts' + [Transition([[q]] + cond, rhss[k])];
    }
    assert rhss[..|rhss|] == rhss;
  }

  lemma {:induction false} CellsPrefixNone(configs: string -> Option<seq<Tracks>>, q: Symbol, header: seq<Tracks>,
                                           cells: seq<string>, k: nat)
    requires k <= |cells| <= |header|
    requires CellTransitions(configs, q, header, cells[..k]).None?
    ensures CellTransitions(configs, q, header, cells).None?
    decreases |cells| - k
  {
    if k < |cells| {
      var c := cells[..k + 1];
      assert c[..|c| - 1] == cells[..k];
      CellsPrefixNone(configs, q, header, cells, k + 1);
    } else {
      assert cells[..k] == cells;
    }
  }

  /** The body of the row loop. */
  method ReadRow(rd: Readers, header: seq<Tracks>, row: Row, acc: Acc) returns (r: Result<Acc, TableError>)
    requires |row| > 0
    ensures r == RowStep(rd, header, row, acc)
  {
    var cell := rd.state(row[0]);
    if cell.None? {
      return Failure(BadCell);
    }
    var q := cell.value.state;
    var start := acc.start;
    if cell.value.start {
      if start.Some? {
        return Failure(DuplicateStart);
      }
      start := Some(q);
    }
    var accepts := acc.accepts;
    if cell.value.accept {
      accepts := accepts + {q};
    }
    if |row| - 1 != |header| {
      return Failure(WrongCells);
    }
    var ts := ReadCells(rd.configs, q, header, row[1..], acc.transitions);
    if ts.None? {
      return Failure(BadCell);
    }
    r := Success(Acc(start, accepts, ts.value));
  }

  /** The loop over a row's cells, appending to the transitions read so far. */
  method ReadCells(configs: string -> Option<seq<Tracks>>, q: Symbol, header: seq<Tracks>, cells: seq<string>,
                   ts0: seq<Transition>) returns (r: Option<seq<Transition>>)
    requires |cells| == |header|
    ensures CellTransitions(configs, q, header, cells).None? ==> r.None?
    ensures CellTransitions(configs, q, header, cells).Some? ==> r == Some(ts0 + CellTransitions(configs, q, header, cells).value)
  {
    var ts := ts0;
    for j := 0 to |cells|
      invariant CellTransitions(configs, q, header, cells[..j]).Some?
      invariant ts == ts0 + CellTransitions(configs, q, header, cells[..j]).value
    {
      var prefix := cells[..j + 1];
      assert prefix[..|prefix| - 1] == cells[..j];
      var rhss := configs(cells[j]);
      if rhss.None? {
        CellsPrefixNone(configs, q, header, cells, j + 1);
        return None;
      }
      ts := AppendAll(ts, q, header[j], rhss.value);
    }
    assert cells[..|cells|] == cells;
    r := Some(ts);
  }

  /** `from_table`. */
  method FromTable(rd: Readers, table: seq<Row>) returns (r: Result<Machine, TableError>)
    ensures r == FromTableSpec(rd, table)
  {
    var etable := KeepRows(table);
    KeptRowsHaveCells(table);
    if |etable| == 0 {
      return Failure(EmptyTable);
    }
    var lhs2 := ReadHeader(rd.config, etable[0][1..]);
    if lhs2.None? {
      return Failure(BadCell);
    }
    var header := lhs2.value;
    var body := etable[1..];
    var acc := Acc(None, {}, []);
    for i := 0 to |body|
      invariant Rows(rd, header, body, Acc(None, {}, [])) == Rows(rd, header, body[i..], acc)
    {
      assert body[i..][1..] == body[i + 1..];
      var next := ReadRow(rd, header, body[i], acc);
      if next.Failure? {
        return Failure(next.error);
      }
      acc := next.value;
    }
    if acc.start.None? {
      return Failure(MissingStart);
    }
    r := Success(Machine(acc.start.value, acc.accepts, acc.transitions));
  }

  // ---------------------------------------------------------------------------
  // What `from_table` promises.

  /** What the first cell of a row says, if it can be read. */
  function State(rd: Readers, row: Row): Option<StateCell>
  {
    if row == [] then None else rd.state(row[0])
  }

  /** The states of the rows marked as start states, in order. */
  function Starts(rd: Readers, rows: seq<Row>): seq<Symbol>
  {
    if rows == [] then []
    else
      var s := State(rd, rows[0]);
      (if s.Some? && s.value.start then [s.value.state] else []) + Starts(rd, rows[1..])
  }

  /** Transition `t` comes from a cell of `row`: its lhs is the row's state and the column's condition, its rhs one of the cell's configurations. */
  ghost predicate Yields(rd: Readers, header: seq<Tracks>, row: Row, t: Transition)
  {
    exists j, k | 1 <= j < |row| && j <= |header| ::
      && State(rd, row).Some?
      && rd.configs(row[j]).Some?
      && 0 <= k < |rd.configs(row[j]).value|
      && t == Transition([[State(rd, row).value.state]] + header[j - 1], rd.configs(row[j]).value[k])
  }

  lemma {:induction false} CellsYield(rd: Readers, header: seq<Tracks>, row: Row, n: nat, ts: seq<Transition>, t: Transition)
    requires 0 < |row| && n < |row| && |row| - 1 == |header| && rd.state(row[0]).Some?
    requires CellTransitions(rd.configs, rd.state(row[0]).value.state, header, row[1..][..n]) == Some(ts)
    ensures t in ts <==> exists j, k | 1 <= j <= n && j <= |header| ::
      (&& rd.configs(row[j]).Some?
       && 0 <= k < |rd.configs(row[j]).value|
       && t == Transition([[rd.state(row[0]).value.state]] + header[j - 1], rd.configs(row[j]).value[k]))
    decreases n
  {
    var q := rd.state(row[0]).value.state;
    var cells := row[1..][..n];
    if n > 0 {
      assert cells[..|cells| - 1] == row[1..][..n - 1];
      var init := CellTransitions(rd.configs, q, header, row[1..][..n - 1]).value;
      CellsYield(rd, header, row, n - 1, init, t);
      assert cells[n - 1] == row[n];
      var rhss := rd.configs(row[n]).value;
      assert ts == init + Expand(q, header[n - 1], rhss);
      if t in ts && t !in init {
        var k :| 0 <= k < |rhss| && Expand(q, header[n - 1], rhss)[k] == t;
        assert rd.configs(row[n]).Some? && k < |rd.configs(row[n]).value|;
      }
      if t !in ts {
        forall j, k | 1 <= j <= n && j <= |header| && rd.configs(row[j]).Some? && 0 <= k < |rd.configs(row[j]).value|
          ensures t != Transition([[q]] + header[j - 1], rd.configs(row[j]).value[k])
        {
          if j == n {
            assert Expand(q, header[n - 1], rhss)[k] == Transition([[q]] + header[j - 1], rd.configs(row[j]).value[k]);
          }
        }
      }
    }
  }

  /** The transitions a successful row adds are exactly those its cells yield. */
  lemma RowYields(rd: Readers, header: seq<Tracks>, row: Row, acc: Acc, acc': Acc, t: Transition)
    requires |row| > 0 && RowStep(rd, header, row, acc) == Success(acc')
    ensures t in acc'.transitions <==> t in acc.transitions || Yields(rd, header, row, t)
  {
    var q := rd.state(row[0]).value.state;
    assert row[1..][..|row| - 1] == row[1..];
    var ts := CellTransitions(rd.configs, q, header, row[1..]).value;
    CellsYield(rd, header, row, |row| - 1, ts, t);
  }

  /** The first cell of `row` names `q` and marks it as accepting. */
  predicate AcceptRow(rd: Readers, row: Row, q: Symbol)
  {
    State(rd, row).Some? && State(rd, row).value.accept && State(rd, row).value.state == q
  }

  ghost predicate Accepting(rd: Readers, rows: seq<Row>, q: Symbol)
  {
    exists i | 0 <= i < |rows| :: AcceptRow(rd, rows[i], q)
  }

  /** What a successful run of the row loop has read. */
  lemma {:induction false} RowsSucceed(rd: Readers, header: seq<Tracks>, rows: seq<Row>, acc: Acc, acc': Acc)
    requires forall i | 0 <= i < |rows| :: |rows[i]| > 0
    requires Rows(rd, header, rows, acc) == Success(acc')
    ensures forall i | 0 <= i < |rows| :: |rows[i]| == |header| + 1 && State(rd, rows[i]).Some?
    ensures acc.start.Some? ==> Starts(rd, rows) == [] && acc'.start == acc.start
    ensures acc.start.None? && acc'.start.None? ==> Starts(rd, rows) == []
    ensures acc.start.None? && acc'.start.Some? ==> Starts(rd, rows) == [acc'.start.value]
    ensures forall q :: q in acc'.accepts <==> (q in acc.accepts || Accepting(rd, rows, q))
    ensures forall t :: t in acc'.transitions <==> (t in acc.transitions || exists i | 0 <= i < |rows| :: Yields(rd, header, rows[i], t))
    decreases |rows|
  {
    if rows != [] {
      var mid := RowStep(rd, header, rows[0], acc).value;
      RowsSucceed(rd, header, rows[1..], mid, acc');
      forall t ensures t in mid.transitions <==> t in acc.transitions || Yields(rd, header, rows[0], t) {
        RowYields(rd, header, rows[0], acc, mid, t);
      }
      assert forall i | 0 <= i < |rows| - 1 :: rows[1..][i] == rows[i + 1];
      forall t ensures t in acc'.transitions <==> (t in acc.transitions || exists i | 0 <= i < |rows| :: Yields(rd, header, rows[i], t)) {
        if exists i | 0 <= i < |rows| :: Yields(rd, header, rows[i], t) {
          var i :| 0 <= i < |rows| && Yields(rd, header, rows[i], t);
          if i > 0 {
            assert Yields(rd, header, rows[1..][i - 1], t);
          }
        }
      }
      forall q ensures q in acc'.accepts <==> (q in acc.accepts || Accepting(rd, rows, q)) {
        if Accepting(rd, rows, q) {
          var i :| 0 <= i < |rows| && AcceptRow(rd, rows[i], q);
          if i > 0 {
            assert AcceptRow(rd, rows[1..][i - 1], q);
          }
        }
      }
    }
  }

  /** The first row that is not blank is the header; the others are the body. */
  function Body(table: seq<Row>): seq<Row>
  {
    var etable := NonBlank(table);
    if etable == [] then [] else etable[1..]
  }

  /** Blank rows may appear anywhere without changing the result. */
  lemma BlankRowsIgnored(rd: Readers, a: seq<Row>, row: Row, b: seq<Row>)
    requires Blank(row)
    ensures FromTableSpec(rd, a + [row] + b) == FromTableSpec(rd, a + b)
  {
    BlankIgnored(a, row, b);
  }

  /** The table is rejected as empty exactly when every row is blank. */
  lemma EmptyTableMeaning(rd: Readers, table: seq<Row>)
    ensures FromTableSpec(rd, table) == Failure(EmptyTable) <==> forall i | 0 <= i < |table| :: Blank(table[i])
  {
    var etable := NonBlank(table);
    KeptRowsHaveCells(table);
    if etable != [] {
      NonBlankMeaning(table, etable[0]);
      if Header(rd, table).Some? {
        RowsNotEmpty(rd, Header(rd, table).value, etable[1..], Acc(None, {}, []));
      }
    } else {
      forall i | 0 <= i < |table| ensures Blank(table[i]) {
        NonBlankMeaning(table, table[i]);
      }
    }
  }

  lemma {:induction false} RowsNotEmpty(rd: Readers, header: seq<Tracks>, rows: seq<Row>, acc: Acc)
    requires forall i | 0 <= i < |rows| :: |rows[i]| > 0
    ensures Rows(rd, header, rows, acc) != Failure(EmptyTable)
    decreases |rows|
  {
    if rows != [] && RowStep(rd, header, rows[0], acc).Success? {
      RowsNotEmpty(rd, header, rows[1..], RowStep(rd, header, rows[0], acc).value);
    }
  }

  /** The result of the row loop on a table that is read. */
  lemma BodyRead(rd: Readers, table: seq<Row>) returns (acc: Acc)
    requires FromTableSpec(rd, table).Success?
    ensures NonBlank(table) != [] && Header(rd, table).Some?
    ensures forall i | 0 <= i < |Body(table)| :: |Body(table)[i]| > 0
    ensures Rows(rd, Header(rd, table).value, Body(table), Acc(None, {}, [])) == Success(acc)
    ensures FromTableSpec(rd, table).value == Machine(acc.start.value, acc.accepts, acc.transitions)
  {
    KeptRowsHaveCells(table);
    acc := Rows(rd, Header(rd, table).value, Body(table), Acc(None, {}, [])).value;
  }

  /** A table that is read has exactly one row marked as the start state, and it names the machine's start state. */
  lemma OneStart(rd: Readers, table: seq<Row>)
    requires FromTableSpec(rd, table).Success?
    ensures Starts(rd, Body(table)) == [FromTableSpec(rd, table).value.start]
  {
    var acc := BodyRead(rd, table);
    RowsSucceed(rd, Header(rd, table).value, Body(table), Acc(None, {}, []), acc);
  }

  /** In a table that is read, every body row has as many cells as the header row. */
  lemma RowsAligned(rd: Readers, table: seq<Row>)
    requires FromTableSpec(rd, table).Success?
    ensures NonBlank(table) != []
    ensures forall i | 0 <= i < |Body(table)| :: |Body(table)[i]| == |NonBlank(table)[0]|
  {
    var acc := BodyRead(rd, table);
    RowsSucceed(rd, Header(rd, table).value, Body(table), Acc(None, {}, []), acc);
  }

  /** The accept states are the states of the rows marked as accepting. */
  lemma AcceptRows(rd: Readers, table: seq<Row>, q: Symbol)
    requires FromTableSpec(rd, table).Success?
    ensures q in FromTableSpec(rd, table).value.accept <==> Accepting(rd, Body(table), q)
  {
    var acc := BodyRead(rd, table);
    RowsSucceed(rd, Header(rd, table).value, Body(table), Acc(None, {}, []), acc);
  }

  /** The transitions are exactly those the cells of the body rows yield under the header's conditions. */
  lemma TransitionCells(rd: Readers, table: seq<Row>, t: Transition)
    requires FromTableSpec(rd, table).Success?
    ensures Header(rd, table).Some?
    ensures t in FromTableSpec(rd, table).value.transitions <==>
      exists i | 0 <= i < |Body(table)| :: Yields(rd, Header(rd, table).value, Body(table)[i], t)
  {
    var acc := BodyRead(rd, table);
    RowsSucceed(rd, Header(rd, table).value, Body(table), Acc(None, {}, []), acc);
  }

  // ---------------------------------------------------------------------------
  // Writing cells.

  /** `','.join(map(str, config))`, with `show` standing for `str` on a store. */
  function ShowTracks(show: seq<Symbol> -> string, config: Tracks): string
  {
    Join(",", Shown(show, config))
  }

  function Shown(show: seq<Symbol> -> string, config: Tracks): (r: seq<string>)
    ensures |r| == |config| && forall k | 0 <= k < |config| :: r[k] == show(config[k])
  {
    if config == [] then [] else Shown(show, config[..|config| - 1]) + [show(config[|config| - 1])]
  }

  /** How one configuration is listed among several: a lone store bare, several in parentheses. */
  function Bracket(show: seq<Symbol> -> string, config: Tracks): string
  {
    if |config| == 1 then show(config[0]) else "(" + ShowTracks(show, config) + ")"
  }

  function Bracketed(show: seq<Symbol> -> string, configs: seq<Tracks>): (r: seq<string>)
    ensures |r| == |configs| && forall k | 0 <= k < |configs| :: r[k] == Bracket(show, configs[k])
  {
    if configs == [] then [] else Bracketed(show, configs[..|configs| - 1]) + [Bracket(show, configs[|configs| - 1])]
  }

  /** What `configs_to_string` writes in a cell. */
  function ConfigsString(show: seq<Symbol> -> string, configs: seq<Tracks>): string
  {
    if |configs| == 0 then ""
    else if |configs| == 1 then ShowTracks(show, configs[0])
    else
      OrdersTotal();
      "{" + Join(",", Bracketed(show, Sort(StoresLess(), configs))) + "}"
  }

  /** `configs_to_string`. */
  method ConfigsToString(show: seq<Symbol> -> string, configs: seq<Tracks>) returns (r: string)
    ensures r == ConfigsString(show, configs)
  {
    if |configs| == 0 {
      return "";
    }
    if |configs| == 1 {
      return ShowTracks(show, configs[0]);
    }
    OrdersTotal();
    var sorted := Sort(StoresLess(), configs);
    var strings: seq<string> := [];
    for k := 0 to |sorted|
      invariant strings == Bracketed(show, sorted[..k])
    {
      assert sorted[..k + 1][..k] == sorted[..k];
      strings := strings + [Bracket(show, sorted[k])];
    }
    assert sorted[..|sorted|] == sorted;
    r := "{" + Join(",", strings) + "}";
  }

  /** A cell does not depend on the order in which the machine lists its transitions. */
  lemma ConfigsOrderFree(show: seq<Symbol> -> string, a: seq<Tracks>, b: seq<Tracks>)
    requires multiset(a) == multiset(b)
    ensures ConfigsString(show, a) == ConfigsString(show, b)
  {
    OrdersTotal();
    assert |a| == |multiset(a)| == |multiset(b)| == |b|;
    if |a| == 1 {
      assert a[0] in multiset(b);
      assert a == [a[0]] && b == [b[0]];
    } else if |a| > 1 {
      SortPermutation(StoresLess(), a, b);
    }
  }

  /** An empty cell means no configuration, and several configurations are written in braces. */
  lemma ConfigsShape(show: seq<Symbol> -> string, configs: seq<Tracks>)
    ensures configs == [] ==> ConfigsString(show, configs) == ""
    ensures |configs| > 1 ==> var r := ConfigsString(show, configs); |r| >= 2 && r[0] == '{' && r[|r| - 1] == '}'
  {
  }

  // ---------------------------------------------------------------------------
  // `to_table`.

  /** A transition fits a table when its first store holds exactly one symbol, the state. */
  predicate Tabular(t: Transition)
  {
    |t.lhs| > 0 && |t.lhs[0]| == 1
  }

  /** The error raised for a transition that does not fit. */
  function Unfit(t: Transition): TableError
  {
    if |t.lhs| == 0 then MissingTrack else NotTabular
  }

  predicate AllTabular(ts: seq<Transition>)
  {
    forall i | 0 <= i < |ts| :: Tabular(ts[i])
  }

  /** The states transitions leave from. */
  function Sources(ts: seq<Transition>): (r: set<Symbol>)
    requires AllTabular(ts)
    ensures forall q :: q in r <==> exists i | 0 <= i < |ts| :: ts[i].lhs[0][0] == q
  {
    if ts == [] then {}
    else
      assert forall i | 0 <= i < |ts| - 1 :: ts[..|ts| - 1][i] == ts[i];
      Sources(ts[..|ts| - 1]) + {ts[|ts| - 1].lhs[0][0]}
  }

  /** The conditions on the other stores. */
  function Conditions(ts: seq<Transition>): (r: set<Tracks>)
    requires AllTabular(ts)
    ensures forall c :: c in r <==> exists i | 0 <= i < |ts| :: ts[i].lhs[1..] == c
  {
    if ts == [] then {}
    else
      assert forall i | 0 <= i < |ts| - 1 :: ts[..|ts| - 1][i] == ts[i];
      Conditions(ts[..|ts| - 1]) + {ts[|ts| - 1].lhs[1..]}
  }

  /** The right-hand sides of the transitions from `q` under condition `c`, in order. */
  function Cell(ts: seq<Transition>, q: Symbol, c: Tracks): (r: seq<Tracks>)
    requires AllTabular(ts)
    ensures forall rhs :: rhs in r <==> exists i | 0 <= i < |ts| :: ts[i].lhs[0][0] == q && ts[i].lhs[1..] == c && ts[i].rhs == rhs
  {
    if ts == [] then []
    else
      var t := ts[|ts| - 1];
      assert forall i | 0 <= i < |ts| - 1 :: ts[..|ts| - 1][i] == ts[i];
      Cell(ts[..|ts| - 1], q, c) + (if t.lhs[0][0] == q && t.lhs[1..] == c then [t.rhs] else [])
  }

  /** The states that get a row: the sources and the accept states, and with `withStart` the start state. */
  function Listed(m: Machine, withStart: bool): set<Symbol>
    requires AllTabular(m.transitions)
  {
    Sources(m.transitions) + m.accept + (if withStart then {m.start} else {})
  }

  /** A state's first cell: `>` marks the start state, then `@` an accept state. */
  function Label(m: Machine, q: Symbol): string
  {
    (if q in m.accept then "@" else "") + (if q == m.start then ">" else "") + q
  }

  function HeaderCells(show: seq<Symbol> -> string, conds: seq<Tracks>): (r: seq<string>)
    ensures |r| == |conds| && forall j | 0 <= j < |conds| :: r[j] == ShowTracks(show, conds[j])
  {
    seq(|conds|, j requires 0 <= j < |conds| => ShowTracks(show, conds[j]))
  }

  function RowCells(show: seq<Symbol> -> string, ts: seq<Transition>, q: Symbol, conds: seq<Tracks>): (r: seq<string>)
    requires AllTabular(ts)
    ensures |r| == |conds| && forall j | 0 <= j < |conds| :: r[j] == ConfigsString(show, Cell(ts, q, conds[j]))
  {
    seq(|conds|, j requires 0 <= j < |conds| => ConfigsString(show, Cell(ts, q, conds[j])))
  }

  function StateRows(show: seq<Symbol> -> string, m: Machine, qs: seq<Symbol>, conds: seq<Tracks>): (r: seq<Row>)
    requires AllTabular(m.transitions)
    ensures |r| == |qs| && forall i | 0 <= i < |qs| :: r[i] == [Label(m, qs[i])] + RowCells(show, m.transitions, qs[i], conds)
  {
    seq(|qs|, i requires 0 <= i < |qs| => [Label(m, qs[i])] + RowCells(show, m.transitions, qs[i], conds))
  }

  /** The table for states `qs` and conditions `conds`: the header, then one row per state. */
  function Render(show: seq<Symbol> -> string, m: Machine, qs: seq<Symbol>, conds: seq<Tracks>): seq<Row>
    requires AllTabular(m.transitions)
  {
    [[""] + HeaderCells(show, conds)] + StateRows(show, m, qs, conds)
  }

  /** `qs` and `conds` are what `sorted` makes of the states that get a row and of the conditions. */
  ghost predicate Arranged(m: Machine, withStart: bool, qs: seq<Symbol>, conds: seq<Tracks>)
    requires AllTabular(m.transitions)
  {
    && Ascending(StringLess(), qs) && (forall q :: q in qs <==> q in Listed(m, withStart))
    && Ascending(StoresLess(), conds) && (forall c :: c in conds <==> c in Conditions(m.transitions))
  }

  /** The elements of a set, each once, in the order the set is iterated. */
  method Enumerate<T>(s: set<T>) returns (r: seq<T>)
    ensures forall i, j | 0 <= i < j < |r| :: r[i] != r[j]
    ensures forall x :: x in r <==> x in s
  {
    r := [];
    var rest := s;
    while rest != {}
      invariant forall i, j | 0 <= i < j < |r| :: r[i] != r[j]
      invariant forall x :: x in r <==> x in s && x !in rest
      invariant rest <= s
      decreases rest
    {
      var x :| x in rest;
      r := r + [x];
      rest := rest - {x};
    }
  }

  function Entry(cells: map<(Symbol, Tracks), seq<Tracks>>, key: (Symbol, Tracks)): seq<Tracks>
  {
    if key in cells then cells[key] else []
  }

  lemma AllTabularStep(ts: seq<Transition>, t: Transition)
    requires AllTabular(ts) && Tabular(t)
    ensures AllTabular(ts + [t])
  {
    assert forall i | 0 <= i < |ts| :: (ts + [t])[i] == ts[i];
  }

  /** What one more transition adds to the sources and the conditions. */
  lemma SetsStep(ts: seq<Transition>, t: Transition)
    requires AllTabular(ts) && Tabular(t)
    ensures AllTabular(ts + [t])
    ensures Sources(ts + [t]) == Sources(ts) + {t.lhs[0][0]}
    ensures Conditions(ts + [t]) == Conditions(ts) + {t.lhs[1..]}
  {
    AllTabularStep(ts, t);
    assert (ts + [t])[..|ts|] == ts;
  }

  /** What one more transition adds to the cells. */
  lemma CellsStep(ts: seq<Transition>, t: Transition, cells: map<(Symbol, Tracks), seq<Tracks>>)
    requires AllTabular(ts) && Tabular(t)
    requires forall key {:trigger Entry(cells, key)} :: Entry(cells, key) == Cell(ts, key.0, key.1)
    ensures AllTabular(ts + [t])
    ensures var cells' := cells[(t.lhs[0][0], t.lhs[1..]) := Entry(cells, (t.lhs[0][0], t.lhs[1..])) + [t.rhs]];
      forall key {:trigger Entry(cells', key)} :: Entry(cells', key) == Cell(ts + [t], key.0, key.1)
  {
    AllTabularStep(ts, t);
    var ts' := ts + [t];
    assert ts'[..|ts|] == ts && ts'[|ts|] == t;
    var cells' := cells[(t.lhs[0][0], t.lhs[1..]) := Entry(cells, (t.lhs[0][0], t.lhs[1..])) + [t.rhs]];
    forall key ensures Entry(cells', key) == Cell(ts', key.0, key.1) {
      assert Cell(ts', key.0, key.1) == Cell(ts, key.0, key.1) + (if t.lhs[0][0] == key.0 && t.lhs[1..] == key.1 then [t.rhs] else []);
      if key == (t.lhs[0][0], t.lhs[1..]) {
        assert Entry(cells', key) == Entry(cells, key) + [t.rhs];
      } else {
        assert key.0 != t.lhs[0][0] || key.1 != t.lhs[1..];
        assert Entry(cells', key) == Entry(cells, key);
      }
    }
  }

  /** The loop over the transitions: the sources, the conditions and the cells. */
  method Collect(ts: seq<Transition>) returns (r: Result<(set<Symbol>, set<Tracks>, map<(Symbol, Tracks), seq<Tracks>>), TableError>)
    ensures r.Failure? <==> !AllTabular(ts)
    ensures r.Failure? ==> exists i | 0 <= i < |ts| :: !Tabular(ts[i]) && AllTabular(ts[..i]) && r.error == Unfit(ts[i])
    ensures r.Success? ==> r.value.0 == Sources(ts) && r.value.1 == Conditions(ts)
    ensures r.Success? ==> forall key {:trigger Entry(r.value.2, key)} :: Entry(r.value.2, key) == Cell(ts, key.0, key.1)
  {
    var states: set<Symbol> := {};
    var conditions: set<Tracks> := {};
    var cells: map<(Symbol, Tracks), seq<Tracks>> := map[];
    for i := 0 to |ts|
      invariant AllTabular(ts[..i])
      invariant states == Sources(ts[..i]) && conditions == Conditions(ts[..i])
      invariant forall key {:trigger Entry(cells, key)} :: Entry(cells, key) == Cell(ts[..i], key.0, key.1)
    {
      var t := ts[i];
      if |t.lhs| == 0 || |t.lhs[0]| != 1 {
        assert !Tabular(ts[i]);
        return Failure(Unfit(t));
      }
      assert ts[..i + 1] == ts[..i] + [t];
      SetsStep(ts[..i], t);
      CellsStep(ts[..i], t, cells);
      var q := t.lhs[0][0];
      var condition := t.lhs[1..];
      states := states + {q};
      conditions := conditions + {condition};
      cells := cells[(q, condition) := Entry(cells, (q, condition)) + [t.rhs]];
    }
    assert ts[..|ts|] == ts;
    r := Success((states, conditions, cells));
  }

  lemma Snoc<T>(prefix: seq<T>, s: seq<T>, j: nat)
    requires j < |s|
    ensures (prefix + s[..j]) + [s[j]] == prefix + s[..j + 1]
  {
    assert s[..j + 1] == s[..j] + [s[j]];
  }

  lemma Whole<T>(prefix: seq<T>, s: seq<T>)
    ensures prefix + s[..|s|] == prefix + s
  {
    assert s[..|s|] == s;
  }

  /** The row of state `q`: its label, then one cell per condition. */
  method WriteRow(show: seq<Symbol> -> string, m: Machine, cells: map<(Symbol, Tracks), seq<Tracks>>,
                  q: Symbol, conds: seq<Tracks>) returns (row: Row)
    requires AllTabular(m.transitions)
    requires forall key {:trigger Entry(cells, key)} :: Entry(cells, key) == Cell(m.transitions, key.0, key.1)
    ensures row == [Label(m, q)] + RowCells(show, m.transitions, q, conds)
  {
    ghost var target := RowCells(show, m.transitions, q, conds);
    row := [Label(m, q)];
    for j := 0 to |conds|
      invariant row == [Label(m, q)] + target[..j]
    {
      var cell := ConfigsToString(show, Entry(cells, (q, conds[j])));
      assert cell == target[j];
      Snoc([Label(m, q)], target, j);
      row := row + [cell];
    }
    Whole([Label(m, q)], target);
  }

  /** One row per state. */
  method WriteRows(show: seq<Symbol> -> string, m: Machine, cells: map<(Symbol, Tracks), seq<Tracks>>,
                   qs: seq<Symbol>, conds: seq<Tracks>) returns (rows: seq<Row>)
    requires AllTabular(m.transitions)
    requires forall key {:trigger Entry(cells, key)} :: Entry(cells, key) == Cell(m.transitions, key.0, key.1)
    ensures rows == StateRows(show, m, qs, conds)
  {
    ghost var target := StateRows(show, m, qs, conds);
    rows := [];
    for i := 0 to |qs|
      invariant rows == [] + target[..i]
    {
      var row := WriteRow(show, m, cells, qs[i], conds);
      assert row == target[i];
      Snoc([], target, i);
      rows := rows + [row];
    }
    Whole([], target);
  }

  /** The header row: an empty corner, then each condition. */
  method WriteHeader(show: seq<Symbol> -> string, conds: seq<Tracks>) returns (header: Row)
    ensures header == [""] + HeaderCells(show, conds)
  {
    ghost var target := HeaderCells(show, conds);
    header := [""];
    for j := 0 to |conds|
      invariant header == [""] + target[..j]
    {
      Snoc([""], target, j);
      header := header + [ShowTracks(show, conds[j])];
    }
    Whole([""], target);
  }

  /** `to_table`; `withStart` also gives the start state a row. */
  method ToTableWith(show: seq<Symbol> -> string, m: Machine, withStart: bool) returns (r: Result<seq<Row>, TableError>)
    ensures r.Failure? <==> !AllTabular(m.transitions)
    ensures r.Failure? ==> exists i | 0 <= i < |m.transitions| ::
      !Tabular(m.transitions[i]) && AllTabular(m.transitions[..i]) && r.error == Unfit(m.transitions[i])
    ensures r.Success? ==> AllTabular(m.transitions) && exists qs, conds ::
      Arranged(m, withStart, qs, conds) && r.value == Render(show, m, qs, conds)
  {
    var collected := Collect(m.transitions);
    if collected.Failure? {
      return Failure(collected.error);
    }
    var (states, conditions, cells) := collected.value;
    states := states + m.accept;
    if withStart {
      states := states + {m.start};
    }
    OrdersTotal();
    var condList := Enumerate(conditions);
    SortSet(StoresLess(), condList, conditions);
    var conds := Sort(StoresLess(), condList);
    var header := WriteHeader(show, conds);
    var stateList := Enumerate(states);
    SortSet(StringLess(), stateList, states);
    var qs := Sort(StringLess(), stateList);
    var rows := WriteRows(show, m, cells, qs, conds);
    assert Arranged(m, withStart, qs, conds);
    r := Success([header] + rows);
  }

  /** `to_table` as written: the states that get a row are the sources and the accept states. */
  method ToTableAsWritten(show: seq<Symbol> -> string, m: Machine) returns (r: Result<seq<Row>, TableError>)
    ensures r.Failure? <==> !AllTabular(m.transitions)
    ensures r.Failure? ==> exists i | 0 <= i < |m.transitions| ::
      !Tabular(m.transitions[i]) && AllTabular(m.transitions[..i]) && r.error == Unfit(m.transitions[i])
    ensures r.Success? ==> AllTabular(m.transitions) && exists qs, conds ::
      Arranged(m, false, qs, conds) && r.value == Render(show, m, qs, conds)
  {
    r := ToTableWith(show, m, false);
  }

  /** `to_table` with the start state always given a row. */
  method ToTable(show: seq<Symbol> -> string, m: Machine) returns (r: Result<seq<Row>, TableError>)
    ensures r.Failure? <==> !AllTabular(m.transitions)
    ensures r.Failure? ==> exists i | 0 <= i < |m.transitions| ::
      !Tabular(m.transitions[i]) && AllTabular(m.transitions[..i]) && r.error == Unfit(m.transitions[i])
    ensures r.Success? ==> AllTabular(m.transitions) && exists qs, conds ::
      Arranged(m, true, qs, conds) && r.value == Render(show, m, qs, conds)
  {
    r := ToTableWith(show, m, true);
  }

  // ---------------------------------------------------------------------------
  // Reading a written table back.

  /** `s` has a character `str.strip` keeps. */
  predicate Visible(s: string)
  {
    exists k | 0 <= k < |s| :: !IsSpace(s[k])
  }

  /**
   * The readers undo the writing: a condition's cell reads as the condition, a label as its
   * state and attributes, and a cell as a rearrangement of the right-hand sides listed in it.
   */
  ghost predicate ReadsBack(rd: Readers, show: seq<Symbol> -> string, m: Machine, qs: seq<Symbol>, conds: seq<Tracks>)
    requires AllTabular(m.transitions)
  {
    && (forall c | c in conds :: rd.config(ShowTracks(show, c)) == Some(c))
    && (forall q | q in qs :: rd.state(Label(m, q)) == Some(StateCell(q, q == m.start, q in m.accept)))
    && (forall q | q in qs :: CellsReadBack(rd, show, m.transitions, q, conds))
  }

  /** Each cell of state `q`'s row reads as a rearrangement of the right-hand sides listed in it. */
  ghost predicate CellsReadBack(rd: Readers, show: seq<Symbol> -> string, ts: seq<Transition>, q: Symbol, conds: seq<Tracks>)
    requires AllTabular(ts)
  {
    forall c | c in conds ::
      && rd.configs(ConfigsString(show, Cell(ts, q, c))).Some?
      && multiset(rd.configs(ConfigsString(show, Cell(ts, q, c))).value) == multiset(Cell(ts, q, c))
  }

  lemma {:induction false} NoBlankRows(table: seq<Row>)
    requires forall i | 0 <= i < |table| :: !Blank(table[i])
    ensures NonBlank(table) == table
    decreases |table|
  {
    if table != [] {
      var init, last := table[..|table| - 1], table[|table| - 1];
      assert forall i | 0 <= i < |init| :: init[i] == table[i];
      NoBlankRows(init);
      assert !Blank(last);
      assert init + [last] == table;
    }
  }

  /** A row with a visible cell is not blank. */
  lemma VisibleCell(row: Row, j: nat)
    requires j < |row| && Visible(row[j])
    ensures !Blank(row)
  {
    var k :| 0 <= k < |row[j]| && !IsSpace(row[j][k]);
  }

  lemma LabelVisible(m: Machine, q: Symbol)
    requires Visible(q)
    ensures Visible(Label(m, q))
  {
    var prefix := (if q in m.accept then "@" else "") + (if q == m.start then ">" else "");
    var k :| 0 <= k < |q| && !IsSpace(q[k]);
    assert Label(m, q)[|prefix| + k] == q[k];
  }

  /** No row of the table is blank when some condition and every state is written visibly. */
  lemma RenderVisible(show: seq<Symbol> -> string, m: Machine, qs: seq<Symbol>, conds: seq<Tracks>)
    requires AllTabular(m.transitions)
    requires exists j | 0 <= j < |conds| :: Visible(ShowTracks(show, conds[j]))
    requires forall q | q in qs :: Visible(q)
    ensures forall i | 0 <= i < |Render(show, m, qs, conds)| :: !Blank(Render(show, m, qs, conds)[i])
  {
    var rows := StateRows(show, m, qs, conds);
    var header := [""] + HeaderCells(show, conds);
    var j :| 0 <= j < |conds| && Visible(ShowTracks(show, conds[j]));
    assert header[j + 1] == ShowTracks(show, conds[j]);
    FirstCells(show, m, qs, conds);
    LabelsVisible(m, qs);
    TableVisible(header, rows, j + 1);
  }

  lemma FirstCells(show: seq<Symbol> -> string, m: Machine, qs: seq<Symbol>, conds: seq<Tracks>)
    requires AllTabular(m.transitions)
    ensures forall i | 0 <= i < |qs| :: |StateRows(show, m, qs, conds)[i]| > 0 && StateRows(show, m, qs, conds)[i][0] == Label(m, qs[i])
  {
    var rows := StateRows(show, m, qs, conds);
    forall i | 0 <= i < |qs| ensures |rows[i]| > 0 && rows[i][0] == Label(m, qs[i]) {
      assert rows[i] == [Label(m, qs[i])] + RowCells(show, m.transitions, qs[i], conds);
    }
  }

  lemma LabelsVisible(m: Machine, qs: seq<Symbol>)
    requires forall q | q in qs :: Visible(q)
    ensures forall i | 0 <= i < |qs| :: Visible(Label(m, qs[i]))
  {
    forall i | 0 <= i < |qs| ensures Visible(Label(m, qs[i])) {
      assert qs[i] in qs;
      LabelVisible(m, qs[i]);
    }
  }

  /** A header with a visible cell and rows with a visible first cell make a table with no blank row. */
  lemma TableVisible(header: Row, rows: seq<Row>, j: nat)
    requires j < |header| && Visible(header[j])
    requires forall i | 0 <= i < |rows| :: |rows[i]| > 0 && Visible(rows[i][0])
    ensures forall i | 0 <= i < |[header] + rows| :: !Blank(([header] + rows)[i])
  {
    VisibleCell(header, j);
    forall i | 0 <= i < |[header] + rows| ensures !Blank(([header] + rows)[i]) {
      if i > 0 {
        assert ([header] + rows)[i] == rows[i - 1];
        VisibleCell(rows[i - 1], 0);
      }
    }
  }

  /** Every cell of the rows can be read, and each row has one more cell than the header. */
  ghost predicate Readable(rd: Readers, header: seq<Tracks>, rows: seq<Row>)
  {
    forall i | 0 <= i < |rows| ::
      && |rows[i]| == |header| + 1
      && rd.state(rows[i][0]).Some?
      && forall j | 1 <= j < |rows[i]| :: rd.configs(rows[i][j]).Some?
  }

  /** Rows whose cells can all be read, with at most one start mark in all, are read. */
  lemma {:induction false} RowsRead(rd: Readers, header: seq<Tracks>, rows: seq<Row>, acc: Acc)
    requires Readable(rd, header, rows)
    requires |Starts(rd, rows)| + (if acc.start.Some? then 1 else 0) <= 1
    ensures forall i | 0 <= i < |rows| :: |rows[i]| > 0
    ensures Rows(rd, header, rows, acc).Success?
    ensures Rows(rd, header, rows, acc).value.start
      == if acc.start.Some? then acc.start else if Starts(rd, rows) == [] then None else Some(Starts(rd, rows)[0])
    decreases |rows|
  {
    if rows != [] {
      var row := rows[0];
      var cell := rd.state(row[0]).value;
      assert forall j | 0 <= j < |row[1..]| :: rd.configs(row[1..][j]).Some? by {
        forall j | 0 <= j < |row[1..]| ensures rd.configs(row[1..][j]).Some? {
          assert row[1..][j] == row[j + 1];
        }
      }
      var next := StepSucceeds(rd, header, row, acc, cell);
      assert Readable(rd, header, rows[1..]) by {
        forall i | 0 <= i < |rows[1..]| ensures rows[1..][i] == rows[i + 1] { }
      }
      RowsRead(rd, header, rows[1..], next);
      RowsCons(rd, header, rows, acc, next);
    }
  }

  /** Rows whose first cells read as distinct states carry the start mark exactly on the start state's row. */
  lemma {:induction false} StartsByLabel(rd: Readers, rows: seq<Row>, qs: seq<Symbol>, start: Symbol)
    requires |rows| == |qs| && forall i, j | 0 <= i < j < |qs| :: qs[i] != qs[j]
    requires forall i | 0 <= i < |rows| ::
      (&& State(rd, rows[i]).Some? && State(rd, rows[i]).value.state == qs[i]
       && (State(rd, rows[i]).value.start <==> qs[i] == start))
    ensures Starts(rd, rows) == if start in qs then [start] else []
    decreases |rows|
  {
    if rows != [] {
      DistinctTail(qs);
      assert forall i | 0 <= i < |rows| - 1 :: rows[1..][i] == rows[i + 1] && qs[1..][i] == qs[i + 1];
      StartsByLabel(rd, rows[1..], qs[1..], start);
      assert qs == [qs[0]] + qs[1..];
    }
  }

  /** The first cell of each state row is the state's label. */
  lemma RowLabels(rd: Readers, show: seq<Symbol> -> string, m: Machine, qs: seq<Symbol>, conds: seq<Tracks>)
    requires AllTabular(m.transitions)
    requires forall q | q in qs :: rd.state(Label(m, q)) == Some(StateCell(q, q == m.start, q in m.accept))
    ensures forall i | 0 <= i < |qs| :: State(rd, StateRows(show, m, qs, conds)[i]) == Some(StateCell(qs[i], qs[i] == m.start, qs[i] in m.accept))
  {
    var rows := StateRows(show, m, qs, conds);
    forall i | 0 <= i < |qs| ensures State(rd, rows[i]) == Some(StateCell(qs[i], qs[i] == m.start, qs[i] in m.accept)) {
      assert qs[i] in qs;
      assert rows[i][0] == Label(m, qs[i]);
    }
  }

  /** Each cell of `row` after the first reads as a rearrangement of the right-hand sides listed under `q` and the column's condition. */
  ghost predicate RowReadsBack(rd: Readers, ts: seq<Transition>, q: Symbol, conds: seq<Tracks>, row: Row)
    requires AllTabular(ts)
  {
    && |row| == |conds| + 1
    && forall j | 1 <= j < |row| ::
         rd.configs(row[j]).Some? && multiset(rd.configs(row[j]).value) == multiset(Cell(ts, q, conds[j - 1]))
  }

  /** Under readers that undo the writing, every cell of a state's row reads back. */
  lemma RowReadable(rd: Readers, show: seq<Symbol> -> string, m: Machine, q: Symbol, conds: seq<Tracks>)
    requires AllTabular(m.transitions) && CellsReadBack(rd, show, m.transitions, q, conds)
    ensures RowReadsBack(rd, m.transitions, q, conds, [Label(m, q)] + RowCells(show, m.transitions, q, conds))
  {
    var cells := RowCells(show, m.transitions, q, conds);
    forall j | 0 <= j < |cells|
      ensures rd.configs(cells[j]).Some? && multiset(rd.configs(cells[j]).value) == multiset(Cell(m.transitions, q, conds[j]))
    {
      assert conds[j] in conds;
    }
  }

  /** A row whose state cell and cells can be read, and that repeats no start state, is read. */
  lemma StepSucceeds(rd: Readers, header: seq<Tracks>, row: Row, acc: Acc, cell: StateCell) returns (next: Acc)
    requires |row| == |header| + 1 && rd.state(row[0]) == Some(cell)
    requires forall j | 0 <= j < |row[1..]| :: rd.configs(row[1..][j]).Some?
    requires !(cell.start && acc.start.Some?)
    ensures RowStep(rd, header, row, acc) == Success(next)
    ensures next.start == if cell.start then Some(cell.state) else acc.start
  {
    next := RowStep(rd, header, row, acc).value;
  }

  lemma DistinctTail<T>(s: seq<T>)
    requires s != [] && forall i, j | 0 <= i < j < |s| :: s[i] != s[j]
    ensures forall i, j | 0 <= i < j < |s[1..]| :: s[1..][i] != s[1..][j]
    ensures s[0] !in s[1..]
  {
    forall i, j | 0 <= i < j < |s[1..]| ensures s[1..][i] != s[1..][j] {
      assert s[1..][i] == s[i + 1] && s[1..][j] == s[j + 1];
    }
  }

  lemma RowsCons(rd: Readers, header: seq<Tracks>, rows: seq<Row>, acc: Acc, next: Acc)
    requires rows != [] && forall i | 0 <= i < |rows| :: |rows[i]| > 0
    requires RowStep(rd, header, rows[0], acc) == Success(next)
    ensures Rows(rd, header, rows, acc) == Rows(rd, header, rows[1..], next)
  {
  }

  /** The header of a written table reads back as its conditions. */
  lemma HeaderReadBack(rd: Readers, show: seq<Symbol> -> string, conds: seq<Tracks>)
    requires forall c | c in conds :: rd.config(ShowTracks(show, c)) == Some(c)
    ensures ReadAll(rd.config, HeaderCells(show, conds)) == Some(conds)
  {
    var cells := HeaderCells(show, conds);
    forall j | 0 <= j < |cells| ensures rd.config(cells[j]) == Some(conds[j]) {
      assert conds[j] in conds;
    }
    var r := ReadAll(rd.config, cells);
    assert r.Some?;
    assert |r.value| == |conds|;
    assert forall j | 0 <= j < |conds| :: r.value[j] == conds[j];
    assert r.value == conds;
  }

  /** A transition that fits a table is its state followed by its condition. */
  lemma TabularShape(t: Transition)
    requires Tabular(t)
    ensures t.lhs == [[t.lhs[0][0]]] + t.lhs[1..]
  {
    assert t.lhs[0] == [t.lhs[0][0]];
  }

  /** Every right-hand side listed in a cell comes from a transition with that state and condition. */
  lemma CellSource(ts: seq<Transition>, q: Symbol, c: Tracks, rhs: Tracks)
    requires AllTabular(ts) && rhs in Cell(ts, q, c)
    ensures Transition([[q]] + c, rhs) in ts
  {
    var n :| 0 <= n < |ts| && ts[n].lhs[0][0] == q && ts[n].lhs[1..] == c && ts[n].rhs == rhs;
    TabularShape(ts[n]);
  }

  /** What a row that reads back yields is a transition of the machine from the row's state. */
  lemma RowYieldsOnly(rd: Readers, ts: seq<Transition>, q: Symbol, conds: seq<Tracks>, row: Row, t: Transition)
    requires AllTabular(ts) && RowReadsBack(rd, ts, q, conds, row)
    requires State(rd, row).Some? && State(rd, row).value.state == q
    requires Yields(rd, conds, row, t)
    ensures t in ts && t.lhs[0] == [q]
  {
    var j, k :| 1 <= j < |row| && j <= |conds| && rd.configs(row[j]).Some?
      && 0 <= k < |rd.configs(row[j]).value|
      && t == Transition([[q]] + conds[j - 1], rd.configs(row[j]).value[k]);
    var rhss := rd.configs(row[j]).value;
    assert rhss[k] in multiset(rhss);
    CellSource(ts, q, conds[j - 1], rhss[k]);
  }

  /** A row that reads back yields every transition of the machine from the row's state. */
  lemma RowYieldsAll(rd: Readers, ts: seq<Transition>, q: Symbol, conds: seq<Tracks>, row: Row, t: Transition)
    requires AllTabular(ts) && RowReadsBack(rd, ts, q, conds, row)
    requires State(rd, row).Some? && State(rd, row).value.state == q
    requires forall c :: c in conds <==> c in Conditions(ts)
    requires t in ts && t.lhs[0] == [q]
    ensures Yields(rd, conds, row, t)
  {
    var c := t.lhs[1..];
    assert c in Conditions(ts);
    var j :| 0 <= j < |conds| && conds[j] == c;
    assert t.rhs in Cell(ts, q, c);
    var rhss := rd.configs(row[j + 1]).value;
    assert t.rhs in multiset(rhss);
    var k :| 0 <= k < |rhss| && rhss[k] == t.rhs;
    TabularShape(t);
    assert t == Transition([[q]] + conds[j], rhss[k]);
  }

  /** What is known of the rows of a written table: row `i` names state `qs[i]` with its attributes, and its cells read back. */
  ghost predicate RowsOfStates(rd: Readers, m: Machine, qs: seq<Symbol>, conds: seq<Tracks>, rows: seq<Row>)
    requires AllTabular(m.transitions)
  {
    && |rows| == |qs|
    && forall i | 0 <= i < |rows| ::
         && State(rd, rows[i]) == Some(StateCell(qs[i], qs[i] == m.start, qs[i] in m.accept))
         && RowReadsBack(rd, m.transitions, qs[i], conds, rows[i])
  }

  /** Under readers that undo the writing, the state rows of a written table are such rows. */
  lemma RenderRows(rd: Readers, show: seq<Symbol> -> string, m: Machine, qs: seq<Symbol>, conds: seq<Tracks>)
    requires AllTabular(m.transitions) && ReadsBack(rd, show, m, qs, conds)
    ensures RowsOfStates(rd, m, qs, conds, StateRows(show, m, qs, conds))
  {
    var rows := StateRows(show, m, qs, conds);
    RowLabels(rd, show, m, qs, conds);
    forall i | 0 <= i < |qs| ensures RowReadsBack(rd, m.transitions, qs[i], conds, rows[i]) {
      assert qs[i] in qs;
      RowReadable(rd, show, m, qs[i], conds);
    }
  }

  /** The rows marked as accepting are those of the accept states. */
  lemma AcceptsOfRows(rd: Readers, m: Machine, qs: seq<Symbol>, conds: seq<Tracks>, rows: seq<Row>)
    requires AllTabular(m.transitions) && RowsOfStates(rd, m, qs, conds, rows)
    requires forall q | q in m.accept :: q in qs
    ensures forall q :: Accepting(rd, rows, q) <==> q in m.accept
  {
    forall q ensures Accepting(rd, rows, q) <==> q in m.accept {
      if q in m.accept {
        var i :| 0 <= i < |qs| && qs[i] == q;
        assert AcceptRow(rd, rows[i], q);
      }
    }
  }

  /** The rows together yield exactly the machine's transitions. */
  lemma TransitionsOfRows(rd: Readers, m: Machine, qs: seq<Symbol>, conds: seq<Tracks>, rows: seq<Row>)
    requires AllTabular(m.transitions) && RowsOfStates(rd, m, qs, conds, rows)
    requires forall q | q in Sources(m.transitions) :: q in qs
    requires forall c :: c in conds <==> c in Conditions(m.transitions)
    ensures forall t :: (exists i | 0 <= i < |rows| :: Yields(rd, conds, rows[i], t)) <==> t in m.transitions
  {
    forall t ensures (exists i | 0 <= i < |rows| :: Yields(rd, conds, rows[i], t)) <==> t in m.transitions {
      if exists i | 0 <= i < |rows| :: Yields(rd, conds, rows[i], t) {
        var i :| 0 <= i < |rows| && Yields(rd, conds, rows[i], t);
        RowYieldsOnly(rd, m.transitions, qs[i], conds, rows[i], t);
      }
      if t in m.transitions {
        var q := t.lhs[0][0];
        assert q in Sources(m.transitions);
        var i :| 0 <= i < |qs| && qs[i] == q;
        assert t.lhs[0] == [q];
        RowYieldsAll(rd, m.transitions, q, conds, rows[i], t);
      }
    }
  }

  /** Reading such rows gives the machine's start state, accept states and transitions. */
  lemma ReadRowsBack(rd: Readers, m: Machine, qs: seq<Symbol>, conds: seq<Tracks>, rows: seq<Row>) returns (acc: Acc)
    requires AllTabular(m.transitions) && RowsOfStates(rd, m, qs, conds, rows)
    requires forall i, j | 0 <= i < j < |qs| :: qs[i] != qs[j]
    requires forall q :: q in qs <==> q in Listed(m, true)
    requires forall c :: c in conds <==> c in Conditions(m.transitions)
    ensures forall i | 0 <= i < |rows| :: |rows[i]| > 0
    ensures Rows(rd, conds, rows, Acc(None, {}, [])) == Success(acc)
    ensures acc.start == Some(m.start) && acc.accepts == m.accept
    ensures forall t :: t in acc.transitions <==> t in m.transitions
  {
    assert Readable(rd, conds, rows) by {
      forall i | 0 <= i < |rows| ensures rd.state(rows[i][0]).Some? {
        assert State(rd, rows[i]).Some?;
      }
    }
    StartsByLabel(rd, rows, qs, m.start);
    assert m.start in qs;
    RowsRead(rd, conds, rows, Acc(None, {}, []));
    acc := Rows(rd, conds, rows, Acc(None, {}, [])).value;
    RowsSucceed(rd, conds, rows, Acc(None, {}, []), acc);
    AcceptsOfRows(rd, m, qs, conds, rows);
    TransitionsOfRows(rd, m, qs, conds, rows);
  }

  /** A written table whose header and state labels are visible has no blank row, and its header reads back. */
  lemma RenderShape(rd: Readers, show: seq<Symbol> -> string, m: Machine, qs: seq<Symbol>, conds: seq<Tracks>)
    requires AllTabular(m.transitions)
    requires forall c | c in conds :: rd.config(ShowTracks(show, c)) == Some(c)
    requires exists j | 0 <= j < |conds| :: Visible(ShowTracks(show, conds[j]))
    requires forall q | q in qs :: Visible(q)
    ensures NonBlank(Render(show, m, qs, conds)) == Render(show, m, qs, conds)
    ensures Header(rd, Render(show, m, qs, conds)) == Some(conds)
    ensures Body(Render(show, m, qs, conds)) == StateRows(show, m, qs, conds)
  {
    var table := Render(show, m, qs, conds);
    RenderVisible(show, m, qs, conds);
    NoBlankRows(table);
    assert table[0][1..] == HeaderCells(show, conds);
    HeaderReadBack(rd, show, conds);
  }

  /**
   * Writing a machine as a table (giving the start state a row) and reading the table back
   * gives the same start state, the same accept states and the same transitions.
   */
  lemma RoundTrip(rd: Readers, show: seq<Symbol> -> string, m: Machine, qs: seq<Symbol>, conds: seq<Tracks>)
    requires AllTabular(m.transitions) && Arranged(m, true, qs, conds) && ReadsBack(rd, show, m, qs, conds)
    requires exists j | 0 <= j < |conds| :: Visible(ShowTracks(show, conds[j]))
    requires forall q | q in qs :: Visible(q)
    ensures FromTableSpec(rd, Render(show, m, qs, conds)).Success?
    ensures FromTableSpec(rd, Render(show, m, qs, conds)).value.start == m.start
    ensures FromTableSpec(rd, Render(show, m, qs, conds)).value.accept == m.accept
    ensures forall t :: t in FromTableSpec(rd, Render(show, m, qs, conds)).value.transitions <==> t in m.transitions
  {
    var table := Render(show, m, qs, conds);
    var rows := StateRows(show, m, qs, conds);
    RenderShape(rd, show, m, qs, conds);
    OrdersTotal();
    AscendingDistinct(StringLess(), qs);
    RenderRows(rd, show, m, qs, conds);
    var acc := ReadRowsBack(rd, m, qs, conds, rows);
    assert FromTableSpec(rd, table) == Success(Machine(m.start, acc.accepts, acc.transitions));
  }

  // ---------------------------------------------------------------------------
  // The start state is lost when it gets no row.

  /**
   * As written, `to_table` gives rows only to the sources of transitions and to the accept
   * states; a start state that is neither is not marked anywhere, and reading the table back
   * fails for want of a start state.
   */
  lemma StartLost(rd: Readers, show: seq<Symbol> -> string, m: Machine, qs: seq<Symbol>, conds: seq<Tracks>)
    requires AllTabular(m.transitions) && Arranged(m, false, qs, conds) && ReadsBack(rd, show, m, qs, conds)
    requires exists j | 0 <= j < |conds| :: Visible(ShowTracks(show, conds[j]))
    requires forall q | q in qs :: Visible(q)
    requires m.start !in Listed(m, false)
    ensures FromTableSpec(rd, Render(show, m, qs, conds)) == Failure(MissingStart)
  {
    RenderShape(rd, show, m, qs, conds);
    OrdersTotal();
    AscendingDistinct(StringLess(), qs);
    RenderRows(rd, show, m, qs, conds);
    RowsWithoutStart(rd, m, qs, conds, StateRows(show, m, qs, conds));
  }

  /** Rows of states none of which is the start state are read, and give no start state. */
  lemma RowsWithoutStart(rd: Readers, m: Machine, qs: seq<Symbol>, conds: seq<Tracks>, rows: seq<Row>)
    requires AllTabular(m.transitions) && RowsOfStates(rd, m, qs, conds, rows)
    requires forall i, j | 0 <= i < j < |qs| :: qs[i] != qs[j]
    requires m.start !in qs
    ensures Rows(rd, conds, rows, Acc(None, {}, [])).Success?
    ensures Rows(rd, conds, rows, Acc(None, {}, [])).value.start == None
  {
    assert Readable(rd, conds, rows) by {
      forall i | 0 <= i < |rows| ensures rd.state(rows[i][0]).Some? {
        assert State(rd, rows[i]).Some?;
      }
    }
    StartsByLabel(rd, rows, qs, m.start);
    RowsRead(rd, conds, rows, Acc(None, {}, []));
  }

  /** The smallest case: a machine with one state and no transitions is written as a lone blank row. */
  lemma ExampleStartLost(rd: Readers, show: seq<Symbol> -> string, qs: seq<Symbol>, conds: seq<Tracks>)
    requires Arranged(Machine("q0", {}, []), false, qs, conds)
    ensures Render(show, Machine("q0", {}, []), qs, conds) == [[""]]
    ensures FromTableSpec(rd, Render(show, Machine("q0", {}, []), qs, conds)) == Failure(EmptyTable)
  {
    var m := Machine("q0", {}, []);
    NoElement(qs, Listed(m, false));
    NoElement(conds, Conditions(m.transitions));
    assert HeaderCells(show, conds) == [] && StateRows(show, m, qs, conds) == [];
    assert [""] + HeaderCells(show, conds) == [""];
    assert Render(show, m, qs, conds) == [[""]];
    assert Blank([""]);
    assert NonBlank([[""]]) == NonBlank([]);
  }

  /**
   * A machine without transitions has no conditions, so even with a row for the start state
   * its header is blank; `from_table` skips it and takes the start state's row for the header.
   */
  lemma ExampleBlankHeader(rd: Readers, show: seq<Symbol> -> string, qs: seq<Symbol>, conds: seq<Tracks>)
    requires Arranged(Machine("q0", {}, []), true, qs, conds)
    ensures Render(show, Machine("q0", {}, []), qs, conds) == [[""], [">q0"]]
    ensures FromTableSpec(rd, Render(show, Machine("q0", {}, []), qs, conds)) == Failure(MissingStart)
  {
    var m := Machine("q0", {}, []);
    NoElement(conds, Conditions(m.transitions));
    assert forall q :: q in qs <==> q == "q0";
    OnlyElement(qs, "q0");
    assert Label(m, "q0") == ">q0";
    assert HeaderCells(show, conds) == [] && RowCells(show, m.transitions, "q0", conds) == [];
    assert [""] + HeaderCells(show, conds) == [""];
    assert [Label(m, "q0")] + RowCells(show, m.transitions, "q0", conds) == [">q0"];
    assert StateRows(show, m, qs, conds) == [[">q0"]];
    assert Render(show, m, qs, conds) == [[""], [">q0"]];
    HeaderOnly(rd);
  }

  lemma HeaderOnly(rd: Readers)
    ensures FromTableSpec(rd, [[""], [">q0"]]) == Failure(MissingStart)
  {
    BlankHeaderDropped();
    assert Header(rd, [[""], [">q0"]]) == Some([]) by {
      assert [">q0"][1..] == [];
    }
    assert [[">q0"]][1..] == [];
  }

  lemma BlankHeaderDropped()
    ensures NonBlank([[""], [">q0"]]) == [[">q0"]]
  {
    assert Blank([""]);
    assert !Blank([">q0"]) by {
      assert !IsSpace([">q0"][0][0]);
    }
    assert [[""], [">q0"]][..1] == [[""]];
    assert NonBlank([[""]]) == NonBlank([]);
  }

  /** A strictly ascending sequence of strings whose only element is `x` is `[x]`. */
  lemma OnlyElement(s: seq<string>, x: string)
    requires Ascending(StringLess(), s) && forall y :: y in s <==> y == x
    ensures s == [x]
  {
    assert x in s;
    if |s| > 1 {
      assert s[0] in s && s[1] in s;
      CharLessTotal();
      LexIrreflexive(CharLess, x);
      assert false;
    }
  }

  lemma NoElement<T>(s: seq<T>, e: set<T>)
    requires e == {} && forall x :: x in s <==> x in e
    ensures s == []
  {
    FirstIn(s, e);
  }

  lemma FirstIn<T>(s: seq<T>, e: set<T>)
    requires forall x :: x in s <==> x in e
    ensures |s| > 0 ==> s[0] in e
  {
    assert |s| > 0 ==> s[0] in s;
  }
}
