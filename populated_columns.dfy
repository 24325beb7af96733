/** The "show populated columns" dialog: every column is first reset to
    visible and unpinned; a scan of the cycle's inventory then strikes off
    each column some record fills in, and the columns left over are hidden.
    The grid settings saved afterwards list the visible columns, then the
    hidden ones. */
module PopulatedColumns {

  /** A value read from an inventory record. */
  datatype Cell = Undefined | Null | Str(s: string) | Num(x: real) | Bool(b: bool)

  /** One inventory record (or one related record), by column database name. */
  type Row = map<string, Cell>

  /** A record as the inventory service returns it, with its related records. */
  datatype Record = Record(fields: Row, related: seq<Row>)

  datatype ColumnSetting = ColumnSetting(name: string, dbName: string, table: string, related: bool,
                                         visible: bool, pinnedLeft: bool)

  datatype InventoryType = Properties | TaxLots

  datatype State = Idle | Running | Done

  datatype Status = NoStatus | Fetching | Processing(columns: nat, records: nat) | Found(populated: nat)

  /** `notEmpty`: anything but null, undefined and the empty string. */
  predicate NotEmpty(v: Cell)
  {
    match v
    case Undefined => false
    case Null => false
    case Str(s) => s != ""
    case _ => true
  }

  /** `record[name]`: undefined when the record has no such key. */
  function Get(row: Row, name: string): (v: Cell)
    ensures name !in row ==> v == Undefined
    ensures name in row ==> v == row[name]
  {
    if name in row then row[name] else Undefined
  }

  /** Some row holds a non-empty value under `name`. */
  predicate Populated(rows: seq<Row>, name: string)
  {
    exists k :: 0 <= k < |rows| && NotEmpty(Get(rows[k], name))
  }

  /** The records' own rows. */
  function FieldRows(inventory: seq<Record>): (rows: seq<Row>)
    ensures |rows| == |inventory|
    ensures forall k :: 0 <= k < |rows| ==> rows[k] == inventory[k].fields
  {
    seq(|inventory|, k requires 0 <= k < |inventory| => inventory[k].fields)
  }

  /** All the records' related rows, record by record. */
  function RelatedRows(inventory: seq<Record>): seq<Row>
  {
    if inventory == [] then []
    else RelatedRows(inventory[..|inventory| - 1]) + inventory[|inventory| - 1].related
  }

  /** `_.find(cs, {dbName: c.dbName, table: c.table})` finds something. */
  predicate HasPair(cs: seq<ColumnSetting>, c: ColumnSetting)
  {
    exists k :: 0 <= k < |cs| && cs[k].dbName == c.dbName && cs[k].table == c.table
  }

  /** The tests the dialog filters columns with. */
  datatype Test =
    | IsRelated(want: bool)                                              // `_.filter` / `_.reject` by `related`
    | NoValueIn(rows: seq<Row>)                                          // still unfilled after these rows
    | Unmatched(cols: seq<ColumnSetting>, relatedCols: seq<ColumnSetting>) // not among the unfilled: visible
    | NotShownIn(visible: seq<ColumnSetting>)                              // not among the visible: hidden

  predicate Holds(t: Test, c: ColumnSetting)
  {
    match t
    case IsRelated(want) => c.related == want
    case NoValueIn(rows) => !Populated(rows, c.dbName)
    case Unmatched(cols, relatedCols) => if !c.related then !HasPair(cols, c) else !HasPair(relatedCols, c)
    case NotShownIn(visible) => !HasPair(visible, c)
  }

  /** `a` is `b` with some elements left out, in `b`'s order. */
  predicate SubseqOf(a: seq<ColumnSetting>, b: seq<ColumnSetting>)
    decreases |b|
  {
    if a == [] then true
    else if b == [] then false
    else if a[0] == b[0] then SubseqOf(a[1..], b[1..])
    else SubseqOf(a, b[1..])
  }

  lemma {:induction false} SubseqOfSkip(a: seq<ColumnSetting>, b: seq<ColumnSetting>)
    requires |b| > 0 && SubseqOf(a, b[1..])
    ensures SubseqOf(a, b)
    decreases |b|
  {
    if a != [] && a[0] == b[0] {
      // the match of a[0] in b[1..] may come later: move it to the front
      SubseqOfDrop(a, b[1..]);
      SubseqOfSkip(a[1..], b[1..]);
    }
  }

  /** Dropping the head of a subsequence keeps it a subsequence of the tail
      of the longer sequence. */
  lemma {:induction false} SubseqOfDrop(a: seq<ColumnSetting>, b: seq<ColumnSetting>)
    requires |a| > 0 && SubseqOf(a, b)
    ensures |b| > 0 && SubseqOf(a[1..], b[1..])
    decreases |b|
  {
    if a[0] != b[0] {
      SubseqOfDrop(a, b[1..]);
      SubseqOfSkip(a[1..], b[1..]);
    }
  }

  /** The columns that pass `t`, in order. */
  function Filter(cs: seq<ColumnSetting>, t: Test): (r: seq<ColumnSetting>)
    ensures |r| <= |cs|
  {
    if cs == [] then []
    else if Holds(t, cs[0]) then [cs[0]] + Filter(cs[1..], t)
    else Filter(cs[1..], t)
  }

  /** A column passes the filter exactly when it is one of the columns and
      passes the test. */
  lemma {:induction false} FilterMembers(cs: seq<ColumnSetting>, t: Test, c: ColumnSetting)
    ensures c in Filter(cs, t) <==> c in cs && Holds(t, c)
  {
    if cs != [] {
      FilterMembers(cs[1..], t, c);
      assert cs == [cs[0]] + cs[1..];
    }
  }

  /** The filter keeps the columns' order. */
  lemma {:induction false} FilterOrder(cs: seq<ColumnSetting>, t: Test)
    ensures SubseqOf(Filter(cs, t), cs)
  {
    if cs != [] {
      FilterOrder(cs[1..], t);
      if !Holds(t, cs[0]) {
        SubseqOfSkip(Filter(cs[1..], t), cs);
      }
    }
  }

  lemma FilterUnfold(cs: seq<ColumnSetting>, j: nat, t: Test)
    requires j < |cs|
    ensures Filter(cs[j..], t) == (if Holds(t, cs[j]) then [cs[j]] else []) + Filter(cs[j + 1..], t)
  {
    assert cs[j..][1..] == cs[j + 1..];
  }

  /** A column unfilled after some rows and unfilled in one more row is
      unfilled after all of them. */
  lemma {:induction false} NoValueInStep(cs: seq<ColumnSetting>, rows: seq<Row>, row: Row)
    ensures Filter(Filter(cs, NoValueIn(rows)), NoValueIn([row])) == Filter(cs, NoValueIn(rows + [row]))
  {
    if cs != [] {
      NoValueInStep(cs[1..], rows, row);
      var c := cs[0];
      if NotEmpty(Get(row, c.dbName)) {
        assert (rows + [row])[|rows|] == row;
      }
      if Populated(rows, c.dbName) {
        var k :| 0 <= k < |rows| && NotEmpty(Get(rows[k], c.dbName));
        assert (rows + [row])[k] == rows[k];
      }
      if Populated(rows + [row], c.dbName) {
        var k :| 0 <= k < |rows + [row]| && NotEmpty(Get((rows + [row])[k], c.dbName));
        if k < |rows| {
          assert rows[k] == (rows + [row])[k];
        } else {
          assert [row][0] == (rows + [row])[k];
        }
      }
    }
  }

  lemma NoValueInNothing(cs: seq<ColumnSetting>)
    ensures Filter(cs, NoValueIn([])) == cs
  {
  }

  /** The two halves of a test that splits the columns hold every column
      exactly once. */
  lemma {:induction false} FilterSplit(cs: seq<ColumnSetting>, t: Test, u: Test)
    requires forall k :: 0 <= k < |cs| ==> Holds(t, cs[k]) != Holds(u, cs[k])
    ensures multiset(Filter(cs, t)) + multiset(Filter(cs, u)) == multiset(cs)
  {
    if cs != [] {
      FilterSplit(cs[1..], t, u);
      assert cs == [cs[0]] + cs[1..];
    }
  }

  // ---------------------------------------------------------------------
  // What the scan leaves and what gets saved

  /** The plain columns no record fills in. */
  function Remaining(columns: seq<ColumnSetting>, inventory: seq<Record>): seq<ColumnSetting>
  {
    Filter(Filter(columns, IsRelated(false)), NoValueIn(FieldRows(inventory)))
  }

  /** The related columns no related record fills in. */
  function RemainingRelated(columns: seq<ColumnSetting>, inventory: seq<Record>): seq<ColumnSetting>
  {
    Filter(Filter(columns, IsRelated(true)), NoValueIn(RelatedRows(inventory)))
  }

  function VisibleColumns(columns: seq<ColumnSetting>, inventory: seq<Record>): seq<ColumnSetting>
  {
    Filter(columns, Unmatched(Remaining(columns, inventory), RemainingRelated(columns, inventory)))
  }

  function HiddenColumns(columns: seq<ColumnSetting>, inventory: seq<Record>): seq<ColumnSetting>
  {
    Filter(columns, NotShownIn(VisibleColumns(columns, inventory)))
  }

  function Hide(c: ColumnSetting): ColumnSetting
  {
    c.(visible := false)
  }

  /** `_.forEach(hidden, col => col.visible = false)` on the hidden list. */
  function HideAll(cs: seq<ColumnSetting>): (r: seq<ColumnSetting>)
    ensures |r| == |cs|
  {
    seq(|cs|, k requires 0 <= k < |cs| => Hide(cs[k]))
  }

  /** The same write seen through the full column list, which holds the same
      column objects: every column not found among the visible ones. */
  function HideUnshown(columns: seq<ColumnSetting>, visible: seq<ColumnSetting>): (r: seq<ColumnSetting>)
    ensures |r| == |columns|
  {
    seq(|columns|, k requires 0 <= k < |columns| =>
      if Holds(NotShownIn(visible), columns[k]) then Hide(columns[k]) else columns[k])
  }

  /** The grid settings the dialog saves: the visible columns, then the
      hidden ones marked invisible. */
  function Saved(columns: seq<ColumnSetting>, inventory: seq<Record>): seq<ColumnSetting>
  {
    VisibleColumns(columns, inventory) + HideAll(HiddenColumns(columns, inventory))
  }

  /** The column list after the scan. */
  function Flagged(columns: seq<ColumnSetting>, inventory: seq<Record>): seq<ColumnSetting>
  {
    HideUnshown(columns, VisibleColumns(columns, inventory))
  }

  /** The saved list starts with the visible columns as they were; every
      entry after them is marked invisible, and there is one per hidden
      column. */
  lemma SavedShape(columns: seq<ColumnSetting>, inventory: seq<Record>)
    ensures var saved, visible := Saved(columns, inventory), VisibleColumns(columns, inventory);
      |saved| == |visible| + |HiddenColumns(columns, inventory)| &&
      saved[..|visible|] == visible &&
      forall k :: |visible| <= k < |saved| ==> !saved[k].visible
  {
    var visible := VisibleColumns(columns, inventory);
    assert Saved(columns, inventory)[..|visible|] == visible;
  }

  /** After the scan a column keeps its settings when it is shown; otherwise
      only its visibility changes, to hidden. */
  lemma FlaggedColumns(columns: seq<ColumnSetting>, inventory: seq<Record>, k: nat)
    requires k < |columns|
    ensures var visible := VisibleColumns(columns, inventory);
      var after := Flagged(columns, inventory)[k];
      (HasPair(visible, columns[k]) ==> after == columns[k]) &&
      (!HasPair(visible, columns[k]) ==> after == columns[k].(visible := false))
  {
  }

  /** No two columns share a database name and a table. */
  ghost predicate UniquePairs(cs: seq<ColumnSetting>)
  {
    forall i, j :: 0 <= i < |cs| && 0 <= j < |cs| && cs[i].dbName == cs[j].dbName && cs[i].table == cs[j].table ==> i == j
  }

  /** Among columns of unique (dbName, table), a pair is found in a sub-list
      exactly when the column itself is in it. */
  lemma PairFoundIsColumn(columns: seq<ColumnSetting>, sub: seq<ColumnSetting>, c: ColumnSetting)
    requires UniquePairs(columns) && c in columns && forall d :: d in sub ==> d in columns
    ensures HasPair(sub, c) <==> c in sub
  {
    if HasPair(sub, c) {
      var k :| 0 <= k < |sub| && sub[k].dbName == c.dbName && sub[k].table == c.table;
      assert sub[k] in columns;
      var i :| 0 <= i < |columns| && columns[i] == sub[k];
      var j :| 0 <= j < |columns| && columns[j] == c;
    }
    if c in sub {
      var k :| 0 <= k < |sub| && sub[k] == c;
    }
  }

  lemma FilterSubset(cs: seq<ColumnSetting>, t: Test)
    ensures forall d :: d in Filter(cs, t) ==> d in cs
  {
    forall d | d in Filter(cs, t) ensures d in cs {
      FilterMembers(cs, t, d);
    }
  }

  /** A column is shown exactly when some record (a related record, for a
      related column) holds a non-empty value for it: a column sharing its
      (dbName, table) pair shares its dbName, so it is unfilled just when
      the column itself is. */
  lemma VisibleIffPopulated(columns: seq<ColumnSetting>, inventory: seq<Record>, c: ColumnSetting)
    requires c in columns
    ensures c in VisibleColumns(columns, inventory) <==>
      if c.related then Populated(RelatedRows(inventory), c.dbName) else Populated(FieldRows(inventory), c.dbName)
  {
    var plain, related := Filter(columns, IsRelated(false)), Filter(columns, IsRelated(true));
    var rem, remRelated := Remaining(columns, inventory), RemainingRelated(columns, inventory);
    FilterSubset(columns, IsRelated(false));
    FilterSubset(columns, IsRelated(true));
    FilterSubset(plain, NoValueIn(FieldRows(inventory)));
    FilterSubset(related, NoValueIn(RelatedRows(inventory)));
    FilterMembers(columns, IsRelated(false), c);
    FilterMembers(columns, IsRelated(true), c);
    FilterMembers(plain, NoValueIn(FieldRows(inventory)), c);
    FilterMembers(related, NoValueIn(RelatedRows(inventory)), c);
    FilterMembers(columns, Unmatched(rem, remRelated), c);
    if HasPair(rem, c) {
      var k :| 0 <= k < |rem| && rem[k].dbName == c.dbName && rem[k].table == c.table;
      FilterMembers(plain, NoValueIn(FieldRows(inventory)), rem[k]);
    }
    if HasPair(remRelated, c) {
      var k :| 0 <= k < |remRelated| && remRelated[k].dbName == c.dbName && remRelated[k].table == c.table;
      FilterMembers(related, NoValueIn(RelatedRows(inventory)), remRelated[k]);
    }
  }

  /** Whatever the columns, no column is both shown and hidden. */
  lemma VisibleHiddenDisjoint(columns: seq<ColumnSetting>, inventory: seq<Record>, c: ColumnSetting)
    ensures !(c in VisibleColumns(columns, inventory) && c in HiddenColumns(columns, inventory))
  {
    var visible := VisibleColumns(columns, inventory);
    FilterMembers(columns, NotShownIn(visible), c);
    if c in visible {
      var k :| 0 <= k < |visible| && visible[k] == c;
      assert HasPair(visible, c);
    }
  }

  /** With unique (dbName, table) pairs the saved list holds every column
      once: the visible and the hidden columns make up the whole list. */
  lemma SavedIsPermutation(columns: seq<ColumnSetting>, inventory: seq<Record>)
    requires UniquePairs(columns)
    ensures multiset(VisibleColumns(columns, inventory) + HiddenColumns(columns, inventory)) == multiset(columns)
  {
    var visible := VisibleColumns(columns, inventory);
    var t := Unmatched(Remaining(columns, inventory), RemainingRelated(columns, inventory));
    FilterSubset(columns, t);
    forall k | 0 <= k < |columns| ensures Holds(t, columns[k]) != Holds(NotShownIn(visible), columns[k]) {
      FilterMembers(columns, t, columns[k]);
      PairFoundIsColumn(columns, visible, columns[k]);
    }
    FilterSplit(columns, t, NotShownIn(visible));
  }

  /** The dialog's progress while it processes record `index` of `count`:
      between half way and done. */
  function RecordProgress(index: nat, count: nat): (p: real)
    requires index < count
    ensures 50.0 <= p < 100.0
  {
    var fraction := index as real / count as real;
    assert fraction < 1.0 by {
      assert fraction * (count as real) == index as real;
    }
    fraction * 50.0 + 50.0
  }

  /** One pass of `_.forEachRight` over the remaining columns for one row:
      every column the row fills in is spliced out. Going right to left
      keeps the indexes still to visit in place. */
  method StrikeFilled(cs: seq<ColumnSetting>, row: Row) returns (r: seq<ColumnSetting>)
    ensures r == Filter(cs, NoValueIn([row]))
  {
    r := cs;
    var j := |cs|;
    while j > 0
      invariant 0 <= j <= |cs|
      invariant r == cs[..j] + Filter(cs[j..], NoValueIn([row]))
    {
      j := j - 1;
      StrikeStep(cs, j, row, r);
      if NotEmpty(Get(row, r[j].dbName)) {
        r := r[..j] + r[j + 1..];
      }
    }
    assert cs[0..] == cs;
  }

  /** One step of the right-to-left pass: the column at `j` is spliced out
      exactly when the row fills it in. */
  lemma StrikeStep(cs: seq<ColumnSetting>, j: nat, row: Row, r: seq<ColumnSetting>)
    requires j < |cs| && r == cs[..j + 1] + Filter(cs[j + 1..], NoValueIn([row]))
    ensures j < |r| && r[j] == cs[j]
    ensures (if NotEmpty(Get(row, r[j].dbName)) then r[..j] + r[j + 1..] else r) ==
      cs[..j] + Filter(cs[j..], NoValueIn([row]))
  {
    var rest := Filter(cs[j + 1..], NoValueIn([row]));
    FilterUnfold(cs, j, NoValueIn([row]));
    OneRow(row, cs[j].dbName);
    assert r == cs[..j] + [cs[j]] + rest;
    if NotEmpty(Get(row, cs[j].dbName)) {
      assert r[..j] == cs[..j] && r[j + 1..] == rest;
    }
  }

  lemma OneRow(row: Row, name: string)
    ensures Populated([row], name) <==> NotEmpty(Get(row, name))
  {
    if NotEmpty(Get(row, name)) {
      assert [row][0] == row;
    }
  }

  /** The hidden columns as saved, one write at a time. */
  method HideEach(hidden: seq<ColumnSetting>) returns (out: seq<ColumnSetting>)
    ensures out == HideAll(hidden)
  {
    out := [];
    var k := 0;
    while k < |hidden|
      invariant 0 <= k <= |hidden|
      invariant |out| == k && forall m :: 0 <= m < k ==> out[m] == Hide(hidden[m])
    {
      out := out + [Hide(hidden[k])];
      k := k + 1;
    }
  }

  /** The column list with its hidden columns marked invisible. */
  method MarkHidden(columns: seq<ColumnSetting>, visible: seq<ColumnSetting>) returns (out: seq<ColumnSetting>)
    ensures out == HideUnshown(columns, visible)
  {
    out := [];
    var k := 0;
    while k < |columns|
      invariant 0 <= k <= |columns|
      invariant |out| == k
      invariant forall m :: 0 <= m < k ==>
        out[m] == (if Holds(NotShownIn(visible), columns[m]) then Hide(columns[m]) else columns[m])
    {
      out := out + [if Holds(NotShownIn(visible), columns[k]) then Hide(columns[k]) else columns[k]];
      k := k + 1;
    }
  }

  /** The inner `_.forEach(record.related, ...)`: strike off the related
      columns each related row fills in. */
  method StrikeRows(cs: seq<ColumnSetting>, rows: seq<Row>, ghost base: seq<ColumnSetting>, ghost before: seq<Row>)
    returns (r: seq<ColumnSetting>)
    requires cs == Filter(base, NoValueIn(before))
    ensures r == Filter(base, NoValueIn(before + rows))
  {
    r := cs;
    var j := 0;
    assert before + rows[..0] == before;
    while j < |rows|
      invariant 0 <= j <= |rows|
      invariant r == Filter(base, NoValueIn(before + rows[..j]))
    {
      NoValueInStep(base, before + rows[..j], rows[j]);
      r := StrikeFilled(r, rows[j]);
      assert before + rows[..j + 1] == before + rows[..j] + [rows[j]];
      j := j + 1;
    }
    assert rows[..j] == rows;
  }

  lemma RelatedRowsStep(inventory: seq<Record>, i: nat)
    requires i < |inventory|
    ensures RelatedRows(inventory[..i + 1]) == RelatedRows(inventory[..i]) + inventory[i].related
  {
    assert inventory[..i + 1][..i] == inventory[..i];
  }

  class PopulatedColumnsModal {
    var columns: seq<ColumnSetting>
    var cycleId: int
    var inventoryType: InventoryType
    var progress: real
    var state: State
    var status: Status

    /** Opening the dialog unpins every column and makes it visible. */
    constructor (columns: seq<ColumnSetting>, cycleId: int, inventoryType: InventoryType)
      ensures |this.columns| == |columns|
      ensures forall k :: 0 <= k < |columns| ==> this.columns[k] == columns[k].(pinnedLeft := false, visible := true)
      ensures this.cycleId == cycleId && this.inventoryType == inventoryType
      ensures progress == 0.0 && state == Idle && status == NoStatus
    {
      var reset: seq<ColumnSetting> := [];
      var k := 0;
      while k < |columns|
        invariant 0 <= k <= |columns|
        invariant |reset| == k && forall j :: 0 <= j < k ==> reset[j] == columns[j].(pinnedLeft := false, visible := true)
      {
        reset := reset + [columns[k].(pinnedLeft := false, visible := true)];
        k := k + 1;
      }
      this.columns := reset;
      this.cycleId := cycleId;
      this.inventoryType := inventoryType;
      progress := 0.0;
      state := Idle;
      status := NoStatus;
    }

    /** The record loop of `start`: strike off every plain column a record
        fills in and every related column a related record fills in,
        reporting progress per record. */
    method ScanRecords(inventory: seq<Record>) returns (cols: seq<ColumnSetting>, relatedCols: seq<ColumnSetting>)
      modifies this`progress
      ensures cols == Remaining(columns, inventory) && relatedCols == RemainingRelated(columns, inventory)
      ensures |inventory| > 0 ==> progress == RecordProgress(|inventory| - 1, |inventory|)
      ensures |inventory| == 0 ==> progress == old(progress)
    {
      cols := Filter(columns, IsRelated(false));
      relatedCols := Filter(columns, IsRelated(true));
      NoValueInNothing(cols);
      NoValueInNothing(relatedCols);
      ghost var plain, related := cols, relatedCols;
      var i := 0;
      while i < |inventory|
        invariant 0 <= i <= |inventory|
        invariant cols == Filter(plain, NoValueIn(FieldRows(inventory[..i])))
        invariant relatedCols == Filter(related, NoValueIn(RelatedRows(inventory[..i])))
        invariant i > 0 ==> progress == RecordProgress(i - 1, |inventory|)
        invariant i == 0 ==> progress == old(progress)
      {
        var record := inventory[i];
        NoValueInStep(plain, FieldRows(inventory[..i]), record.fields);
        cols := StrikeFilled(cols, record.fields);
        assert FieldRows(inventory[..i + 1]) == FieldRows(inventory[..i]) + [record.fields];
        relatedCols := StrikeRows(relatedCols, record.related, related, RelatedRows(inventory[..i]));
        RelatedRowsStep(inventory, i);
        progress := RecordProgress(i, |inventory|);
        i := i + 1;
      }
      assert inventory[..i] == inventory;
    }

    /** `start`, from the moment the inventory has been fetched: scan it,
        mark the unfilled columns hidden and return the settings key and the
        column list saved under it. */
    method Start(inventory: seq<Record>) returns (key: string, saved: seq<ColumnSetting>)
      modifies this`columns, this`progress, this`state, this`status
      ensures saved == Saved(old(columns), inventory)
      ensures columns == Flagged(old(columns), inventory)
      ensures key == "grid." + (if inventoryType == Properties then "properties" else "taxlots")
      ensures progress == 100.0 && state == Done && status == Found(|VisibleColumns(old(columns), inventory)|)
    {
      state := Running;
      status := Fetching;
      progress := 50.0;
      status := Processing(|columns|, |inventory|);
      var cols, relatedCols := ScanRecords(inventory);
      var visible := Filter(columns, Unmatched(cols, relatedCols));
      var hidden := Filter(columns, NotShownIn(visible));
      var hiddenSaved := HideEach(hidden);
      var flagged := MarkHidden(columns, visible);
      key := "grid." + (if inventoryType == Properties then "properties" else "taxlots");
      saved := visible + hiddenSaved;
      columns := flagged;
      progress := 100.0;
      state := Done;
      status := Found(|visible|);
    }
  }
}
