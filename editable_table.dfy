/** The editable invoice table of components/editable-table.tsx: a working
    copy of the rows, a snapshot taken at initialisation and at every save,
    and a dirty flag, changed by cell edits, row additions and deletions and
    rolled back by discard. */
module EditableTable {
  import opened Seqs
  import opened Text
  import opened Types

  // ---- Amount input ----

  /** The first two fraction digits as cents; further digits are cut off. */
  function FractionCents(frac: string): (c: nat)
    requires AllDigits(frac)
    ensures c < 100
  {
    (if |frac| >= 1 then 10 * DigitValue(frac[0]) else 0) + (if |frac| >= 2 then DigitValue(frac[1]) else 0)
  }

  /** The digits after a leading point, if `rest` starts with one. */
  function Fraction(rest: string): (f: string)
    ensures AllDigits(f)
  {
    if rest != [] && rest[0] == '.' then rest[1..][..DigitRunLength(rest[1..])] else []
  }

  /** An unsigned decimal in cents: digits, optionally a point and more
      digits, anything after ignored; `None` when there is no digit at all. */
  function Magnitude(body: string): (r: Option<nat>)
  {
    var n := DigitRunLength(body);
    var frac := Fraction(body[n..]);
    if n == 0 && frac == [] then None
    else Some(100 * DigitsValue(body[..n]) + FractionCents(frac))
  }

  /** `Number.parseFloat` in cents, on its decimal form: leading white space,
      an optional sign, then `Magnitude`. `None` stands for NaN. */
  function ParseAmount(text: string): (r: Option<int>)
  {
    var t := TrimStart(text);
    var negative := t != [] && t[0] == '-';
    var body := if t != [] && (t[0] == '-' || t[0] == '+') then t[1..] else t;
    match Magnitude(body)
    case None => None
    case Some(m) =>
      var v: int := m;
      Some(if negative then -v else v)
  }

  /** The amount cell's `Number.parseFloat(value) || 0`: NaN (and zero) give 0. */
  function AmountFromInput(text: string): (cents: int)
    ensures ParseAmount(text).None? ==> cents == 0
    ensures ParseAmount(text).Some? ==> cents == ParseAmount(text).value
  {
    match ParseAmount(text)
    case None => 0
    case Some(v) => if v == 0 then 0 else v
  }

  /** `amount.toFixed(2)`, the read-only rendering of an amount of `cents`:
      euros, a point, two digits. */
  function CentsToString(cents: nat): (s: string)
  {
    NatToString(cents / 100) + "." + [DigitChar(cents / 10 % 10), DigitChar(cents % 10)]
  }

  /** Without a digit there is no magnitude. */
  lemma NoDigitNoMagnitude(body: string)
    requires forall i :: 0 <= i < |body| ==> !IsDigit(body[i])
    ensures Magnitude(body).None?
  {
    assert DigitRunLength(body) == 0 by {
      if body != [] { assert !IsDigit(body[0]); }
    }
    var rest := body[0..];
    if rest != [] && rest[0] == '.' && rest[1..] != [] {
      assert !IsDigit(rest[1..][0]) by { assert rest[1..][0] == body[1]; }
    }
  }

  /** Any input without a single digit, such as an empty or a cleared field,
      stores the amount 0. */
  lemma NoDigitIsZero(text: string)
    requires forall i :: 0 <= i < |text| ==> !IsDigit(text[i])
    ensures AmountFromInput(text) == 0
  {
    var t := TrimStart(text);
    var body := if t != [] && (t[0] == '-' || t[0] == '+') then t[1..] else t;
    assert body == text[|text| - |body|..];
    NoDigitNoMagnitude(body);
  }

  /** The magnitude of digits, a point and two digits. */
  lemma MagnitudeOfDecimal(w: string, f: string)
    requires w != [] && AllDigits(w) && |f| == 2 && AllDigits(f)
    ensures Magnitude(w + "." + f) == Some(100 * DigitsValue(w) + FractionCents(f))
  {
    var s := w + "." + f;
    assert s == w + ("." + f);
    DigitRunOfConcat(w, "." + f);
    assert s[..|w|] == w;
    assert s[|w|..] == "." + f;
    assert ("." + f)[1..] == f;
    assert DigitRunLength(f) == 2 by {
      assert f[1..][1..] == [];
    }
    assert f[..2] == f;
  }

  /** Text that starts with a digit parses to its magnitude. */
  lemma ParseUnsigned(s: string)
    requires s != [] && IsDigit(s[0])
    ensures Magnitude(s).Some? && ParseAmount(s) == Some(Magnitude(s).value)
  {
    assert TrimStart(s) == s;
  }

  /** The two digits after the point are the cents below one euro. */
  lemma CentsSplit(cents: nat)
    ensures 100 * (cents / 100) + (10 * (cents / 10 % 10) + cents % 10) == cents
  {
    var q := cents / 10;
    assert cents == 10 * q + cents % 10;
    assert q == 10 * (q / 10) + q % 10;
    assert q / 10 == cents / 100;
  }

  /** The round trip of the amount field: the `toFixed(2)` rendering of an
      amount, typed into the number input, parses back to that amount. */
  lemma CentsRoundTrip(cents: nat)
    ensures AmountFromInput(CentsToString(cents)) == cents
  {
    var w := NatToString(cents / 100);
    var f := [DigitChar(cents / 10 % 10), DigitChar(cents % 10)];
    var s := CentsToString(cents);
    assert s == w + "." + f;
    MagnitudeOfDecimal(w, f);
    assert s[0] == w[0];
    ParseUnsigned(s);
    NatToStringValue(cents / 100);
    assert FractionCents(f) == 10 * (cents / 10 % 10) + cents % 10;
    CentsSplit(cents);
  }

  /** A cleared field and plain text both store 0. */
  lemma UnparsableExamples()
    ensures AmountFromInput("") == 0
    ensures AmountFromInput("abc") == 0
    ensures AmountFromInput("-") == 0
  {
    NoDigitIsZero("");
    NoDigitIsZero("abc");
    NoDigitIsZero("-");
  }

  /** "12.50" is 1250 cents. */
  lemma DecimalExample()
    ensures AmountFromInput("12.50") == 1250
  {
    assert DigitChar(1) == '1' && DigitChar(2) == '2' && DigitChar(5) == '5' && DigitChar(0) == '0';
    assert NatToString(12) == "12";
    assert CentsToString(1250) == "12.50";
    CentsRoundTrip(1250);
  }

  // ---- Rows ----

  const RowIdPrefix := "row-"

  /** `row-${Math.random()...}`: the random part is supplied by the caller. */
  function GeneratedId(suffix: string): string {
    RowIdPrefix + suffix
  }

  /** The initialise effect's `{ ...item, id: item.id || generated }`, the
      `i`-th row drawing `suffixes[i]`. */
  function WithRowIds(data: seq<InvoiceRow>, suffixes: seq<string>): (r: seq<InvoiceRow>)
    requires |suffixes| == |data|
    ensures |r| == |data|
    ensures forall i :: 0 <= i < |r| ==> Truthy(r[i].id)
    ensures forall i :: 0 <= i < |r| && Truthy(data[i].id) ==> r[i].id == data[i].id
    ensures forall i :: 0 <= i < |r| && !Truthy(data[i].id) ==> r[i].id == Some(GeneratedId(suffixes[i]))
    ensures forall i :: 0 <= i < |r| ==> r[i].(id := data[i].id) == data[i]
  {
    seq(|data|, i requires 0 <= i < |data| =>
      data[i].(id := if Truthy(data[i].id) then data[i].id else Some(GeneratedId(suffixes[i]))))
  }

  /** The value written by `handleCellChange` into one of the three edited fields. */
  datatype CellValue =
    | Phone(text: string)          // mandant_phone
    | InvoiceNumber(text: string)  // invoice_number
    | Amount(cents: int)           // amount, already parsed

  /** `{ ...row, [field]: value }`: the named field replaced, every other kept. */
  function SetCell(row: InvoiceRow, v: CellValue): (r: InvoiceRow)
    ensures r.id == row.id && r.isNew == row.isNew && r.isEditing == row.isEditing
    ensures r.mandantPhone == (if v.Phone? then v.text else row.mandantPhone)
    ensures r.invoiceNumber == (if v.InvoiceNumber? then v.text else row.invoiceNumber)
    ensures r.amount == (if v.Amount? then v.cents else row.amount)
  {
    match v
    case Phone(t) => row.(mandantPhone := t)
    case InvoiceNumber(t) => row.(invoiceNumber := t)
    case Amount(c) => row.(amount := c)
  }

  /** The rows after a cell edit on every row whose id is `id`. */
  function ChangeCell(rows: seq<InvoiceRow>, id: string, v: CellValue): (r: seq<InvoiceRow>)
    ensures |r| == |rows|
    ensures forall i :: 0 <= i < |rows| && rows[i].id == Some(id) ==> r[i] == SetCell(rows[i], v)
    ensures forall i :: 0 <= i < |rows| && rows[i].id != Some(id) ==> r[i] == rows[i]
    ensures (forall i :: 0 <= i < |rows| ==> rows[i].id != Some(id)) ==> r == rows
  {
    seq(|rows|, i requires 0 <= i < |rows| => if rows[i].id == Some(id) then SetCell(rows[i], v) else rows[i])
  }

  /** The row `handleAddRow` appends. */
  function BlankRow(suffix: string): (r: InvoiceRow)
    ensures r.id == Some(GeneratedId(suffix)) && Truthy(r.id)
    ensures r.mandantPhone == "" && r.invoiceNumber == "" && r.amount == 0
    ensures r.isNew && r.isEditing
  {
    InvoiceRow(Some(GeneratedId(suffix)), "", "", 0, true, true)
  }

  /** The selector `row => row.id !== id`. */
  function RowIdIsNot(id: string): InvoiceRow -> bool {
    (row: InvoiceRow) => row.id != Some(id)
  }

  /** `rows.filter(row => row.id !== id)`. */
  function RemoveRows(rows: seq<InvoiceRow>, id: string): seq<InvoiceRow> {
    Filter(rows, RowIdIsNot(id))
  }

  /** Deletion drops exactly the rows with the id, keeps the others in order,
      and changes nothing when no row has the id. */
  lemma RemoveRowsSpec(rows: seq<InvoiceRow>, id: string)
    ensures IsSubsequence(RemoveRows(rows, id), rows)
    ensures forall row :: row in RemoveRows(rows, id) <==> row in rows && row.id != Some(id)
    ensures forall row :: row in rows && row.id != Some(id) ==>
      multiset(RemoveRows(rows, id))[row] == multiset(rows)[row]
    ensures (forall i :: 0 <= i < |rows| ==> rows[i].id != Some(id)) ==> RemoveRows(rows, id) == rows
  {
    FilterIsSubsequence(rows, RowIdIsNot(id));
    forall row | row in rows && row.id != Some(id)
      ensures multiset(RemoveRows(rows, id))[row] == multiset(rows)[row]
    {
      FilterCount(rows, RowIdIsNot(id), row);
    }
    if forall i :: 0 <= i < |rows| ==> rows[i].id != Some(id) {
      FilterKeepsAll(rows, RowIdIsNot(id));
    }
  }

  // ---- Edits and their replay ----

  /** One user action on the working copy between two saves. */
  datatype Edit =
    | CellChange(id: string, value: CellValue)
    | AddRow(suffix: string)
    | DeleteRow(id: string)

  /** The working copy after one edit. */
  function Step(rows: seq<InvoiceRow>, e: Edit): seq<InvoiceRow> {
    match e
    case CellChange(id, v) => ChangeCell(rows, id, v)
    case AddRow(suffix) => rows + [BlankRow(suffix)]
    case DeleteRow(id) => RemoveRows(rows, id)
  }

  /** The working copy after a run of edits, in order. */
  function Replay(rows: seq<InvoiceRow>, edits: seq<Edit>): seq<InvoiceRow> {
    if edits == [] then rows else Step(Replay(rows, edits[..|edits| - 1]), edits[|edits| - 1])
  }

  // ---- The component's state ----

  class InvoiceTable {
    var tableData: seq<InvoiceRow>          // the working copy
    var originalData: seq<InvoiceRow>       // the snapshot
    var hasChanges: bool                    // the dirty flag
    var dataChanges: seq<seq<InvoiceRow>>   // arguments of onDataChange, in order
    var saveCount: nat                      // calls of onSave

    /** The initial `useState` values. */
    constructor ()
      ensures tableData == [] && originalData == [] && !hasChanges
      ensures dataChanges == [] && saveCount == 0
    {
      tableData, originalData, hasChanges := [], [], false;
      dataChanges, saveCount := [], 0;
    }

    /** The effect on a new `data` prop: working copy and snapshot both become
      the rows with ids filled in. The dirty flag is left as it was. */
    method Initialize(data: seq<InvoiceRow>, suffixes: seq<string>)
      requires |suffixes| == |data|
      modifies this
      ensures tableData == WithRowIds(data, suffixes) && originalData == tableData
      ensures hasChanges == old(hasChanges)
      ensures dataChanges == old(dataChanges) && saveCount == old(saveCount)
    {
      tableData := WithRowIds(data, suffixes);
      originalData := tableData;
    }

    /** `handleCellChange`: edit, mark dirty, report the new rows. */
    method HandleCellChange(id: string, v: CellValue)
      modifies this
      ensures tableData == ChangeCell(old(tableData), id, v)
      ensures hasChanges
      ensures dataChanges == old(dataChanges) + [tableData]
      ensures originalData == old(originalData) && saveCount == old(saveCount)
    {
      tableData := ChangeCell(tableData, id, v);
      hasChanges := true;
      dataChanges := dataChanges + [tableData];
    }

    /** `handleAddRow`: append a blank row and mark dirty; nothing is reported.
      When the drawn suffix gives an id not yet in the table, the new row's id
      is unique. */
    method HandleAddRow(suffix: string)
      modifies this
      ensures tableData == old(tableData) + [BlankRow(suffix)]
      ensures hasChanges
      ensures (forall i :: 0 <= i < |old(tableData)| ==> old(tableData)[i].id != Some(GeneratedId(suffix))) ==>
        forall i :: 0 <= i < |tableData| - 1 ==> tableData[i].id != tableData[|tableData| - 1].id
      ensures dataChanges == old(dataChanges)
      ensures originalData == old(originalData) && saveCount == old(saveCount)
    {
      tableData := tableData + [BlankRow(suffix)];
      hasChanges := true;
    }

    /** `handleDeleteRow`: drop the rows with the id, mark dirty, report. */
    method HandleDeleteRow(id: string)
      modifies this
      ensures tableData == RemoveRows(old(tableData), id)
      ensures hasChanges
      ensures dataChanges == old(dataChanges) + [tableData]
      ensures originalData == old(originalData) && saveCount == old(saveCount)
    {
      tableData := RemoveRows(tableData, id);
      hasChanges := true;
      dataChanges := dataChanges + [tableData];
    }

    /** `handleSaveChanges`: the snapshot becomes the working copy; `onSave`
      fires once when given. */
    method HandleSaveChanges(hasOnSave: bool)
      modifies this
      ensures originalData == tableData && tableData == old(tableData)
      ensures !hasChanges
      ensures saveCount == old(saveCount) + (if hasOnSave then 1 else 0)
      ensures dataChanges == old(dataChanges)
    {
      originalData := tableData;
      hasChanges := false;
      if hasOnSave {
        saveCount := saveCount + 1;
      }
    }

    /** `handleDiscardChanges`: the working copy goes back to the snapshot;
      nothing is reported. */
    method HandleDiscardChanges()
      modifies this
      ensures tableData == old(originalData) && originalData == old(originalData)
      ensures !hasChanges
      ensures dataChanges == old(dataChanges) && saveCount == old(saveCount)
    {
      tableData := originalData;
      hasChanges := false;
    }

    /** Dispatches one edit to its handler. */
    method Apply(e: Edit)
      modifies this
      ensures tableData == Step(old(tableData), e)
      ensures originalData == old(originalData) && saveCount == old(saveCount)
      ensures e.AddRow? ==> dataChanges == old(dataChanges)
      ensures !e.AddRow? ==> dataChanges == old(dataChanges) + [tableData]
      ensures hasChanges
    {
      match e
      case CellChange(id, v) => HandleCellChange(id, v);
      case AddRow(suffix) => HandleAddRow(suffix);
      case DeleteRow(id) => HandleDeleteRow(id);
    }
  }

  /** The round trip: a run of edits changes the working copy as `Replay`
    says and leaves the snapshot alone, so the discard that follows restores
    the rows as they were at the last save or initialisation. */
  method EditThenDiscard(t: InvoiceTable, edits: seq<Edit>)
    modifies t
    ensures t.tableData == old(t.originalData) && t.originalData == old(t.originalData)
    ensures !t.hasChanges && t.saveCount == old(t.saveCount)
    ensures |t.dataChanges| >= |old(t.dataChanges)| && t.dataChanges[..|old(t.dataChanges)|] == old(t.dataChanges)
  {
    var i := 0;
    while i < |edits|
      invariant 0 <= i <= |edits|
      invariant t.tableData == Replay(old(t.tableData), edits[..i])
      invariant t.originalData == old(t.originalData) && t.saveCount == old(t.saveCount)
      invariant |t.dataChanges| >= |old(t.dataChanges)| && t.dataChanges[..|old(t.dataChanges)|] == old(t.dataChanges)
    {
      assert edits[..i + 1][..i] == edits[..i];
      t.Apply(edits[i]);
      i := i + 1;
    }
    assert edits[..i] == edits;
    t.HandleDiscardChanges();
  }

  /** Saving after edits: the snapshot is the replayed working copy, and a
    discard straight after the save changes nothing. */
  method EditSaveDiscard(t: InvoiceTable, edits: seq<Edit>)
    modifies t
    ensures t.originalData == Replay(old(t.tableData), edits) && t.tableData == t.originalData
    ensures !t.hasChanges
  {
    var i := 0;
    while i < |edits|
      invariant 0 <= i <= |edits|
      invariant t.tableData == Replay(old(t.tableData), edits[..i])
    {
      assert edits[..i + 1][..i] == edits[..i];
      t.Apply(edits[i]);
      i := i + 1;
    }
    assert edits[..i] == edits;
    t.HandleSaveChanges(false);
    t.HandleDiscardChanges();
  }

  // ---- The table inside the card ----

  /** Rows that all carry an id come out of the initialise effect unchanged. */
  lemma IdentifiedRowsKeepIds(rows: seq<InvoiceRow>, suffixes: seq<string>)
    requires |suffixes| == |rows|
    requires forall i :: 0 <= i < |rows| ==> Truthy(rows[i].id)
    ensures WithRowIds(rows, suffixes) == rows
  {
  }

  /** Finding, as written: the card hands every reported change back to the
    table as its `data` prop (components/agent-card.tsx:133-135, 299-301), so
    the initialise effect runs again and snapshots the edited rows. The
    discard that follows keeps the edit. */
  method EditEchoedThenDiscard(t: InvoiceTable, id: string, v: CellValue, suffixes: seq<string>)
    requires forall i :: 0 <= i < |t.tableData| ==> Truthy(t.tableData[i].id)
    requires |suffixes| == |t.tableData|
    modifies t
    ensures t.tableData == ChangeCell(old(t.tableData), id, v) && t.originalData == t.tableData
    ensures !t.hasChanges
    // The discrepancy itself: an edit that changed the rows survives the discard.
    ensures ChangeCell(old(t.tableData), id, v) != old(t.originalData) ==> t.tableData != old(t.originalData)
  {
    t.HandleCellChange(id, v);
    var echoed := t.dataChanges[|t.dataChanges| - 1];
    IdentifiedRowsKeepIds(echoed, suffixes);
    t.Initialize(echoed, suffixes);
    t.HandleDiscardChanges();
  }

  /** A single clean row whose amount is edited: after the echo and the
    discard the table shows the new amount, not the snapshot's. */
  lemma EchoedEditExample()
    ensures var row := InvoiceRow(Some("row-a"), "", "", 0, false, false);
      ChangeCell([row], "row-a", Amount(100)) != [row]
  {
    var row := InvoiceRow(Some("row-a"), "", "", 0, false, false);
    assert ChangeCell([row], "row-a", Amount(100))[0].amount == 100;
  }
}
