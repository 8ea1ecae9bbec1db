/** The process card of components/agent-card.tsx: the displayed total and
    percentage, the effect that reports a new total upward, title editing,
    and the status badge and card accent. */
module AgentCard {
  import opened Types

  // ---- Derived counters ----

  /** `invoiceData.length || totalItems`: the invoice count when there are
      rows, the process's own total otherwise. */
  function CurrentTotalItems(invoiceLength: nat, totalItems: int): (r: int)
    ensures invoiceLength > 0 ==> r == invoiceLength
    ensures invoiceLength == 0 ==> r == totalItems
  {
    if invoiceLength != 0 then invoiceLength else totalItems
  }

  /** `Math.round(n / d)` on exact rationals: the nearest integer to n/d,
      halves rounded up. */
  function RoundRatio(n: int, d: int): (r: int)
    requires d != 0
    ensures var (num, den) := if d > 0 then (n, d) else (-n, -d);
      2 * den * r <= 2 * num + den < 2 * den * r + 2 * den
  {
    var (num, den) := if d > 0 then (n, d) else (-n, -d);
    var q := (2 * num + den) / (2 * den);
    assert 2 * den * q <= 2 * num + den < 2 * den * q + 2 * den by {
      var m := (2 * num + den) % (2 * den);
      assert 2 * num + den == 2 * den * q + m && 0 <= m < 2 * den;
    }
    q
  }

  /** The card's percentage: 0 when the total is not positive, otherwise the
      progress as a rounded percentage of the total. */
  function ProgressPercent(progress: int, total: int): (r: int)
    ensures total <= 0 ==> r == 0
    ensures total > 0 ==> 2 * total * r <= 200 * progress + total < 2 * total * (r + 1)
  {
    if total > 0 then RoundRatio(100 * progress, total) else 0
  }

  /** Multiplying by a non-negative factor keeps an inequality. */
  lemma MulMonotone(k: int, x: int, y: int)
    requires 0 <= k && x <= y
    ensures k * x <= k * y
  {
  }

  /** For progress within the total the percentage lies in [0, 100], and a
      finished process shows exactly 100. */
  lemma PercentInRange(progress: int, total: int)
    requires 0 <= progress <= total
    ensures 0 <= ProgressPercent(progress, total) <= 100
    ensures total > 0 && progress == total ==> ProgressPercent(progress, total) == 100
  {
    var r := ProgressPercent(progress, total);
    if total > 0 {
      var k := 2 * total;
      assert k * r <= 200 * progress + total < k * (r + 1);
      MulMonotone(200, progress, total);
      if r < 0 {
        MulMonotone(k, r + 1, 0);
      }
      if r > 100 {
        MulMonotone(k, 101, r);
      }
      if progress == total && r < 100 {
        MulMonotone(k, r + 1, 100);
      }
    }
  }

  /** Three of four items done shows 75; an empty process shows 0. */
  lemma PercentExamples()
    ensures ProgressPercent(3, 4) == 75
    ensures ProgressPercent(0, 0) == 0
    ensures ProgressPercent(1, 3) == 33
    ensures ProgressPercent(2, 3) == 67
  {
  }

  // ---- Classification ----

  /** The status badge. */
  datatype Badge = DoneBadge | WaitingBadge | PausedBadge | ActiveBadge {
    /** The badge's text. */
    function Label(): string {
      match this
      case DoneBadge => "Abgeschlossen"
      case WaitingBadge => "Nicht gestartet"
      case PausedBadge => "Pausiert"
      case ActiveBadge => "Aktiv"
    }
  }

  /** `renderStatusBadge`: status first; `paused` matters only while in progress. */
  function StatusBadge(status: ProcessStatus, paused: bool): (r: Badge)
    ensures r == DoneBadge <==> status.Completed?
    ensures r == WaitingBadge <==> status.NotStarted?
    ensures r == PausedBadge <==> status.InProgress? && paused
    ensures r == ActiveBadge <==> status.InProgress? && !paused
  {
    if status.Completed? then DoneBadge
    else if status.NotStarted? then WaitingBadge
    else if paused then PausedBadge
    else ActiveBadge
  }

  /** The colour of the card's left border. */
  datatype Accent = Green | Orange | Blue | Amber

  /** `getCardStyle`: the same status-then-paused classification. */
  function CardAccent(status: ProcessStatus, paused: bool): (r: Accent)
    ensures r == Green <==> status.Completed?
    ensures r == Orange <==> status.InProgress? && paused
    ensures r == Blue <==> status.InProgress? && !paused
    ensures r == Amber <==> status.NotStarted?
  {
    if status.Completed? then Green
    else if status.InProgress? then (if paused then Orange else Blue)
    else Amber
  }

  /** Badge and accent classify by the same rule, so one determines the other. */
  lemma BadgeMatchesAccent(s1: ProcessStatus, p1: bool, s2: ProcessStatus, p2: bool)
    ensures StatusBadge(s1, p1) == StatusBadge(s2, p2) <==> CardAccent(s1, p1) == CardAccent(s2, p2)
  {
  }

  // ---- The report-a-new-total effect ----

  /** The condition of the effect (lines 96-104): a callback is present and the
      invoice count differs from both the last reported count and the total. */
  predicate ShouldReportTotal(hasCallback: bool, length: int, lastReported: int, totalItems: int) {
    hasCallback && length != lastReported && length != totalItems
  }

  /** One `onUpdateProgress(id, progress, total)` call. */
  datatype ProgressReport = ProgressReport(id: string, progress: int, total: int)

  /** The card's own state. Props other than the invoice rows are fixed per card. */
  class Card {
    const id: string
    const title: string
    const status: ProcessStatus
    const progress: int
    const totalItems: int
    const paused: bool

    var currentInvoiceData: seq<InvoiceRow>
    var isEditing: bool
    var editedTitle: string
    var lastReportedLength: int              // prevInvoiceDataLengthRef
    var progressReports: seq<ProgressReport> // calls of onUpdateProgress, in order
    var titleEdits: seq<string>              // titles passed to onEdit, in order

    constructor (id: string, title: string, status: ProcessStatus, progress: int, totalItems: int,
                 paused: bool, invoiceData: seq<InvoiceRow>)
      ensures this.id == id && this.title == title && this.status == status
      ensures this.progress == progress && this.totalItems == totalItems && this.paused == paused
      ensures currentInvoiceData == invoiceData && !isEditing && editedTitle == title
      ensures lastReportedLength == |invoiceData|
      ensures progressReports == [] && titleEdits == []
    {
      this.id, this.title, this.status := id, title, status;
      this.progress, this.totalItems, this.paused := progress, totalItems, paused;
      currentInvoiceData := invoiceData;
      isEditing := false;
      editedTitle := title;
      lastReportedLength := |invoiceData|;
      progressReports, titleEdits := [], [];
    }

    /** The total and the percentage the card displays. */
    method Display() returns (total: int, percent: int)
      ensures total == CurrentTotalItems(|currentInvoiceData|, totalItems)
      ensures percent == ProgressPercent(progress, total)
      ensures 0 <= progress <= total ==> 0 <= percent <= 100
    {
      total := CurrentTotalItems(|currentInvoiceData|, totalItems);
      percent := ProgressPercent(progress, total);
      if 0 <= progress <= total {
        PercentInRange(progress, total);
      }
    }

    /** The effect on a changed `invoiceData` prop, an upload, or a table
      change: the rows are replaced wholesale. */
    method ReplaceInvoiceData(data: seq<InvoiceRow>)
      modifies this
      ensures currentInvoiceData == data
      ensures isEditing == old(isEditing) && editedTitle == old(editedTitle)
      ensures lastReportedLength == old(lastReportedLength)
      ensures progressReports == old(progressReports) && titleEdits == old(titleEdits)
    {
      currentInvoiceData := data;
    }

    /** The effect of lines 90-92 after a render. React runs it when the
      `invoiceData` prop is not the same object as at the previous render
      (`sameObject` false), and it then replaces the rows with the prop. */
    method InvoicePropEffect(prop: seq<InvoiceRow>, sameObject: bool)
      modifies this
      ensures currentInvoiceData == if sameObject then old(currentInvoiceData) else prop
      ensures isEditing == old(isEditing) && editedTitle == old(editedTitle)
      ensures lastReportedLength == old(lastReportedLength)
      ensures progressReports == old(progressReports) && titleEdits == old(titleEdits)
    {
      if !sameObject {
        currentInvoiceData := prop;
      }
    }

    /** The effect of lines 96-105; returns whether it reported. */
    method ReportTotalEffect(hasCallback: bool) returns (fired: bool)
      modifies this
      ensures fired == ShouldReportTotal(hasCallback, |currentInvoiceData|, old(lastReportedLength), totalItems)
      ensures lastReportedLength == if fired then |currentInvoiceData| else old(lastReportedLength)
      ensures progressReports == old(progressReports)
        + (if fired then [ProgressReport(id, progress, |currentInvoiceData|)] else [])
      ensures currentInvoiceData == old(currentInvoiceData)
      ensures isEditing == old(isEditing) && editedTitle == old(editedTitle) && titleEdits == old(titleEdits)
      ensures !ShouldReportTotal(hasCallback, |currentInvoiceData|, lastReportedLength, totalItems)
    {
      fired := ShouldReportTotal(hasCallback, |currentInvoiceData|, lastReportedLength, totalItems);
      if fired {
        progressReports := progressReports + [ProgressReport(id, progress, |currentInvoiceData|)];
        lastReportedLength := |currentInvoiceData|;
      }
    }

    /** A click on the title opens the editor unless the process is completed. */
    method TitleClick()
      modifies this
      ensures isEditing == (old(isEditing) || status != Completed)
      ensures editedTitle == old(editedTitle) && titleEdits == old(titleEdits)
      ensures currentInvoiceData == old(currentInvoiceData)
      ensures lastReportedLength == old(lastReportedLength) && progressReports == old(progressReports)
    {
      if status != Completed {
        isEditing := true;
      }
    }

    /** Typing into the title editor. */
    method TitleChange(text: string)
      modifies this
      ensures editedTitle == text
      ensures isEditing == old(isEditing) && titleEdits == old(titleEdits)
      ensures currentInvoiceData == old(currentInvoiceData)
      ensures lastReportedLength == old(lastReportedLength) && progressReports == old(progressReports)
    {
      editedTitle := text;
    }

    /** Saving the title closes the editor and reports the title only when it changed. */
    method TitleSave(hasOnEdit: bool)
      modifies this
      ensures !isEditing && editedTitle == old(editedTitle)
      ensures titleEdits == old(titleEdits)
        + (if hasOnEdit && old(editedTitle) != title then [old(editedTitle)] else [])
      ensures currentInvoiceData == old(currentInvoiceData)
      ensures lastReportedLength == old(lastReportedLength) && progressReports == old(progressReports)
    {
      isEditing := false;
      if hasOnEdit && editedTitle != title {
        titleEdits := titleEdits + [editedTitle];
      }
    }

    /** Enter saves; Escape restores the prop title and closes without reporting. */
    method TitleKeyDown(key: string, hasOnEdit: bool)
      modifies this
      ensures key == "Enter" ==> (!isEditing && editedTitle == old(editedTitle)
        && titleEdits == old(titleEdits)
           + (if hasOnEdit && old(editedTitle) != title then [old(editedTitle)] else []))
      ensures key == "Escape" ==> !isEditing && editedTitle == title && titleEdits == old(titleEdits)
      ensures key != "Enter" && key != "Escape" ==>
        (isEditing == old(isEditing) && editedTitle == old(editedTitle) && titleEdits == old(titleEdits))
      ensures currentInvoiceData == old(currentInvoiceData)
      ensures lastReportedLength == old(lastReportedLength) && progressReports == old(progressReports)
    {
      if key == "Enter" {
        TitleSave(hasOnEdit);
      } else if key == "Escape" {
        editedTitle := title;
        isEditing := false;
      }
    }

    /** What `onSaveInvoiceData` (or `onStart`) receives: the card's id and current rows. */
    method InvoiceDataRequest(hasCallback: bool) returns (r: Option<(string, seq<InvoiceRow>)>)
      ensures hasCallback <==> r.Some?
      ensures r.Some? ==> r.value.0 == id && r.value.1 == currentInvoiceData
    {
      r := if hasCallback then Some((id, currentInvoiceData)) else None;
    }
  }

  /** Whether the card offers "Speichern & Starten" (line 309): a not-started
      process with at least one invoice row. */
  predicate StartOffered(status: ProcessStatus, rows: seq<InvoiceRow>) {
    status == NotStarted && |rows| > 0
  }

  /** Finding, as written: the not-started column renders cards without the
      `invoiceData` prop (components/not-started-column.tsx:123-141), so the
      default `[]` of line 64 is a new array at every render and the prop
      effect fires after each one. Rows from an upload are wiped by the next
      render: the start is no longer offered, and a start would send no rows. */
  method UploadThenRenderFreshDefault(c: Card, rows: seq<InvoiceRow>) returns (sent: Option<(string, seq<InvoiceRow>)>)
    modifies c
    ensures c.currentInvoiceData == []
    ensures !StartOffered(c.status, c.currentInvoiceData)
    ensures sent == Some((c.id, []))
  {
    c.ReplaceInvoiceData(rows);      // handleFileUploaded
    c.InvoicePropEffect([], false);  // the next render's fresh default
    sent := c.InvoiceDataRequest(true);
  }

  /** Corrected: with a default that keeps its identity between renders the
      prop effect fires only for a new prop, so the uploaded rows stay, a
      not-started card offers the start, and the start sends those rows. */
  method UploadThenRenderStableDefault(c: Card, rows: seq<InvoiceRow>) returns (sent: Option<(string, seq<InvoiceRow>)>)
    modifies c
    ensures c.currentInvoiceData == rows
    ensures c.status == NotStarted && rows != [] ==> StartOffered(c.status, c.currentInvoiceData)
    ensures sent == Some((c.id, rows))
  {
    c.ReplaceInvoiceData(rows);      // handleFileUploaded
    c.InvoicePropEffect([], true);   // the next render: the same default object
    sent := c.InvoiceDataRequest(true);
  }
}
