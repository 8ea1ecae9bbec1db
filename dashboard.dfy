/** The dashboard of components/dashboard.tsx: the process list kept in sync
    with the persistence collaborator of services/api.ts. Each awaited call is
    an input `Result` (its reply, or the error it threw); what each handler
    sends is its output, so the two can be joined to the collaborator's model. */
module Dashboard {
  import opened Types
  import opened KanbanBoard
  import opened Api

  // ---- What each handler sends ----

  /** `invoiceData?.length || process.totalItems`. */
  function StartTotal(invoiceData: Option<seq<InvoiceRow>>, totalItems: int): (r: int)
    ensures invoiceData.Some? && |invoiceData.value| > 0 ==> r == |invoiceData.value|
    ensures invoiceData.None? || |invoiceData.value| == 0 ==> r == totalItems
  {
    if invoiceData.Some? && |invoiceData.value| != 0 then |invoiceData.value| else totalItems
  }

  /** The start update: status, start date, total and the invoice rows. The
      `invoiceData` key is sent even when no rows were given. */
  function StartPatch(p: Process, invoiceData: Option<seq<InvoiceRow>>, now: string): (u: Patch)
    ensures u.status == Some(InProgress) && u.startDate == Some(Some(now))
    ensures u.totalItems == Some(StartTotal(invoiceData, p.totalItems))
    ensures u.invoiceData == Some(invoiceData)
    ensures u.(status := None, startDate := None, totalItems := None, invoiceData := None) == EmptyPatch
  {
    EmptyPatch.(status := Some(InProgress), startDate := Some(Some(now)),
                totalItems := Some(StartTotal(invoiceData, p.totalItems)), invoiceData := Some(invoiceData))
  }

  /** The pause update: the flag of the process as the caller saw it, flipped. */
  function PausePatch(p: Process): (u: Patch)
    ensures u.paused == Some(!p.paused) && u.(paused := None) == EmptyPatch
  {
    EmptyPatch.(paused := Some(!p.paused))
  }

  /** The complete update: status, completion date, progress := total. */
  function CompletePatch(p: Process, now: string): (u: Patch)
    ensures u.status == Some(Completed) && u.completionDate == Some(Some(now))
    ensures u.progress == Some(p.totalItems)
    ensures u.(status := None, completionDate := None, progress := None) == EmptyPatch
  {
    EmptyPatch.(status := Some(Completed), completionDate := Some(Some(now)), progress := Some(p.totalItems))
  }

  /** The save-invoice update: the rows and their count, which may be 0. */
  function SaveInvoicePatch(invoiceData: seq<InvoiceRow>): (u: Patch)
    ensures u.invoiceData == Some(Some(invoiceData)) && u.totalItems == Some(|invoiceData|)
    ensures u.(invoiceData := None, totalItems := None) == EmptyPatch
  {
    EmptyPatch.(invoiceData := Some(Some(invoiceData)), totalItems := Some(|invoiceData|))
  }

  /** The progress update: the new total only. */
  function TotalPatch(total: int): (u: Patch)
    ensures u.totalItems == Some(total) && u.(totalItems := None) == EmptyPatch
  {
    EmptyPatch.(totalItems := Some(total))
  }

  /** The list after an update's reply: the returned record replaces the
      processes with the id on success; a failure changes nothing. */
  function ApplyReply(ps: seq<Process>, id: string, reply: Result<Process, ApiError>): (r: seq<Process>)
    ensures reply.Err? ==> r == ps
    ensures reply.Ok? ==> |r| == |ps|
    ensures reply.Ok? ==> forall i :: 0 <= i < |ps| && ps[i].id == id ==> r[i] == reply.value
    ensures reply.Ok? ==> forall i :: 0 <= i < |ps| && ps[i].id != id ==> r[i] == ps[i]
  {
    if reply.Ok? then ReplaceWhereId(ps, id, reply.value) else ps
  }

  /** `handleUpdateProgress` before the backend call: the new list and the
      update it sends, if any. Unknown id or unchanged total: nothing. */
  function OptimisticTotal(ps: seq<Process>, id: string, total: int): (r: (seq<Process>, Option<Patch>))
    ensures FindById(ps, id).None? ==> r == (ps, None)
    ensures FindById(ps, id).Some? && FindById(ps, id).value.totalItems == total ==> r == (ps, None)
    ensures FindById(ps, id).Some? && FindById(ps, id).value.totalItems != total ==>
      r.1 == Some(TotalPatch(total))
      && r.0 == ReplaceWhereId(ps, id, FindById(ps, id).value.(totalItems := total))
  {
    match FindById(ps, id)
    case None => (ps, None)
    case Some(p) =>
      if p.totalItems == total then (ps, None)
      else (ReplaceWhereId(ps, id, p.(totalItems := total)), Some(TotalPatch(total)))
  }

  /** The optimistic total is not rolled back: the list is the same whether
      the backend call then succeeds or fails. */
  lemma OptimisticTotalKept(ps: seq<Process>, id: string, total: int, i: nat)
    requires i < |ps| && ps[i].id == id
    requires forall j :: 0 <= j < i ==> ps[j].id != id
    ensures OptimisticTotal(ps, id, total).0[i].totalItems == total
  {
    FindFirstAt(ps, id, i);
  }

  /** The metric cards' counts: in progress, not started, completed. */
  function Metrics(ps: seq<Process>): (r: (nat, nat, nat))
    ensures r.0 + r.1 + r.2 == |ps|
    ensures r == (|Column(ps, InProgress)|, |Column(ps, NotStarted)|, |Column(ps, Completed)|)
  {
    ColumnSizesSum(ps);
    (|Column(ps, InProgress)|, |Column(ps, NotStarted)|, |Column(ps, Completed)|)
  }

  // ---- What the collaborator answers ----

  /** Against the collaborator, a start yields the stored record with the
      start fields overridden; starting without rows clears its invoice rows
      and keeps its total. */
  lemma StartReply(store: seq<Process>, p: Process, now: string, invoiceData: Option<seq<InvoiceRow>>)
    requires FindById(store, p.id).Some?
    ensures var r := UpdateProcess(store, p.id, StartPatch(p, invoiceData, now));
      && r.Ok? && r.value.status == InProgress && r.value.startDate == Some(now)
      && r.value.invoiceData == invoiceData
      && r.value.totalItems == StartTotal(invoiceData, p.totalItems)
      && r.value.name == FindById(store, p.id).value.name
      && r.value.paused == FindById(store, p.id).value.paused
  {
  }

  /** Finding, as written: the collaborator never stores an update, so
      pausing a process the dashboard has just started answers with the
      fixture's status again, and the list shows it not started. */
  lemma PauseAfterStartReverts(store: seq<Process>, id: string, now: string)
    requires FindById(store, id).Some? && FindById(store, id).value.status == NotStarted
    ensures var p0 := FindById(store, id).value;
      var started := UpdateProcess(store, id, StartPatch(p0, None, now));
      var paused := UpdateProcess(store, id, PausePatch(started.value));
      && started.Ok? && started.value.status == InProgress
      && paused.Ok? && paused.value.status == NotStarted && paused.value.startDate == p0.startDate
  {
  }

  /** Corrected: with a store that keeps what it returns, the pause builds on
      the start and the process stays in progress. */
  lemma PauseAfterStartKeepsStatus(store: seq<Process>, id: string, now: string)
    requires FindById(store, id).Some?
    ensures var p0 := FindById(store, id).value;
      var (started, store1) := UpdateAndStore(store, id, StartPatch(p0, None, now));
      var (paused, _) := UpdateAndStore(store1, id, PausePatch(started.value));
      && started.Ok? && paused.Ok?
      && paused.value.status == InProgress && paused.value.startDate == Some(now)
      && paused.value.paused == !p0.paused
  {
    var p0 := FindById(store, id).value;
    StoredUpdatesAccumulate(store, id, StartPatch(p0, None, now), PausePatch(UpdateProcess(store, id, StartPatch(p0, None, now)).value));
  }

  /** Finding, as written: a process created through the collaborator is not
      stored, so starting it fails with NotFound and the list keeps it not
      started. */
  lemma CreatedCannotStart(store: seq<Process>, data: Patch, id: string, now: string, inAWeek: string,
                           ps: seq<Process>, later: string)
    requires forall q :: q in store ==> q.id != id
    ensures var created := CreateProcess(data, id, now, inAWeek);
      var reply := UpdateProcess(store, id, StartPatch(created, None, later));
      && reply == Err(NotFound(id))
      && ApplyReply(ps + [created], id, reply) == ps + [created]
  {
  }

  /** Finding, as written, on a reachable path: saving edited rows on an
      in-progress card stores nothing, so a later pause answers with the
      fixture's rows and total, and the list shows those again. */
  lemma PauseAfterSaveReverts(store: seq<Process>, id: string, rows: seq<InvoiceRow>)
    requires FindById(store, id).Some?
    ensures var p0 := FindById(store, id).value;
      var saved := UpdateProcess(store, id, SaveInvoicePatch(rows));
      var paused := UpdateProcess(store, id, PausePatch(saved.value));
      && saved.Ok? && saved.value.invoiceData == Some(rows) && saved.value.totalItems == |rows|
      && paused.Ok? && paused.value.invoiceData == p0.invoiceData && paused.value.totalItems == p0.totalItems
  {
  }

  /** Corrected: with a store that keeps what it returns, the pause keeps the
      saved rows and their count. */
  lemma PauseAfterSaveKeepsRows(store: seq<Process>, id: string, rows: seq<InvoiceRow>)
    requires FindById(store, id).Some?
    ensures var (saved, store1) := UpdateAndStore(store, id, SaveInvoicePatch(rows));
      var (paused, _) := UpdateAndStore(store1, id, PausePatch(saved.value));
      && saved.Ok? && paused.Ok?
      && paused.value.invoiceData == Some(rows) && paused.value.totalItems == |rows|
      && paused.value.paused == !FindById(store, id).value.paused
  {
    var saved := UpdateProcess(store, id, SaveInvoicePatch(rows));
    StoredUpdatesAccumulate(store, id, SaveInvoicePatch(rows), PausePatch(saved.value));
  }

  /** Finding, as written, on a reachable path: an upload on a card created
      through the collaborator makes the card report its new row count; the
      dashboard sets the total locally and sends it, the collaborator does not
      know the id, and the failure is only logged. */
  lemma CreatedProgressReportFails(store: seq<Process>, data: Patch, id: string, now: string, inAWeek: string,
                                   ps: seq<Process>, total: int)
    requires forall q :: q in store ==> q.id != id
    requires forall q :: q in ps ==> q.id != id
    requires total != CreateProcess(data, id, now, inAWeek).totalItems
    ensures var created := CreateProcess(data, id, now, inAWeek);
      var (local, sent) := OptimisticTotal(ps + [created], id, total);
      && sent == Some(TotalPatch(total))
      && UpdateProcess(store, id, sent.value) == Err(NotFound(id))
      && local[|ps|].totalItems == total
  {
    var created := CreateProcess(data, id, now, inAWeek);
    FindFirstAt(ps + [created], id, |ps|);
  }

  // ---- The dashboard's state ----

  class Board {
    var processes: seq<Process>
    var isLoading: bool

    constructor (initial: seq<Process>)
      ensures processes == initial && isLoading
    {
      processes := initial;
      isLoading := true;
    }

    /** The loading effect: the fetched list replaces the initial one; a
      failure keeps it. Loading ends either way. */
    method Load(reply: Result<seq<Process>, ApiError>)
      modifies this
      ensures processes == (if reply.Ok? then reply.value else old(processes))
      ensures !isLoading
    {
      if reply.Ok? {
        processes := reply.value;
      }
      isLoading := false;
    }

    /** `handleStartProcess(p, invoiceData)`: returns the update it sends. */
    method HandleStart(p: Process, invoiceData: Option<seq<InvoiceRow>>, now: string,
                       reply: Result<Process, ApiError>) returns (sent: Patch)
      modifies this
      ensures sent == StartPatch(p, invoiceData, now)
      ensures processes == ApplyReply(old(processes), p.id, reply)
      ensures isLoading == old(isLoading)
    {
      sent := StartPatch(p, invoiceData, now);
      processes := ApplyReply(processes, p.id, reply);
    }

    method HandlePause(p: Process, reply: Result<Process, ApiError>) returns (sent: Patch)
      modifies this
      ensures sent == PausePatch(p)
      ensures processes == ApplyReply(old(processes), p.id, reply)
      ensures isLoading == old(isLoading)
    {
      sent := PausePatch(p);
      processes := ApplyReply(processes, p.id, reply);
    }

    method HandleComplete(p: Process, now: string, reply: Result<Process, ApiError>) returns (sent: Patch)
      modifies this
      ensures sent == CompletePatch(p, now)
      ensures processes == ApplyReply(old(processes), p.id, reply)
      ensures isLoading == old(isLoading)
    {
      sent := CompletePatch(p, now);
      processes := ApplyReply(processes, p.id, reply);
    }

    /** `handleDeleteProcess`: the process leaves the list only after the
      collaborator confirmed. */
    method HandleDelete(id: string, reply: Result<bool, ApiError>)
      modifies this
      ensures processes == (if reply.Ok? then RemoveId(old(processes), id) else old(processes))
      ensures isLoading == old(isLoading)
    {
      if reply.Ok? {
        processes := RemoveId(processes, id);
      }
    }

    /** `handleCreateProcess`: the created record is appended. */
    method HandleCreate(reply: Result<Process, ApiError>)
      modifies this
      ensures processes == (if reply.Ok? then old(processes) + [reply.value] else old(processes))
      ensures isLoading == old(isLoading)
    {
      if reply.Ok? {
        processes := processes + [reply.value];
      }
    }

    /** `handleSaveInvoiceData`: nothing is sent for an unknown id; otherwise
      the rows and their count are sent and the reply applied. */
    method HandleSaveInvoice(id: string, invoiceData: seq<InvoiceRow>, reply: Result<Process, ApiError>)
      returns (sent: Option<Patch>)
      modifies this
      ensures FindById(old(processes), id).None? ==> sent.None? && processes == old(processes)
      ensures FindById(old(processes), id).Some? ==>
        sent == Some(SaveInvoicePatch(invoiceData)) && processes == ApplyReply(old(processes), id, reply)
      ensures isLoading == old(isLoading)
    {
      if FindById(processes, id).None? {
        return None;
      }
      sent := Some(SaveInvoicePatch(invoiceData));
      processes := ApplyReply(processes, id, reply);
    }

    /** `handleUpdateProgress`: the optimistic rule; the backend's answer is
      ignored, so the caller need not supply it. */
    method HandleUpdateProgress(id: string, total: int) returns (sent: Option<Patch>)
      modifies this
      ensures (processes, sent) == OptimisticTotal(old(processes), id, total)
      ensures isLoading == old(isLoading)
    {
      var r := OptimisticTotal(processes, id, total);
      processes := r.0;
      sent := r.1;
    }
  }
}
