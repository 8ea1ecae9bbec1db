/** The simulated persistence collaborator of services/api.ts. Every call
    reads the fixture list `store` and never writes to it; the simulated
    latency is left out, and timestamps and clock-derived ids are parameters. */
module Api {
  import opened Types

  datatype ApiError =
    | NotFound(id: string)   // updateProcess on an id missing from the store
    | Transport              // any other rejected call (used by callers' models)

  /** `Partial<Process>`: `None` means the key is absent. For the optional
      fields of Process, `Some(None)` is a key present with value undefined,
      which still overrides in an object spread. */
  datatype Patch = Patch(
    id: Option<string>,
    name: Option<string>,
    status: Option<ProcessStatus>,
    totalItems: Option<int>,
    progress: Option<int>,
    paused: Option<bool>,
    messages: Option<seq<Message>>,
    createdAt: Option<string>,
    startDate: Option<Option<string>>,
    completionDate: Option<Option<string>>,
    targetDate: Option<string>,
    invoiceData: Option<Option<seq<InvoiceRow>>>)

  const EmptyPatch := Patch(None, None, None, None, None, None, None, None, None, None, None, None)

  function Pick<T>(override: Option<T>, current: T): T {
    if override.Some? then override.value else current
  }

  /** `{ ...p, ...u }`. */
  function Merge(p: Process, u: Patch): Process {
    Process(
      Pick(u.id, p.id), Pick(u.name, p.name), Pick(u.status, p.status),
      Pick(u.totalItems, p.totalItems), Pick(u.progress, p.progress), Pick(u.paused, p.paused),
      Pick(u.messages, p.messages), Pick(u.createdAt, p.createdAt), Pick(u.startDate, p.startDate),
      Pick(u.completionDate, p.completionDate), Pick(u.targetDate, p.targetDate),
      Pick(u.invoiceData, p.invoiceData))
  }

  /** The patch whose keys are those of `u1` and `u2`, `u2` winning. */
  function Then(u1: Patch, u2: Patch): Patch {
    Patch(
      if u2.id.Some? then u2.id else u1.id,
      if u2.name.Some? then u2.name else u1.name,
      if u2.status.Some? then u2.status else u1.status,
      if u2.totalItems.Some? then u2.totalItems else u1.totalItems,
      if u2.progress.Some? then u2.progress else u1.progress,
      if u2.paused.Some? then u2.paused else u1.paused,
      if u2.messages.Some? then u2.messages else u1.messages,
      if u2.createdAt.Some? then u2.createdAt else u1.createdAt,
      if u2.startDate.Some? then u2.startDate else u1.startDate,
      if u2.completionDate.Some? then u2.completionDate else u1.completionDate,
      if u2.targetDate.Some? then u2.targetDate else u1.targetDate,
      if u2.invoiceData.Some? then u2.invoiceData else u1.invoiceData)
  }

  /** Merging overrides exactly the keys present in the patch. */
  lemma MergeOverridesPresentKeys(p: Process, u: Patch)
    ensures u.id.Some? ==> Merge(p, u).id == u.id.value
    ensures u.id.None? ==> Merge(p, u).id == p.id
    ensures u.name.Some? ==> Merge(p, u).name == u.name.value
    ensures u.name.None? ==> Merge(p, u).name == p.name
    ensures u.status.Some? ==> Merge(p, u).status == u.status.value
    ensures u.status.None? ==> Merge(p, u).status == p.status
    ensures u.totalItems.Some? ==> Merge(p, u).totalItems == u.totalItems.value
    ensures u.totalItems.None? ==> Merge(p, u).totalItems == p.totalItems
    ensures u.progress.Some? ==> Merge(p, u).progress == u.progress.value
    ensures u.progress.None? ==> Merge(p, u).progress == p.progress
    ensures u.paused.Some? ==> Merge(p, u).paused == u.paused.value
    ensures u.paused.None? ==> Merge(p, u).paused == p.paused
    ensures u.messages.Some? ==> Merge(p, u).messages == u.messages.value
    ensures u.messages.None? ==> Merge(p, u).messages == p.messages
    ensures u.createdAt.Some? ==> Merge(p, u).createdAt == u.createdAt.value
    ensures u.createdAt.None? ==> Merge(p, u).createdAt == p.createdAt
    ensures u.startDate.Some? ==> Merge(p, u).startDate == u.startDate.value
    ensures u.startDate.None? ==> Merge(p, u).startDate == p.startDate
    ensures u.completionDate.Some? ==> Merge(p, u).completionDate == u.completionDate.value
    ensures u.completionDate.None? ==> Merge(p, u).completionDate == p.completionDate
    ensures u.targetDate.Some? ==> Merge(p, u).targetDate == u.targetDate.value
    ensures u.targetDate.None? ==> Merge(p, u).targetDate == p.targetDate
    ensures u.invoiceData.Some? ==> Merge(p, u).invoiceData == u.invoiceData.value
    ensures u.invoiceData.None? ==> Merge(p, u).invoiceData == p.invoiceData
    ensures Merge(p, EmptyPatch) == p
  {
    var e := Merge(p, EmptyPatch);
    assert e.id == p.id && e.name == p.name && e.status == p.status && e.totalItems == p.totalItems;
    assert e.progress == p.progress && e.paused == p.paused && e.messages == p.messages;
    assert e.createdAt == p.createdAt && e.startDate == p.startDate && e.completionDate == p.completionDate;
    assert e.targetDate == p.targetDate && e.invoiceData == p.invoiceData;
  }

  /** Two merges in a row are one merge of the combined patch: what a store
      that wrote updates back would accumulate. */
  lemma MergeThen(p: Process, u1: Patch, u2: Patch)
    ensures Merge(Merge(p, u1), u2) == Merge(p, Then(u1, u2))
  {
  }

  /** `fetchProcesses`: the whole fixture. */
  function FetchProcesses(store: seq<Process>): seq<Process> {
    store
  }

  /** `fetchProcessById`: the first stored process with the id, or null. */
  function FetchProcessById(store: seq<Process>, id: string): (r: Option<Process>)
    ensures r.Some? ==> r.value in store && r.value.id == id
    ensures r.Some? ==> exists i :: 0 <= i < |store| && store[i] == r.value
                                    && forall j :: 0 <= j < i ==> store[j].id != id
    ensures r.None? <==> forall p :: p in store ==> p.id != id
  {
    FindById(store, id)
  }

  /** `createProcess`: a fresh not-started record built from the partial data.
      `id` stands for `process-${Date.now()}`, `now` for the creation time and
      `inAWeek` for the default target date. */
  function CreateProcess(data: Patch, id: string, now: string, inAWeek: string): (r: Process)
    ensures r.id == id && r.createdAt == now
    ensures r.status == NotStarted && r.progress == 0 && !r.paused && r.messages == []
    ensures r.startDate.None? && r.completionDate.None? && r.invoiceData.None?
    ensures r.name != "" && r.totalItems != 0
    ensures data.name.Some? && data.name.value != "" ==> r.name == data.name.value
    ensures !(data.name.Some? && data.name.value != "") ==> r.name == "Neuer Prozess"
    ensures data.totalItems.Some? && data.totalItems.value != 0 ==> r.totalItems == data.totalItems.value
    ensures !(data.totalItems.Some? && data.totalItems.value != 0) ==> r.totalItems == 5
    ensures data.targetDate.Some? && data.targetDate.value != "" ==> r.targetDate == data.targetDate.value
    ensures !(data.targetDate.Some? && data.targetDate.value != "") ==> r.targetDate == inAWeek
  {
    Process(
      id,
      if data.name.Some? && data.name.value != "" then data.name.value else "Neuer Prozess",
      NotStarted,
      if data.totalItems.Some? && data.totalItems.value != 0 then data.totalItems.value else 5,
      0,
      false,
      [],
      now,
      None,
      None,
      if data.targetDate.Some? && data.targetDate.value != "" then data.targetDate.value else inAWeek,
      None)
  }

  /** `updateProcess`: the stored record merged with the updates, or NotFound.
      The store is not written. */
  function UpdateProcess(store: seq<Process>, id: string, updates: Patch): (r: Result<Process, ApiError>)
    ensures r.Err? <==> forall p :: p in store ==> p.id != id
    ensures r.Err? ==> r.error == NotFound(id)
    ensures r.Ok? ==> exists p :: p in store && p.id == id && r.value == Merge(p, updates)
    ensures r.Ok? ==> r.value == Merge(FindById(store, id).value, updates)
  {
    match FindById(store, id)
    case None => Err(NotFound(id))
    case Some(p) => Ok(Merge(p, updates))
  }

  /** Because nothing is written back, a second update starts again from the
      fixture record: the first update's changes are lost. */
  lemma UpdatesDoNotAccumulate(store: seq<Process>, id: string, u1: Patch, u2: Patch)
    requires UpdateProcess(store, id, u1).Ok?
    ensures UpdateProcess(store, id, u2).Ok?
    ensures UpdateProcess(store, id, u2).value == Merge(FindById(store, id).value, u2)
  {
  }

  /** `deleteProcess`: true for every id, known or not; the store is untouched. */
  function DeleteProcess(store: seq<Process>, id: string): (r: bool)
    ensures r
  {
    true
  }

  /** `fetchMessages`: the messages of the first process with the id, or []. */
  function FetchMessages(store: seq<Process>, processId: string): (r: seq<Message>)
    ensures (forall p :: p in store ==> p.id != processId) ==> r == []
    ensures forall i ::
              (0 <= i < |store| && store[i].id == processId && forall j :: 0 <= j < i ==> store[j].id != processId)
              ==> r == store[i].messages
  {
    match FindById(store, processId)
    case None => []
    case Some(p) => p.messages
  }

  /** `addMessage`: the given sender and content stamped with `now`. Nothing
      is stored, so the process id plays no part. */
  function AddMessage(processId: string, sender: Sender, content: string, now: string): (r: Message)
    ensures r.sender == sender && r.content == content && r.timestamp == now
  {
    Message(sender, content, now)
  }

  // ---- A store that writes back (the behaviour the callers evidently assume) ----

  /** `updateProcess` with the merged record written back into the store. */
  function UpdateAndStore(store: seq<Process>, id: string, updates: Patch): (r: (Result<Process, ApiError>, seq<Process>))
    ensures r.0 == UpdateProcess(store, id, updates)
    ensures r.0.Err? ==> r.1 == store
    ensures r.0.Ok? ==> r.1 == ReplaceWhereId(store, id, r.0.value)
  {
    var reply := UpdateProcess(store, id, updates);
    if reply.Ok? then (reply, ReplaceWhereId(store, id, reply.value)) else (reply, store)
  }

  /** `createProcess` with the new record appended to the store. */
  function CreateAndStore(store: seq<Process>, data: Patch, id: string, now: string, inAWeek: string): (r: (Process, seq<Process>))
    ensures r.0 == CreateProcess(data, id, now, inAWeek) && r.1 == store + [r.0]
  {
    var p := CreateProcess(data, id, now, inAWeek);
    (p, store + [p])
  }

  /** With write-back, a second update builds on the first. */
  lemma {:induction false} StoredUpdatesAccumulate(store: seq<Process>, id: string, u1: Patch, u2: Patch)
    requires UpdateProcess(store, id, u1).Ok?
    requires u1.id.None?
    ensures var (_, store1) := UpdateAndStore(store, id, u1);
      UpdateProcess(store1, id, u2) == Ok(Merge(Merge(FindById(store, id).value, u1), u2))
  {
    var (first, store1) := UpdateAndStore(store, id, u1);
    var p := FindById(store, id).value;
    var i :| 0 <= i < |store| && store[i] == p && forall j :: 0 <= j < i ==> store[j].id != id;
    assert first.value.id == id;
    assert store1[i] == Merge(p, u1);
    assert forall j :: 0 <= j < i ==> store1[j] == store[j];
    FindFirstAt(store1, id, i);
  }

  /** If the first process with `id` sits at `i`, `FindById` returns it. */
  lemma {:induction false} FindFirstAt(ps: seq<Process>, id: string, i: nat)
    requires i < |ps| && ps[i].id == id
    requires forall j :: 0 <= j < i ==> ps[j].id != id
    ensures FindById(ps, id) == Some(ps[i])
  {
    if i > 0 {
      FindFirstAt(ps[1..], id, i - 1);
    }
  }

  /** With write-back, a process created through the collaborator can then be updated. */
  lemma CreatedThenUpdatable(store: seq<Process>, data: Patch, id: string, now: string, inAWeek: string, u: Patch)
    ensures var (_, store1) := CreateAndStore(store, data, id, now, inAWeek);
      UpdateProcess(store1, id, u).Ok?
  {
    var (p, store1) := CreateAndStore(store, data, id, now, inAWeek);
    assert store1[|store|] == p && p.id == id;
  }
}
