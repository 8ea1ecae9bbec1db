/** The process list page of components/processes-page.tsx: a purely local
    list of processes with search and status filter, creation from a form,
    and start / pause / complete / delete as id-keyed list updates. */
module ProcessesPage {
  import opened Seqs
  import opened Text
  import opened Types
  import opened KanbanBoard
  import AgentCard

  // ---- The form's number field ----

  /** `Number.parseInt(text)`: leading white space, an optional sign and a
      run of digits; `None` stands for NaN. */
  function ParseIntInput(text: string): (r: Option<int>)
  {
    var t := TrimStart(text);
    var negative := t != [] && t[0] == '-';
    var body := if t != [] && (t[0] == '-' || t[0] == '+') then t[1..] else t;
    var n := DigitRunLength(body);
    if n == 0 then None
    else
      var v: int := DigitsValue(body[..n]);
      Some(if negative then -v else v)
  }

  /** A written natural number reads back as itself. */
  lemma ParseIntRoundTrip(n: nat)
    ensures ParseIntInput(NatToString(n)) == Some(n)
  {
    var s := NatToString(n);
    assert TrimStart(s) == s by {
      assert !IsSpace(s[0]);
    }
    DigitRunOfDigits(s);
    assert s[..|s|] == s;
    NatToStringValue(n);
  }

  /** A field without any digit, such as an empty one, reads as NaN. */
  lemma ParseIntWithoutDigits(text: string)
    requires forall i :: 0 <= i < |text| ==> !IsDigit(text[i])
    ensures ParseIntInput(text).None?
  {
    var t := TrimStart(text);
    var body := if t != [] && (t[0] == '-' || t[0] == '+') then t[1..] else t;
    assert body == text[|text| - |body|..];
    if body != [] {
      assert !IsDigit(body[0]);
    }
  }

  // ---- Creation ----

  /** The "new process" form: `totalItems` is `None` when the field held NaN. */
  datatype NewProcessForm = NewProcessForm(name: string, totalItems: Option<int>, targetDate: string)

  /** The form's initial and reset state; the target date a week ahead is supplied. */
  function BlankForm(inAWeek: string): NewProcessForm {
    NewProcessForm("", Some(5), inAWeek)
  }

  /** `newProcess.totalItems || 5`: NaN and 0 both give 5. */
  function DefaultTotal(t: Option<int>): (r: int)
    ensures r != 0
    ensures t.Some? && t.value != 0 ==> r == t.value
    ensures t.None? || t.value == 0 ==> r == 5
  {
    if t.Some? && t.value != 0 then t.value else 5
  }

  /** The process `handleCreateProcess` builds. `id` stands for
      `process-${Date.now()}`, `now` for the creation time and `targetIso`
      for the form's date converted to ISO form. */
  function NewProcess(form: NewProcessForm, id: string, now: string, targetIso: string): (r: Process)
    ensures r.id == id && r.createdAt == now && r.targetDate == targetIso
    ensures r.name == (if form.name == "" then "Neuer Prozess" else form.name)
    ensures r.totalItems == DefaultTotal(form.totalItems)
    ensures r.status == NotStarted && r.progress == 0 && !r.paused && r.messages == []
    ensures r.startDate.None? && r.completionDate.None? && r.invoiceData.None?
  {
    Process(id, if form.name == "" then "Neuer Prozess" else form.name, NotStarted,
            DefaultTotal(form.totalItems), 0, false, [], now, None, None, targetIso, None)
  }

  // ---- The list transitions ----

  /** `{ ...p, status: "in-progress", startDate: now }`. */
  function MarkStarted(now: string): Process -> Process {
    (p: Process) => p.(status := InProgress, startDate := Some(now))
  }

  /** `{ ...p, paused: !p.paused }`. */
  function FlipPaused(): Process -> Process {
    (p: Process) => p.(paused := !p.paused)
  }

  /** `{ ...p, status: "completed", completionDate: now, progress: p.totalItems }`. */
  function MarkCompleted(now: string): Process -> Process {
    (p: Process) => p.(status := Completed, completionDate := Some(now), progress := p.totalItems)
  }

  function StartInList(ps: seq<Process>, id: string, now: string): seq<Process> {
    UpdateWhereId(ps, id, MarkStarted(now))
  }

  function TogglePauseInList(ps: seq<Process>, id: string): seq<Process> {
    UpdateWhereId(ps, id, FlipPaused())
  }

  function CompleteInList(ps: seq<Process>, id: string, now: string): seq<Process> {
    UpdateWhereId(ps, id, MarkCompleted(now))
  }

  /** Start changes status and start date of the processes with the id and
      nothing else. It checks no status: a completed process is started again
      (the page only offers the button on not-started processes). */
  lemma StartSpec(ps: seq<Process>, id: string, now: string)
    ensures var r := StartInList(ps, id, now);
      |r| == |ps|
      && (forall i :: 0 <= i < |ps| && ps[i].id == id ==>
            r[i].status == InProgress && r[i].startDate == Some(now)
            && r[i].(status := ps[i].status, startDate := ps[i].startDate) == ps[i])
      && (forall i :: 0 <= i < |ps| && ps[i].id != id ==> r[i] == ps[i])
  {
  }

  /** Pausing twice gives back the list. */
  lemma TogglePauseTwice(ps: seq<Process>, id: string)
    ensures TogglePauseInList(TogglePauseInList(ps, id), id) == ps
  {
    var r := TogglePauseInList(TogglePauseInList(ps, id), id);
    assert |r| == |ps|;
    forall i | 0 <= i < |ps| ensures r[i] == ps[i] {
      var once := TogglePauseInList(ps, id);
      assert once[i].id == ps[i].id;
      if ps[i].id == id {
        assert once[i] == ps[i].(paused := !ps[i].paused);
        assert r[i] == once[i].(paused := !once[i].paused);
      }
    }
  }

  /** Pause flips the flag of the processes with the id only. */
  lemma TogglePauseSpec(ps: seq<Process>, id: string)
    ensures var r := TogglePauseInList(ps, id);
      |r| == |ps|
      && (forall i :: 0 <= i < |ps| && ps[i].id == id ==>
            r[i].paused == !ps[i].paused && r[i].(paused := ps[i].paused) == ps[i])
      && (forall i :: 0 <= i < |ps| && ps[i].id != id ==> r[i] == ps[i])
  {
  }

  /** Complete sets status, completion date, and progress to that process's total. */
  lemma CompleteSpec(ps: seq<Process>, id: string, now: string)
    ensures var r := CompleteInList(ps, id, now);
      |r| == |ps|
      && (forall i :: 0 <= i < |ps| && ps[i].id == id ==>
            r[i].status == Completed && r[i].completionDate == Some(now)
            && r[i].progress == ps[i].totalItems && r[i].totalItems == ps[i].totalItems
            && r[i].(status := ps[i].status, completionDate := ps[i].completionDate,
                     progress := ps[i].progress) == ps[i])
      && (forall i :: 0 <= i < |ps| && ps[i].id != id ==> r[i] == ps[i])
  {
  }

  /** A completed process with a positive total shows 100 per cent in its
      list row, which is also what the card's formula gives. */
  lemma CompletedShowsFull(ps: seq<Process>, id: string, now: string, i: nat)
    requires i < |ps| && ps[i].id == id && ps[i].totalItems > 0
    ensures var r := CompleteInList(ps, id, now)[i];
      ListPercent(r.progress, r.totalItems) == Some(100)
    ensures AgentCard.ProgressPercent(CompleteInList(ps, id, now)[i].progress, ps[i].totalItems) == 100
  {
    var r := CompleteInList(ps, id, now)[i];
    AgentCard.PercentInRange(ps[i].totalItems, ps[i].totalItems);
    ListPercentAgreesWithCard(r.progress, r.totalItems);
  }

  // ---- Search and status filter ----

  /** The select's value, read by the filter. Any other string acts as "all". */
  predicate StatusAllowed(filter: string, s: ProcessStatus) {
    if filter == "not-started" then s == NotStarted
    else if filter == "in-progress" then s == InProgress
    else if filter == "completed" then s == Completed
    else true
  }

  /** The filter's predicate for one process. */
  function PageSelector(term: string, filter: string): Process -> bool {
    (p: Process) => MatchesSearch(p.name, term) && StatusAllowed(filter, p.status)
  }

  /** `filteredProcesses` before sorting. */
  function PageFilter(ps: seq<Process>, term: string, filter: string): (r: seq<Process>)
    ensures forall p :: p in r <==> p in ps && MatchesSearch(p.name, term) && StatusAllowed(filter, p.status)
  {
    Filter(ps, PageSelector(term, filter))
  }

  /** The filtered list keeps the page's order and each kept process matches. */
  lemma PageFilterSpec(ps: seq<Process>, term: string, filter: string)
    ensures IsSubsequence(PageFilter(ps, term, filter), ps)
    ensures forall p :: p in PageFilter(ps, term, filter) ==> MatchesSearch(p.name, term)
    ensures filter == "not-started" ==> forall p :: p in PageFilter(ps, term, filter) ==> p.status == NotStarted
    ensures filter == "in-progress" ==> forall p :: p in PageFilter(ps, term, filter) ==> p.status == InProgress
    ensures filter == "completed" ==> forall p :: p in PageFilter(ps, term, filter) ==> p.status == Completed
  {
    FilterIsSubsequence(ps, PageSelector(term, filter));
  }

  /** An unrecognised filter value gives the same list as "all". */
  lemma UnknownFilterIsAll(ps: seq<Process>, term: string, filter: string)
    requires filter != "not-started" && filter != "in-progress" && filter != "completed"
    ensures PageFilter(ps, term, filter) == PageFilter(ps, term, "all")
  {
    FilterCongruent(ps, PageSelector(term, filter), PageSelector(term, "all"));
  }

  /** With "all" and an empty search nothing is filtered out. */
  lemma EmptySearchAllKeepsEverything(ps: seq<Process>)
    ensures PageFilter(ps, "", "all") == ps
  {
    forall i | 0 <= i < |ps| ensures PageSelector("", "all")(ps[i]) {
      EmptySearchMatches(ps[i].name);
    }
    FilterKeepsAll(ps, PageSelector("", "all"));
  }

  /** The list inside one status column: that status and the search. */
  function ColumnList(ps: seq<Process>, s: ProcessStatus, term: string): (r: seq<Process>)
    ensures forall p :: p in r <==> p in ps && p.status == s && MatchesSearch(p.name, term)
  {
    Filter(ps, (p: Process) => p.status == s && MatchesSearch(p.name, term))
  }

  /** The column headers' counts, which ignore the search. */
  function StatusCounts(ps: seq<Process>): (r: (nat, nat, nat))
    ensures r.0 + r.1 + r.2 == |ps|
    ensures r.0 == |Column(ps, NotStarted)| && r.1 == |Column(ps, InProgress)| && r.2 == |Column(ps, Completed)|
  {
    ColumnSizesSum(ps);
    (|Column(ps, NotStarted)|, |Column(ps, InProgress)|, |Column(ps, Completed)|)
  }

  /** The row percentage `Math.round(progress / totalItems * 100)`. Unlike the
      card's, it has no guard: at a zero total it is NaN (`None`). */
  function ListPercent(progress: int, totalItems: int): (r: Option<int>)
    ensures r.None? <==> totalItems == 0
  {
    if totalItems == 0 then None else Some(AgentCard.RoundRatio(100 * progress, totalItems))
  }

  /** For a positive total the row shows the card's percentage; at zero the
      card shows 0 and the row has none. */
  lemma ListPercentAgreesWithCard(progress: int, totalItems: int)
    ensures totalItems > 0 ==> ListPercent(progress, totalItems) == Some(AgentCard.ProgressPercent(progress, totalItems))
    ensures totalItems == 0 ==> ListPercent(progress, totalItems).None? && AgentCard.ProgressPercent(progress, 0) == 0
  {
  }

  // ---- The page's state ----

  class Page {
    var processes: seq<Process>
    var newProcess: NewProcessForm
    var newProcessOpen: bool

    constructor (initial: seq<Process>, inAWeek: string)
      ensures processes == initial && newProcess == BlankForm(inAWeek) && !newProcessOpen
    {
      processes := initial;
      newProcess := BlankForm(inAWeek);
      newProcessOpen := false;
    }

    /** The number field of the form. */
    method SetTotalItemsText(text: string)
      modifies this
      ensures newProcess == old(newProcess).(totalItems := ParseIntInput(text))
      ensures processes == old(processes) && newProcessOpen == old(newProcessOpen)
    {
      newProcess := newProcess.(totalItems := ParseIntInput(text));
    }

    /** `handleCreateProcess`: append the new process, reset and close the form. */
    method HandleCreate(id: string, now: string, targetIso: string, inAWeek: string)
      modifies this
      ensures processes == old(processes) + [NewProcess(old(newProcess), id, now, targetIso)]
      ensures newProcess == BlankForm(inAWeek) && !newProcessOpen
    {
      processes := processes + [NewProcess(newProcess, id, now, targetIso)];
      newProcess := BlankForm(inAWeek);
      newProcessOpen := false;
    }

    method HandleStart(id: string, now: string)
      modifies this
      ensures processes == StartInList(old(processes), id, now)
      ensures newProcess == old(newProcess) && newProcessOpen == old(newProcessOpen)
    {
      processes := StartInList(processes, id, now);
    }

    method HandlePause(id: string)
      modifies this
      ensures processes == TogglePauseInList(old(processes), id)
      ensures newProcess == old(newProcess) && newProcessOpen == old(newProcessOpen)
    {
      processes := TogglePauseInList(processes, id);
    }

    method HandleDelete(id: string)
      modifies this
      ensures processes == RemoveId(old(processes), id)
      ensures newProcess == old(newProcess) && newProcessOpen == old(newProcessOpen)
    {
      processes := RemoveId(processes, id);
    }

    method HandleComplete(id: string, now: string)
      modifies this
      ensures processes == CompleteInList(old(processes), id, now)
      ensures newProcess == old(newProcess) && newProcessOpen == old(newProcessOpen)
    {
      processes := CompleteInList(processes, id, now);
    }
  }
}
