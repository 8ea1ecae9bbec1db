/** The communication overview of components/communication-page.tsx: the
    processes that have messages, narrowed by a search term and a status
    filter, each shown with its last activity. */
module CommunicationPage {
  import opened Seqs
  import opened Text
  import opened Types

  /** The selector `process => process.messages && process.messages.length > 0`. */
  function HasMessages(): Process -> bool {
    (p: Process) => |p.messages| > 0
  }

  /** `processesWithMessages`. */
  function WithMessages(ps: seq<Process>): (r: seq<Process>)
    ensures forall p :: p in r <==> p in ps && p.messages != []
  {
    Filter(ps, HasMessages())
  }

  /** The filter's status test: "active" is in progress, "completed" is
      completed, "all" and every other value accept any status. */
  predicate StatusAllowed(filter: string, s: ProcessStatus) {
    if filter == "active" then s == InProgress
    else if filter == "completed" then s == Completed
    else true
  }

  function Selector(term: string, filter: string): Process -> bool {
    (p: Process) => MatchesSearch(p.name, term) && StatusAllowed(filter, p.status)
  }

  /** `filteredProcesses`. */
  function Filtered(ps: seq<Process>, term: string, filter: string): (r: seq<Process>)
    ensures forall p :: p in r <==>
      p in ps && p.messages != [] && MatchesSearch(p.name, term) && StatusAllowed(filter, p.status)
  {
    Filter(WithMessages(ps), Selector(term, filter))
  }

  /** The listed processes keep the order of the candidates, which keep the
      order of all processes; every listed one has messages and matches. */
  lemma FilteredSpec(ps: seq<Process>, term: string, filter: string)
    ensures IsSubsequence(Filtered(ps, term, filter), WithMessages(ps))
    ensures IsSubsequence(WithMessages(ps), ps)
    ensures forall p :: p in Filtered(ps, term, filter) ==> p.messages != [] && MatchesSearch(p.name, term)
    ensures filter == "active" ==> forall p :: p in Filtered(ps, term, filter) ==> p.status == InProgress
    ensures filter == "completed" ==> forall p :: p in Filtered(ps, term, filter) ==> p.status == Completed
  {
    FilterIsSubsequence(WithMessages(ps), Selector(term, filter));
    FilterIsSubsequence(ps, HasMessages());
  }

  /** "all" and an unknown value ("not-started" included) list the same. */
  lemma OtherFilterIsAll(ps: seq<Process>, term: string, filter: string)
    requires filter != "active" && filter != "completed"
    ensures Filtered(ps, term, filter) == Filtered(ps, term, "all")
  {
    var c := WithMessages(ps);
    FilterCongruent(c, Selector(term, filter), Selector(term, "all"));
  }

  /** With "all" and an empty search, every process with messages is listed. */
  lemma EmptySearchListsAllCandidates(ps: seq<Process>)
    ensures Filtered(ps, "", "all") == WithMessages(ps)
  {
    var c := WithMessages(ps);
    forall i | 0 <= i < |c| ensures Selector("", "all")(c[i]) {
      EmptySearchMatches(c[i].name);
    }
    FilterKeepsAll(c, Selector("", "all"));
  }

  /** "Letzte Aktivität": the last message's timestamp, or none. */
  datatype LastActivity = At(timestamp: string) | NoActivity

  function LastActivityOf(p: Process): (r: LastActivity)
    ensures r.NoActivity? <==> p.messages == []
    ensures r.At? ==> r.timestamp == p.messages[|p.messages| - 1].timestamp
  {
    if |p.messages| > 0 then At(p.messages[|p.messages| - 1].timestamp) else NoActivity
  }

  /** Every listed process shows an activity time. */
  lemma ListedHaveActivity(ps: seq<Process>, term: string, filter: string, p: Process)
    requires p in Filtered(ps, term, filter)
    ensures LastActivityOf(p).At?
  {
  }

  /** Appending a message makes it the last activity. */
  lemma AppendedMessageIsLast(p: Process, m: Message)
    ensures LastActivityOf(p.(messages := p.messages + [m])) == At(m.timestamp)
  {
  }
}
