/** The kanban board of components/kanban-board.tsx: the process list split
    into one column per status. The same three filters give the per-status
    counts of the processes page and the dashboard's metrics. */
module KanbanBoard {
  import opened Seqs
  import opened Types

  /** The selector `p => p.status === s`. */
  function StatusIs(s: ProcessStatus): Process -> bool {
    (p: Process) => p.status == s
  }

  /** `processes.filter(process => process.status === s)`. */
  function Column(ps: seq<Process>, s: ProcessStatus): seq<Process> {
    Filter(ps, StatusIs(s))
  }

  /** Each column holds exactly the processes of its status, in input order. */
  lemma ColumnSpec(ps: seq<Process>, s: ProcessStatus)
    ensures forall p :: p in Column(ps, s) <==> p in ps && p.status == s
    ensures IsSubsequence(Column(ps, s), ps)
  {
    FilterIsSubsequence(ps, StatusIs(s));
  }

  /** The three columns partition the input: every occurrence of every process
      is in the column of its status and in no other. */
  lemma {:induction false} ColumnsPartition(ps: seq<Process>)
    ensures multiset(Column(ps, NotStarted)) + multiset(Column(ps, InProgress))
            + multiset(Column(ps, Completed)) == multiset(ps)
  {
    if ps != [] {
      ColumnsPartition(ps[1..]);
      assert ps == [ps[0]] + ps[1..];
    }
  }

  /** A process lies in exactly one column, the one of its status. */
  lemma ExactlyOneColumn(ps: seq<Process>, p: Process, s: ProcessStatus)
    requires p in ps
    ensures p in Column(ps, s) <==> s == p.status
  {
  }

  /** The column sizes add up to the number of processes. */
  lemma ColumnSizesSum(ps: seq<Process>)
    ensures |Column(ps, NotStarted)| + |Column(ps, InProgress)| + |Column(ps, Completed)| == |ps|
  {
    ColumnsPartition(ps);
    assert |multiset(ps)| == |ps|;
  }
}
