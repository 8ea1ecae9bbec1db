/** The records of the dashboard (lib/types.ts, and the invoice row of the
    editable table), and the id-keyed `map`/`filter` shapes that every
    process handler is built from. */
module Types {
  import opened Seqs

  datatype Option<T> = None | Some(value: T)

  datatype Result<T, E> = Ok(value: T) | Err(error: E)

  datatype ProcessStatus = NotStarted | InProgress | Completed

  datatype Sender = System | Participant

  datatype Message = Message(sender: Sender, content: string, timestamp: string)

  /** An invoice row. The id is optional; the amount is held in euro cents
      (the source holds a float); the transient flags are false when absent. */
  datatype InvoiceRow = InvoiceRow(
    id: Option<string>,
    mandantPhone: string,
    invoiceNumber: string,
    amount: int,
    isNew: bool,
    isEditing: bool)

  /** A process. Timestamps are opaque strings supplied by the caller. */
  datatype Process = Process(
    id: string,
    name: string,
    status: ProcessStatus,
    totalItems: int,
    progress: int,
    paused: bool,
    messages: seq<Message>,
    createdAt: string,
    startDate: Option<string>,
    completionDate: Option<string>,
    targetDate: string,
    invoiceData: Option<seq<InvoiceRow>>)

  /** JavaScript truthiness of an optional string: present and non-empty. */
  predicate Truthy(s: Option<string>) {
    s.Some? && s.value != ""
  }

  /** `ps.map(p => p.id === id ? f(p) : p)`: the shape of every lifecycle handler. */
  function UpdateWhereId(ps: seq<Process>, id: string, f: Process -> Process): (r: seq<Process>)
    ensures |r| == |ps|
    ensures forall i :: 0 <= i < |ps| && ps[i].id == id ==> r[i] == f(ps[i])
    ensures forall i :: 0 <= i < |ps| && ps[i].id != id ==> r[i] == ps[i]
  {
    seq(|ps|, i requires 0 <= i < |ps| => if ps[i].id == id then f(ps[i]) else ps[i])
  }

  /** The function that replaces any process by `q`. */
  function ConstantlyProcess(q: Process): Process -> Process {
    (_: Process) => q
  }

  /** `ps.map(p => p.id === id ? q : p)`. */
  function ReplaceWhereId(ps: seq<Process>, id: string, q: Process): (r: seq<Process>)
    ensures |r| == |ps|
    ensures forall i :: 0 <= i < |ps| ==> r[i] == (if ps[i].id == id then q else ps[i])
  {
    UpdateWhereId(ps, id, ConstantlyProcess(q))
  }

  /** The selector `p => p.id !== id`. */
  function IdIsNot(id: string): Process -> bool {
    (p: Process) => p.id != id
  }

  /** `ps.filter(p => p.id !== id)`. */
  function RemoveId(ps: seq<Process>, id: string): seq<Process> {
    Filter(ps, IdIsNot(id))
  }

  /** Removal by id drops exactly the processes with that id and keeps the
      rest in their order. */
  lemma RemoveIdSpec(ps: seq<Process>, id: string)
    ensures IsSubsequence(RemoveId(ps, id), ps)
    ensures forall p :: p in RemoveId(ps, id) <==> p in ps && p.id != id
    ensures forall p :: p in ps && p.id != id ==> multiset(RemoveId(ps, id))[p] == multiset(ps)[p]
  {
    FilterIsSubsequence(ps, IdIsNot(id));
    forall p | p in ps && p.id != id
      ensures multiset(RemoveId(ps, id))[p] == multiset(ps)[p]
    {
      FilterCount(ps, IdIsNot(id), p);
    }
  }

  /** `ps.find(p => p.id === id)`: the first process with that id. */
  function FindById(ps: seq<Process>, id: string): (r: Option<Process>)
    ensures r.None? <==> forall i :: 0 <= i < |ps| ==> ps[i].id != id
    ensures r.Some? ==> exists i :: 0 <= i < |ps| && ps[i] == r.value
                          && r.value.id == id && forall j :: 0 <= j < i ==> ps[j].id != id
  {
    if ps == [] then None
    else if ps[0].id == id then Some(ps[0])
    else
      var r := FindById(ps[1..], id);
      assert r.Some? ==> exists i :: 1 <= i < |ps| && ps[i] == r.value
                          && forall j :: 0 <= j < i ==> ps[j].id != id by {
        if r.Some? {
          var k :| 0 <= k < |ps[1..]| && ps[1..][k] == r.value
                   && forall j :: 0 <= j < k ==> ps[1..][j].id != id;
          assert ps[k + 1] == r.value;
          assert forall j :: 0 <= j < k + 1 ==> ps[j].id != id by {
            forall j | 0 <= j < k + 1 ensures ps[j].id != id {
              if j > 0 { assert ps[j] == ps[1..][j - 1]; }
            }
          }
        }
      }
      r
  }
}
