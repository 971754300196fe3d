/** The kanban board (`components/KanbanBoard.tsx`): a column per process stage, in
    processing order, holding the jobs at that stage in list order, and the names shown
    on each card. */
module Kanban {
  import opened Wrappers
  import opened Seqs
  import opened Types

  /** The jobs whose status is the string `key`, in list order. */
  function LabelColumn(jobs: seq<Job>, key: string): (r: seq<Job>)
    ensures forall j :: j in r <==> j in jobs && j.status == key
  {
    Filter(jobs, (j: Job) => j.status == key)
  }

  /** The jobs of column `s`. */
  function Column(jobs: seq<Job>, s: ProcessStatus): (r: seq<Job>)
    ensures forall j :: j in r <==> j in jobs && j.status == s.Label()
  {
    LabelColumn(jobs, s.Label())
  }

  /** A status that names one of the six stages. */
  predicate KnownStatus(job: Job)
  {
    exists s: ProcessStatus :: job.status == s.Label()
  }

  /** The keys `jobsByStatus` starts with: the six stage labels. */
  const ColumnLabels: set<string> := set s | s in ProcessStatusOrder :: s.Label()

  /** Extending the prefix by one job extends only the column of that job's status. */
  lemma LabelColumnStep(jobs: seq<Job>, i: int, key: string)
    requires 0 <= i < |jobs|
    ensures LabelColumn(jobs[..i + 1], key) ==
              if jobs[i].status == key then LabelColumn(jobs[..i], key) + [jobs[i]] else LabelColumn(jobs[..i], key)
  {
    assert jobs[..i + 1][..i] == jobs[..i];
  }

  /** The board `jobsByStatus` builds, as a value: each stage label mapped to its jobs. */
  function Grouped(jobs: seq<Job>): map<string, seq<Job>>
  {
    map key | key in ColumnLabels :: LabelColumn(jobs, key)
  }

  /** What the board holds: exactly the six stage labels, each with the jobs at that
      stage in list order. */
  lemma GroupedColumns(jobs: seq<Job>)
    ensures Grouped(jobs).Keys == ColumnLabels
    ensures forall s: ProcessStatus :: s.Label() in Grouped(jobs) && Grouped(jobs)[s.Label()] == Column(jobs, s)
  {
    forall s: ProcessStatus ensures s.Label() in ColumnLabels {
      ProcessStatusOrderComplete(s);
    }
  }

  /** One more job is pushed onto its own column when its status is a stage label, and
      changes nothing otherwise. */
  lemma GroupedStep(jobs: seq<Job>, i: int)
    requires 0 <= i < |jobs|
    ensures var g, job := Grouped(jobs[..i]), jobs[i];
            Grouped(jobs[..i + 1]) == if job.status in g then g[job.status := g[job.status] + [job]] else g
  {
    var g, g', job := Grouped(jobs[..i]), Grouped(jobs[..i + 1]), jobs[i];
    var h := if job.status in g then g[job.status := g[job.status] + [job]] else g;
    assert g'.Keys == h.Keys;
    forall key | key in g'
      ensures g'[key] == h[key]
    {
      LabelColumnStep(jobs, i, key);
    }
  }

  /** `jobsByStatus`: every stage label starts with an empty column, and each job whose
      status is one of those keys is pushed onto its column; other jobs go nowhere. */
  method GroupByStatus(jobs: seq<Job>) returns (groups: map<string, seq<Job>>)
    ensures groups == Grouped(jobs)
    ensures groups.Keys == ColumnLabels
    ensures forall s: ProcessStatus :: s.Label() in groups && groups[s.Label()] == Column(jobs, s)
  {
    groups := map key | key in ColumnLabels :: [];
    assert groups == Grouped(jobs[..0]);
    var i := 0;
    while i < |jobs|
      invariant 0 <= i <= |jobs|
      invariant groups == Grouped(jobs[..i])
    {
      var job := jobs[i];
      GroupedStep(jobs, i);
      if job.status in groups {
        groups := groups[job.status := groups[job.status] + [job]];
      }
      i := i + 1;
    }
    assert jobs[..i] == jobs;
    GroupedColumns(jobs);
  }

  /** The sum of the six column counts. */
  function ColumnTotal(jobs: seq<Job>): int
  {
    |Column(jobs, Received)| + |Column(jobs, PreTreatment)| + |Column(jobs, Plating)|
    + |Column(jobs, PostTreatment)| + |Column(jobs, Inspection)| + |Column(jobs, Shipped)|
  }

  /** The column counts add up to the number of jobs with a known status: each such job
      is in exactly one column. */
  lemma {:induction false} ColumnCountsSum(jobs: seq<Job>)
    ensures ColumnTotal(jobs) == |Filter(jobs, KnownStatus)|
  {
    if |jobs| > 0 {
      var init, last := jobs[..|jobs| - 1], jobs[|jobs| - 1];
      ColumnCountsSum(init);
      if KnownStatus(last) {
        var s: ProcessStatus :| last.status == s.Label();
        forall t | t != s ensures last.status != t.Label() {
          LabelInjective(s, t);
        }
      }
    }
  }

  /** The name a card shows for a plating type or client id: the master's name, or 未設定
      when the id is unknown or its name is empty. */
  function CardName(entries: seq<(string, string)>, id: string): (r: string)
    ensures r != ""
  {
    NameOr(entries, id, "未設定")
  }

  /** The plating-type name on a card comes from a plating type with that id, and an id
      no plating type has shows 未設定. */
  lemma CardPlatingTypeName(platingTypes: seq<PlatingTypeMaster>, id: string)
    ensures var r := CardName(PlatingTypeNames(platingTypes), id);
            r == "未設定" || exists pt :: pt in platingTypes && pt.id == id && pt.name == r
    ensures (forall pt :: pt in platingTypes ==> pt.id != id) ==> CardName(PlatingTypeNames(platingTypes), id) == "未設定"
  {
    var entries := PlatingTypeNames(platingTypes);
    var r := CardName(entries, id);
    if r != "未設定" {
      var i :| 0 <= i < |entries| && entries[i].0 == id && r == entries[i].1;
      assert platingTypes[i] in platingTypes;
    }
    if forall pt :: pt in platingTypes ==> pt.id != id {
      assert forall i :: 0 <= i < |entries| ==> entries[i].0 != id by {
        forall i | 0 <= i < |entries| ensures entries[i].0 != id {
          assert platingTypes[i] in platingTypes;
        }
      }
    }
  }

  /** The client name on a card comes from a client with that id, and an id no client
      has shows 未設定. */
  lemma CardClientName(clients: seq<ClientMaster>, id: string)
    ensures var r := CardName(ClientNames(clients), id);
            r == "未設定" || exists c :: c in clients && c.id == id && c.name == r
    ensures (forall c :: c in clients ==> c.id != id) ==> CardName(ClientNames(clients), id) == "未設定"
  {
    var entries := ClientNames(clients);
    var r := CardName(entries, id);
    if r != "未設定" {
      var i :| 0 <= i < |entries| && entries[i].0 == id && r == entries[i].1;
      assert clients[i] in clients;
    }
    if forall c :: c in clients ==> c.id != id {
      assert forall i :: 0 <= i < |entries| ==> entries[i].0 != id by {
        forall i | 0 <= i < |entries| ensures entries[i].0 != id {
          assert clients[i] in clients;
        }
      }
    }
  }
}
