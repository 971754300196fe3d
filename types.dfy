/** The records of the production-management application and its constants: the six
    process stages, jobs, the plating-type, jig and client masters, list filters, stage
    durations, users, correspondence logs and the cloud configuration. */
module Types {
  import opened Wrappers
  import opened Seqs

  /** The process stages a job passes through. */
  datatype ProcessStatus = Received | PreTreatment | Plating | PostTreatment | Inspection | Shipped
  {
    /** The string value the stage has in the records. */
    function Label(): string
    {
      match this
      case Received => "受付"
      case PreTreatment => "前処理"
      case Plating => "めっき"
      case PostTreatment => "後処理"
      case Inspection => "検査"
      case Shipped => "出荷済"
    }
  }

  /** `PROCESS_STATUS_ORDER`: the stages in processing order. */
  const ProcessStatusOrder: seq<ProcessStatus> :=
    [Received, PreTreatment, Plating, PostTreatment, Inspection, Shipped]

  /** The six labels are different, so a label names exactly one stage. */
  lemma LabelInjective(a: ProcessStatus, b: ProcessStatus)
    ensures a.Label() == b.Label() <==> a == b
  {
  }

  lemma ProcessStatusOrderComplete(s: ProcessStatus)
    ensures s in ProcessStatusOrder
  {
  }

  /** A production job. `status` holds a stage label; records read from storage or
      edited in bulk may hold any string there. Money is in whole yen. */
  datatype Job = Job(
    id: string,
    productName: string,
    clientId: string,
    platingTypeId: string,
    jigId: string,
    quantity: int,
    unitPrice: int,
    price: int,
    cost: int,
    startDate: string,
    deliveryDate: string,
    status: string,
    memo: Option<string>,
    createdBy: Option<string>,
    createdAt: Option<string>,
    updatedBy: Option<string>,
    updatedAt: Option<string>)

  datatype PlatingTypeMaster = PlatingTypeMaster(id: string, name: string, unitPrice: int, costPerLot: int)

  /** A jig; `totalQuantity` is the number of pieces one lot holds. */
  datatype JigMaster = JigMaster(id: string, name: string, totalQuantity: int)

  datatype ClientMaster = ClientMaster(
    id: string, name: string, contactPerson: Option<string>, phone: Option<string>, email: Option<string>)

  datatype Filters = Filters(
    clientId: string,
    productName: string,
    statuses: seq<ProcessStatus>,
    deliveryDateStart: string,
    deliveryDateEnd: string)

  /** Days per stage; a stage without an entry takes no days. */
  type Durations = map<ProcessStatus, int>

  function Duration(durations: Durations, s: ProcessStatus): int
  {
    if s in durations then durations[s] else 0
  }

  /** `DEFAULT_PROCESS_DURATIONS`. */
  const DefaultProcessDurations: Durations :=
    map[PreTreatment := 1, Plating := 3, PostTreatment := 2, Inspection := 1]

  datatype Role = Admin | User

  datatype UserAccount = UserAccount(
    id: string, username: string, name: string, role: Role, password: Option<string>)

  /** A correspondence log; `correspondenceDate` is the instant it was written, in
      milliseconds since the epoch. */
  datatype CorrespondenceLog = CorrespondenceLog(
    id: string,
    clientId: string,
    jobId: Option<string>,
    correspondenceDate: int,
    staffId: string,
    temperature: int,
    memo: string)

  datatype FirebaseConfig = FirebaseConfig(apiKey: string, authDomain: string, projectId: string)

  /** `platingTypes.find(pt => pt.id === id)`. */
  function FindPlatingType(platingTypes: seq<PlatingTypeMaster>, id: string): Option<PlatingTypeMaster>
  {
    FindFirst(platingTypes, (pt: PlatingTypeMaster) => pt.id == id)
  }

  /** `jigs.find(j => j.id === id)`. */
  function FindJig(jigs: seq<JigMaster>, id: string): Option<JigMaster>
  {
    FindFirst(jigs, (j: JigMaster) => j.id == id)
  }

  /** `jobs.find(j => j.id === id)`. */
  function FindJob(jobs: seq<Job>, id: string): Option<Job>
  {
    FindFirst(jobs, (j: Job) => j.id == id)
  }

  /** `new Map(entries).get(key) || fallback`: the map keeps the last entry for a key, and
      an empty name falls back as a missing one does. */
  function NameOr(entries: seq<(string, string)>, key: string, fallback: string): (r: string)
    ensures r == fallback || (exists i :: 0 <= i < |entries| && entries[i].0 == key && r == entries[i].1)
    ensures (forall i :: 0 <= i < |entries| ==> entries[i].0 != key) ==> r == fallback
    ensures r == "" ==> fallback == ""
  {
    if |entries| == 0 then fallback
    else
      var last := entries[|entries| - 1];
      if last.0 == key then (if last.1 == "" then fallback else last.1)
      else
        var r := NameOr(entries[..|entries| - 1], key, fallback);
        assert forall i :: 0 <= i < |entries| - 1 ==> entries[..|entries| - 1][i] == entries[i];
        r
  }

  function ClientNames(clients: seq<ClientMaster>): seq<(string, string)>
  {
    Map(clients, (c: ClientMaster) => (c.id, c.name))
  }

  function PlatingTypeNames(platingTypes: seq<PlatingTypeMaster>): seq<(string, string)>
  {
    Map(platingTypes, (pt: PlatingTypeMaster) => (pt.id, pt.name))
  }
}
