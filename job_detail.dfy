/** The job edit form (`components/JobDetailModal.tsx`): the price, cost, lot and delivery
    date recalculation, the field handler, product-name suggestions, taking over a past
    job, the client's past jobs and the required-field check on save. */
module JobDetail {
  import opened Wrappers
  import opened Seqs
  import opened Strings
  import opened CivilDate
  import opened Types

  /** `Math.ceil(a / b)` for positive `b`. */
  function CeilDiv(a: int, b: int): int
    requires b > 0
  {
    (a + b - 1) / b
  }

  /** Number of lots: the quantity spread over jigs of `totalQuantity` pieces each; 0 when
      the plating type or the jig is not in the master or either count is not positive. */
  function LotCount(platingType: Option<PlatingTypeMaster>, jig: Option<JigMaster>, quantity: int): (lots: int)
    ensures lots >= 0
    ensures platingType.Some? && jig.Some? && quantity > 0 && jig.value.totalQuantity > 0 ==>
              lots >= 1
              && (lots - 1) * jig.value.totalQuantity < quantity <= lots * jig.value.totalQuantity
    ensures !(platingType.Some? && jig.Some? && quantity > 0 && jig.value.totalQuantity > 0) ==> lots == 0
  {
    if platingType.Some? && jig.Some? && quantity > 0 && jig.value.totalQuantity > 0 then
      var cap := jig.value.totalQuantity;
      var lots := CeilDiv(quantity, cap);
      assert lots * cap >= quantity && (lots - 1) * cap < quantity by {
        var q, r := (quantity + cap - 1) / cap, (quantity + cap - 1) % cap;
        assert quantity + cap - 1 == q * cap + r && 0 <= r < cap;
      }
      lots
    else 0
  }

  /** Cost: lots times the plating type's cost per lot, 0 when no lot is counted. */
  function Cost(platingType: Option<PlatingTypeMaster>, jig: Option<JigMaster>, quantity: int): (cost: int)
    ensures LotCount(platingType, jig, quantity) == 0 ==> cost == 0
    ensures platingType.Some? ==> cost == LotCount(platingType, jig, quantity) * platingType.value.costPerLot
  {
    var lots := LotCount(platingType, jig, quantity);
    if lots > 0 then lots * platingType.value.costPerLot else 0
  }

  /** The unit price in force: the job's own when positive, else the master's. */
  function EffectiveUnitPrice(jobUnitPrice: int, platingType: PlatingTypeMaster): int
  {
    if jobUnitPrice > 0 then jobUnitPrice else platingType.unitPrice
  }

  /** Price: quantity times the effective unit price; 0 without a plating type or with a
      negative quantity. */
  function Price(platingType: Option<PlatingTypeMaster>, quantity: int, unitPrice: int): (price: int)
    ensures platingType.None? || quantity < 0 ==> price == 0
    ensures platingType.Some? && quantity >= 0 ==>
              price == quantity * EffectiveUnitPrice(unitPrice, platingType.value)
    ensures platingType.Some? && quantity >= 0 && unitPrice >= 0 && platingType.value.unitPrice >= 0 ==> price >= 0
  {
    if platingType.Some? && quantity >= 0 then quantity * EffectiveUnitPrice(unitPrice, platingType.value) else 0
  }

  /** Extra plating days: one for every five lots after the first. */
  function ExtraPlatingDays(lots: int): (days: int)
    ensures days >= 0
  {
    if lots > 1 then (lots - 1) / 5 else 0
  }

  /** One to five lots add nothing, six to ten add one day, and more lots never mean
      fewer extra days. */
  lemma ExtraPlatingDaysSteps(a: int, b: int)
    ensures 1 <= a <= 5 ==> ExtraPlatingDays(a) == 0
    ensures 6 <= a <= 10 ==> ExtraPlatingDays(a) == 1
    ensures a <= b ==> ExtraPlatingDays(a) <= ExtraPlatingDays(b)
    ensures a >= 1 ==> ExtraPlatingDays(a + 5) == ExtraPlatingDays(a) + 1
  {
    if 1 <= a <= b {
      assert (a - 1) / 5 <= (b - 1) / 5 by {
        var qa, qb := (a - 1) / 5, (b - 1) / 5;
        assert a - 1 == qa * 5 + (a - 1) % 5;
        assert b - 1 == qb * 5 + (b - 1) % 5;
      }
    }
  }

  /** Total lead time: pre-treatment, plating with its extra days, post-treatment and
      inspection. */
  function TotalLeadTime(durations: Durations, lots: int): int
  {
    Duration(durations, PreTreatment)
    + (Duration(durations, Plating) + ExtraPlatingDays(lots))
    + Duration(durations, PostTreatment)
    + Duration(durations, Inspection)
  }

  /** Only the four working stages count: entries for the received and shipped stages,
      or missing entries, make no difference beyond their own days. */
  lemma TotalLeadTimeStages(durations: Durations, lots: int, x: int, y: int)
    ensures TotalLeadTime(durations[Received := x][Shipped := y], lots) == TotalLeadTime(durations, lots)
    ensures TotalLeadTime(map[], lots) == ExtraPlatingDays(lots)
    ensures TotalLeadTime(DefaultProcessDurations, lots) == 7 + ExtraPlatingDays(lots)
  {
    var d := durations[Received := x][Shipped := y];
    assert Duration(d, PreTreatment) == Duration(durations, PreTreatment);
    assert Duration(d, Plating) == Duration(durations, Plating);
    assert Duration(d, PostTreatment) == Duration(durations, PostTreatment);
    assert Duration(d, Inspection) == Duration(durations, Inspection);
  }

  /** The delivery date: empty without a start date, the start date moved by the lead
      time, or the `RangeError` `toISOString` throws for a start date that does not read
      as a date. */
  function DeliveryDate(startDate: string, durations: Durations, lots: int): (r: Result<string>)
    ensures startDate == "" ==> r == Ok("")
    ensures startDate != "" && Parse(startDate).None? ==> r.Err?
    ensures startDate != "" && Parse(startDate).Some? ==>
              r == Ok(Format(AddDays(Parse(startDate).value, TotalLeadTime(durations, lots))))
  {
    if startDate == "" then Ok("")
    else
      match Parse(startDate)
      case None => Err("RangeError: Invalid time value")
      case Some(start) => Ok(Format(AddDays(start, TotalLeadTime(durations, lots))))
  }

  /** With no negative stage durations the delivery date is never before the start date;
      within four-digit years it reads back as the start date plus the lead time. */
  lemma DeliveryDateAfterStart(startDate: string, durations: Durations, lots: int)
    requires Parse(startDate).Some?
    requires forall s :: s in durations ==> durations[s] >= 0
    ensures var start := Parse(startDate).value;
            var due := AddDays(start, TotalLeadTime(durations, lots));
            !Before(due, start)
            && (due.year <= 9999 ==> DeliveryDate(startDate, durations, lots) == Ok(Format(due))
                                     && Parse(Format(due)) == Some(due))
  {
    var start := Parse(startDate).value;
    var n := TotalLeadTime(durations, lots);
    assert n >= 0;
    AddDaysOrder(start, n);
    var due := AddDays(start, n);
    if due.year <= 9999 {
      ParseFormat(due);
    }
  }

  /** The recalculation effect: price, cost and delivery date derived from the other
      fields; the record is replaced only when one of the three differs. */
  function Recalculated(job: Job, platingTypes: seq<PlatingTypeMaster>, jigs: seq<JigMaster>, durations: Durations): (r: Result<Job>)
    ensures r.Ok? <==> DeliveryDate(job.startDate, durations,
                         LotCount(FindPlatingType(platingTypes, job.platingTypeId), FindJig(jigs, job.jigId), job.quantity)).Ok?
    ensures r.Ok? ==> r.value == job.(price := r.value.price, cost := r.value.cost, deliveryDate := r.value.deliveryDate)
  {
    var platingType := FindPlatingType(platingTypes, job.platingTypeId);
    var jig := FindJig(jigs, job.jigId);
    var price := Price(platingType, job.quantity, job.unitPrice);
    var cost := Cost(platingType, jig, job.quantity);
    var lots := LotCount(platingType, jig, job.quantity);
    match DeliveryDate(job.startDate, durations, lots)
    case Err(e) => Err(e)
    case Ok(due) =>
      if job.price != price || job.cost != cost || job.deliveryDate != due then
        Ok(job.(price := price, cost := cost, deliveryDate := due))
      else Ok(job)
  }

  /** The three derived fields get exactly their formulas, the record is kept when they
      already hold, and a second recalculation changes nothing. */
  lemma RecalculatedFixpoint(job: Job, platingTypes: seq<PlatingTypeMaster>, jigs: seq<JigMaster>, durations: Durations)
    requires Recalculated(job, platingTypes, jigs, durations).Ok?
    ensures var j := Recalculated(job, platingTypes, jigs, durations).value;
            var platingType := FindPlatingType(platingTypes, job.platingTypeId);
            var jig := FindJig(jigs, job.jigId);
            && j.price == Price(platingType, job.quantity, job.unitPrice)
            && j.cost == Cost(platingType, jig, job.quantity)
            && Ok(j.deliveryDate) == DeliveryDate(job.startDate, durations, LotCount(platingType, jig, job.quantity))
            && Recalculated(j, platingTypes, jigs, durations) == Ok(j)
  {
  }

  lemma RecalculatedKeeps(job: Job, platingTypes: seq<PlatingTypeMaster>, jigs: seq<JigMaster>, durations: Durations)
    requires
      var platingType := FindPlatingType(platingTypes, job.platingTypeId);
      var jig := FindJig(jigs, job.jigId);
      && job.price == Price(platingType, job.quantity, job.unitPrice)
      && job.cost == Cost(platingType, jig, job.quantity)
      && Ok(job.deliveryDate) == DeliveryDate(job.startDate, durations, LotCount(platingType, jig, job.quantity))
    ensures Recalculated(job, platingTypes, jigs, durations) == Ok(job)
  {
  }

  /** The costs written next to the sample jobs: 500 pieces on 50-piece jigs at 5000 yen
      a lot, 100 on 20 at 12000, and 20 on 5 at 18000. */
  lemma SampleJobCosts()
    ensures Cost(Some(PlatingTypeMaster("plating-1", "亜鉛めっき", 100, 5000)), Some(JigMaster("jig-1", "治具A-1", 50)), 500) == 50000
    ensures Cost(Some(PlatingTypeMaster("plating-2", "ニッケルクロムめっき", 350, 12000)), Some(JigMaster("jig-2", "治具B-5", 20)), 100) == 60000
    ensures Cost(Some(PlatingTypeMaster("plating-3", "無電解ニッケルめっき", 500, 18000)), Some(JigMaster("jig-3", "特殊治具C", 5)), 20) == 72000
  {
  }

  /** The save check: product name, client, plating type and jig are required and the
      quantity must be positive. */
  function ValidateForSave(job: Job): (r: Result<Job>)
    ensures r.Ok? <==> job.productName != "" && job.clientId != "" && job.platingTypeId != ""
                       && job.jigId != "" && job.quantity > 0
    ensures r.Ok? ==> r.value == job
  {
    if job.productName == "" || job.clientId == "" || job.platingTypeId == "" || job.jigId == "" || job.quantity <= 0
    then Err("商品名、顧客、めっき種、治具、数量は必須です。")
    else Ok(job)
  }

  /** A product name offered for `typed`: present, containing it, and not equal to it. */
  predicate IsSuggestion(name: string, typed: string)
  {
    name != "" && Contains(name, typed) && name != typed
  }

  /** The suggestions offered while typing a product name: up to ten distinct names from
      all jobs that contain the typed text, first occurrences first. */
  function ProductSuggestions(allJobs: seq<Job>, typed: string): (r: seq<string>)
    ensures var c := SuggestionCandidates(allJobs, typed);
            |r| == (if |c| < 10 then |c| else 10) && r == c[..|r|]
    ensures |r| <= 10 && NoDuplicates(r)
    ensures forall n :: n in r ==> IsSuggestion(n, typed) && exists j :: j in allJobs && j.productName == n
    ensures |SuggestionCandidates(allJobs, typed)| <= 10 ==>
              forall j :: j in allJobs && IsSuggestion(j.productName, typed) ==> j.productName in r
  {
    var candidates := SuggestionCandidates(allJobs, typed);
    var r := Take(candidates, 10);
    assert forall i :: 0 <= i < |r| ==> r[i] == candidates[i];
    r
  }

  /** The product names of the jobs, in list order. */
  function ProductNames(allJobs: seq<Job>): seq<string>
  {
    Map(allJobs, (j: Job) => j.productName)
  }

  /** Every distinct product name of `allJobs` that would be offered, first occurrences
      first. */
  function SuggestionCandidates(allJobs: seq<Job>, typed: string): (r: seq<string>)
    ensures NoDuplicates(r)
    ensures forall n :: n in r <==> IsSuggestion(n, typed) && exists j :: j in allJobs && j.productName == n
    ensures InFirstOccurrenceOrder(r, ProductNames(allJobs))
  {
    var names := ProductNames(allJobs);
    NamesOfJobs(allJobs, names);
    var p := (n: string) => IsSuggestion(n, typed);
    DistinctFilterOrder(names, p);
    Distinct(Filter(names, p))
  }

  lemma NamesOfJobs(allJobs: seq<Job>, names: seq<string>)
    requires names == ProductNames(allJobs)
    ensures forall n :: n in names <==> exists j :: j in allJobs && j.productName == n
  {
    forall n | n in names ensures exists j :: j in allJobs && j.productName == n {
      var i :| 0 <= i < |names| && names[i] == n;
      assert allJobs[i] in allJobs;
    }
    forall j | j in allJobs ensures j.productName in names {
      var i :| 0 <= i < |allJobs| && allJobs[i] == j;
      assert names[i] == j.productName;
    }
  }

  /** `new Date(job.startDate).getTime()` as a sort key: later start dates give larger
      keys. */
  function StartKey(job: Job): int
  {
    match Parse(job.startDate)
    case Some(d) => DayKey(d)
    case None => 0
  }

  /** The client's jobs offered for copying in a new-job form: the ten latest by start
      date; none when editing an existing job or before a client is chosen. */
  function SortedClientJobs(allJobs: seq<Job>, clientId: string, isNew: bool): (r: seq<Job>)
    ensures !isNew || clientId == "" ==> r == []
    ensures |r| <= 10
    ensures forall j :: j in r ==> j in allJobs && j.clientId == clientId
    ensures SortedDesc(r, StartKey)
    ensures isNew && clientId != "" ==>
              var mine := ClientJobs(allJobs, clientId);
              && |r| == (if |mine| < 10 then |mine| else 10)
              && multiset(r) <= multiset(mine)
              && forall j :: j in multiset(mine) - multiset(r) ==> forall x :: x in r ==> StartKey(j) <= StartKey(x)
  {
    if !isNew || clientId == "" then []
    else
      var mine := ClientJobs(allJobs, clientId);
      var sorted := SortDesc(mine, StartKey);
      SortDescMembers(mine, StartKey);
      TakeSubset(sorted, 10, StartKey);
      TakeSortedDropped(sorted, 10, StartKey);
      Take(sorted, 10)
  }

  /** The jobs of one client, in list order. */
  function ClientJobs(allJobs: seq<Job>, clientId: string): (r: seq<Job>)
    ensures forall j :: j in r <==> j in allJobs && j.clientId == clientId
  {
    Filter(allJobs, (j: Job) => j.clientId == clientId)
  }

  /** The fields the form's inputs write. */
  datatype TextField = ProductName | ClientId | PlatingTypeId | JigId | StartDate | Status | Memo
  datatype NumberField = Quantity | UnitPrice

  /** One change event: a text or select value, or a number input whose value is either
      empty or a number. */
  datatype FormInput =
    | TextInput(field: TextField, text: string)
    | NumberInput(numberField: NumberField, number: Option<int>)
  {
    predicate IsText(f: TextField)
    {
      TextInput? && field == f
    }
  }

  /** `{ ...job, [name]: parsedValue }`, where an empty number input reads as 0. */
  function WithInput(job: Job, input: FormInput): Job
  {
    match input
    case TextInput(f, v) =>
      (match f
       case ProductName => job.(productName := v)
       case ClientId => job.(clientId := v)
       case PlatingTypeId => job.(platingTypeId := v)
       case JigId => job.(jigId := v)
       case StartDate => job.(startDate := v)
       case Status => job.(status := v)
       case Memo => job.(memo := Some(v)))
    case NumberInput(f, n) =>
      var value := n.GetOr(0);
      (match f
       case Quantity => job.(quantity := value)
       case UnitPrice => job.(unitPrice := value))
  }

  /** An input event changes only the field it names. */
  lemma WithInputOnlyField(job: Job, input: FormInput)
    ensures input.IsText(ClientId) ==> WithInput(job, input) == job.(clientId := input.text)
    ensures input.NumberInput? && input.number.None? ==>
              WithInput(job, input) == (if input.numberField == Quantity then job.(quantity := 0) else job.(unitPrice := 0))
    ensures input.TextInput? && input.field == Memo ==> WithInput(job, input) == job.(memo := Some(input.text))
  {
  }

  /** The edit form's state. */
  class JobEditor {
    var editedJob: Job
    var productSuggestions: seq<string>
    var isPastJobPickerOpen: bool
    const isNew: bool
    const allJobs: seq<Job>
    const platingTypes: seq<PlatingTypeMaster>
    const jigs: seq<JigMaster>
    const durations: Durations

    constructor (job: Job, isNew: bool, allJobs: seq<Job>, platingTypes: seq<PlatingTypeMaster>,
                 jigs: seq<JigMaster>, durations: Durations)
      ensures editedJob == job && productSuggestions == [] && !isPastJobPickerOpen
      ensures this.isNew == isNew && this.allJobs == allJobs && this.platingTypes == platingTypes
      ensures this.jigs == jigs && this.durations == durations
    {
      editedJob := job;
      productSuggestions := [];
      isPastJobPickerOpen := false;
      this.isNew := isNew;
      this.allJobs := allJobs;
      this.platingTypes := platingTypes;
      this.jigs := jigs;
      this.durations := durations;
    }

    /** `handleChange`: writes the named field; a plating type found in the master also
        brings its unit price, and typing a product name refreshes the suggestions. */
    method HandleChange(input: FormInput)
      modifies this
      ensures input.IsText(PlatingTypeId) && FindPlatingType(platingTypes, input.text).Some? ==>
                editedJob == old(editedJob).(platingTypeId := input.text,
                                             unitPrice := FindPlatingType(platingTypes, input.text).value.unitPrice)
      ensures !(input.IsText(PlatingTypeId) && FindPlatingType(platingTypes, input.text).Some?) ==>
                editedJob == WithInput(old(editedJob), input)
      ensures input.IsText(ProductName) ==>
                productSuggestions == (if Trim(input.text) != [] then ProductSuggestions(allJobs, input.text) else [])
      ensures !input.IsText(ProductName) ==> productSuggestions == old(productSuggestions)
      ensures isPastJobPickerOpen == old(isPastJobPickerOpen)
    {
      if input.TextInput? && input.field == ProductName {
        if |Trim(input.text)| > 0 {
          productSuggestions := ProductSuggestions(allJobs, input.text);
        } else {
          productSuggestions := [];
        }
      }
      if input.TextInput? && input.field == PlatingTypeId {
        var selected := FindPlatingType(platingTypes, input.text);
        if selected.Some? {
          editedJob := editedJob.(platingTypeId := input.text, unitPrice := selected.value.unitPrice);
        } else {
          editedJob := editedJob.(platingTypeId := input.text);
        }
      } else {
        editedJob := WithInput(editedJob, input);
      }
    }

    /** The recalculation effect applied to the form; on a `RangeError` the form is left
        as it was. */
    method Recalculate() returns (r: Result<Job>)
      modifies this
      ensures r == Recalculated(old(editedJob), platingTypes, jigs, durations)
      ensures editedJob == (if r.Ok? then r.value else old(editedJob))
      ensures productSuggestions == old(productSuggestions) && isPastJobPickerOpen == old(isPastJobPickerOpen)
    {
      r := Recalculated(editedJob, platingTypes, jigs, durations);
      if r.Ok? {
        editedJob := r.value;
      }
    }

    /** `handleSelectSuggestion`: a new job takes client, plating type, jig, unit price
        and quantity from the latest past job with that product name; otherwise only the
        name is set. The suggestions close either way. */
    method SelectSuggestion(name: string)
      modifies this
      ensures var past := Filter(allJobs, (j: Job) => j.productName == name);
              if isNew && |past| > 0 then
                var latest := SortDesc(past, StartKey)[0];
                editedJob == old(editedJob).(productName := name, clientId := latest.clientId,
                                             platingTypeId := latest.platingTypeId, jigId := latest.jigId,
                                             unitPrice := latest.unitPrice, quantity := latest.quantity)
              else editedJob == old(editedJob).(productName := name)
      ensures productSuggestions == [] && isPastJobPickerOpen == old(isPastJobPickerOpen)
    {
      if isNew {
        var past := Filter(allJobs, (j: Job) => j.productName == name);
        if |past| > 0 {
          var latest := SortDesc(past, StartKey)[0];
          editedJob := editedJob.(productName := name, clientId := latest.clientId,
                                  platingTypeId := latest.platingTypeId, jigId := latest.jigId,
                                  unitPrice := latest.unitPrice, quantity := latest.quantity);
          productSuggestions := [];
          return;
        }
      }
      editedJob := editedJob.(productName := name);
      productSuggestions := [];
    }

    /** `handleCopyFromPast`: takes product, plating type, jig, unit price, quantity and
        memo from the job with that id and closes the picker; an unknown id changes
        nothing. */
    method CopyFromPast(jobId: string)
      modifies this
      ensures FindJob(allJobs, jobId).None? ==>
                editedJob == old(editedJob) && productSuggestions == old(productSuggestions)
                && isPastJobPickerOpen == old(isPastJobPickerOpen)
      ensures FindJob(allJobs, jobId).Some? ==>
                var p := FindJob(allJobs, jobId).value;
                && editedJob == old(editedJob).(productName := p.productName, platingTypeId := p.platingTypeId,
                                                jigId := p.jigId, unitPrice := p.unitPrice,
                                                quantity := p.quantity, memo := p.memo)
                && productSuggestions == [] && !isPastJobPickerOpen
    {
      var found := FindJob(allJobs, jobId);
      if found.None? {
        return;
      }
      var p := found.value;
      editedJob := editedJob.(productName := p.productName, platingTypeId := p.platingTypeId,
                              jigId := p.jigId, unitPrice := p.unitPrice, quantity := p.quantity, memo := p.memo);
      productSuggestions := [];
      isPastJobPickerOpen := false;
    }
  }

  /** The job taken over from a suggestion carries that product name and the latest start
      date among the past jobs with it. */
  lemma SuggestionSourceIsLatest(allJobs: seq<Job>, name: string)
    requires |Filter(allJobs, (j: Job) => j.productName == name)| > 0
    ensures var past := Filter(allJobs, (j: Job) => j.productName == name);
            var latest := SortDesc(past, StartKey)[0];
            latest in allJobs && latest.productName == name
            && forall j :: j in allJobs && j.productName == name ==> StartKey(j) <= StartKey(latest)
  {
    var past := Filter(allJobs, (j: Job) => j.productName == name);
    SortDescHead(past, StartKey);
  }
}
