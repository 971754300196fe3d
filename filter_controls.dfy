/** The filter panel (`components/FilterControls.tsx`): each control hands on a new
    filter record computed from the current one. */
module FilterControls {
  import opened Seqs
  import opened Types

  /** The text inputs and the client select, by their `name`. */
  datatype FilterField = ClientIdField | ProductNameField | DeliveryDateStartField | DeliveryDateEndField

  /** `handleInputChange`: the named field takes the input's value. */
  function InputChanged(filters: Filters, field: FilterField, value: string): (r: Filters)
    ensures r.statuses == filters.statuses
    ensures r.clientId == (if field == ClientIdField then value else filters.clientId)
    ensures r.productName == (if field == ProductNameField then value else filters.productName)
    ensures r.deliveryDateStart == (if field == DeliveryDateStartField then value else filters.deliveryDateStart)
    ensures r.deliveryDateEnd == (if field == DeliveryDateEndField then value else filters.deliveryDateEnd)
  {
    match field
    case ClientIdField => filters.(clientId := value)
    case ProductNameField => filters.(productName := value)
    case DeliveryDateStartField => filters.(deliveryDateStart := value)
    case DeliveryDateEndField => filters.(deliveryDateEnd := value)
  }

  /** Typing the value a field already holds hands on the same filters. */
  lemma InputChangedSame(filters: Filters, field: FilterField)
    ensures var v := match field
                     case ClientIdField => filters.clientId
                     case ProductNameField => filters.productName
                     case DeliveryDateStartField => filters.deliveryDateStart
                     case DeliveryDateEndField => filters.deliveryDateEnd;
            InputChanged(filters, field, v) == filters
  {
  }

  /** `handleStatusChange`: a checked stage is unchecked (every occurrence goes), an
      unchecked one is appended, and the other criteria are kept. */
  function StatusChanged(filters: Filters, status: ProcessStatus): (r: Filters)
    ensures status in filters.statuses ==> status !in r.statuses
    ensures status !in filters.statuses ==> r.statuses == filters.statuses + [status]
    ensures forall s :: s != status ==> (s in r.statuses <==> s in filters.statuses)
    ensures r.clientId == filters.clientId && r.productName == filters.productName
    ensures r.deliveryDateStart == filters.deliveryDateStart && r.deliveryDateEnd == filters.deliveryDateEnd
  {
    filters.(statuses := Toggled(filters.statuses, status))
  }

  /** Clicking a stage twice restores which stages are checked. */
  lemma {:induction false} StatusChangedTwice(filters: Filters, status: ProcessStatus)
    ensures var r := StatusChanged(StatusChanged(filters, status), status);
            && (forall s :: s in r.statuses <==> s in filters.statuses)
            && r.(statuses := filters.statuses) == filters
  {
    ToggledTwice(filters.statuses, status);
  }

  /** Starting from a list without repeats, clicking keeps it without repeats. */
  lemma StatusChangedNoDuplicates(filters: Filters, status: ProcessStatus)
    requires NoDuplicates(filters.statuses)
    ensures NoDuplicates(StatusChanged(filters, status).statuses)
  {
    ToggledNoDuplicates(filters.statuses, status);
  }
}
